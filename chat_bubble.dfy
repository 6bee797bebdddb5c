/**
 * The chat assistant of frontend/src/components/ChatBubble.jsx: `sendMessage`
 * drives the store through an ordered sequence of dispatches around one
 * request to the assistant.
 */
module ChatBubble {
  import opened Common
  import opened AppState
  import JsString

  /**
   * The outcome of `POST /api/assistant`: a failure (the request failed, or
   * its body could not be destructured), or a body whose `reply` and
   * `filters` may each be absent. `filters` is None also when it is falsy.
   */
  datatype AssistantOutcome = Failed | Answered(reply: Option<string>, filters: Option<Filters>)

  /** The body of `POST /api/assistant`: the new text and the transcript before it. */
  datatype AssistantRequest = AssistantRequest(query: string, history: seq<ChatMessage>)

  const Apology: string := "Sorry, something went wrong."

  /** Every character of `message` is white space or a line terminator. */
  predicate Blank(message: string) {
    JsString.SpaceBetween(message, 0, |message|)
  }

  /** The guard of `sendMessage`: `message.trim()` is empty exactly when the message is blank. */
  lemma BlankIsEmptyTrim(message: string)
    ensures Blank(message) <==> JsString.Trim(message) == ""
  {
  }

  /** `filtersToApply?.clear` is truthy. */
  predicate ClearRequested(p: Filters) {
    "clear" in p && Truthy(p["clear"])
  }

  /** The assistant message appended for an outcome: the reply, or the apology on failure. */
  function ReplyMessage(outcome: AssistantOutcome): (m: ChatMessage)
    ensures m.role == AssistantRole
    ensures outcome.Failed? ==> m.content == Some(Apology)
    ensures outcome.Answered? ==> m.content == outcome.reply
  {
    match outcome
    case Failed => ChatMessage(AssistantRole, Some(Apology))
    case Answered(reply, _) => ChatMessage(AssistantRole, reply)
  }

  /**
   * The filters after an outcome: a payload is merged in; a payload with a
   * truthy `clear` is merged and then reset, so the defaults win.
   */
  function FiltersAfter(filters: Filters, outcome: AssistantOutcome): (r: Filters)
    ensures outcome.Failed? || outcome.filters.None? ==> r == filters
    ensures outcome.Answered? && outcome.filters.Some? && ClearRequested(outcome.filters.value) ==> r == DefaultFilters
    ensures outcome.Answered? && outcome.filters.Some? && !ClearRequested(outcome.filters.value) ==>
      r == filters + outcome.filters.value
  {
    if outcome.Failed? || outcome.filters.None? then filters
    else if ClearRequested(outcome.filters.value) then DefaultFilters
    else filters + outcome.filters.value
  }

  /** How many refetches an outcome triggers: one for a payload, one more for a clear. */
  function Refetches(outcome: AssistantOutcome): (n: nat)
    ensures outcome.Failed? || outcome.filters.None? ==> n == 0
    ensures outcome.Answered? && outcome.filters.Some? ==> n == if ClearRequested(outcome.filters.value) then 2 else 1
  {
    if outcome.Failed? || outcome.filters.None? then 0
    else if ClearRequested(outcome.filters.value) then 2
    else 1
  }

  /**
   * The refetch after a merge is stale: a payload key whose value differs
   * from the old filter is sent with the old value (or not at all), not with
   * the value the store now holds.
   */
  lemma RefetchMissesMergedFilter(s: State, outcome: AssistantOutcome, key: string)
    requires outcome.Answered? && outcome.filters.Some? && !ClearRequested(outcome.filters.value)
    requires key in outcome.filters.value && key != "userId"
    requires key !in s.filters || s.filters[key] != outcome.filters.value[key]
    ensures key in FiltersAfter(s.filters, outcome)
    ensures key !in JobsQuery(s) || JobsQuery(s)[key] != FiltersAfter(s.filters, outcome)[key]
  {
  }

  /** The chat widget: its input text and the store it dispatches to. */
  class ChatBubble {
    const store: AppStore
    var message: string

    /**
     * The filter steps of `sendMessage` for a payload: merge and refetch,
     * then, with a truthy `clear`, reset and refetch again. Each refetch
     * turns `loading` on and sends the query of the `rendered` state.
     */
    method ApplyFilters(filtersToApply: Filters, rendered: State) returns (queries: seq<Filters>)
      modifies store
      ensures store.state == old(store.state).(
        filters := if ClearRequested(filtersToApply) then DefaultFilters else old(store.state).filters + filtersToApply,
        loading := true)
      ensures queries == if ClearRequested(filtersToApply) then [JobsQuery(rendered), JobsQuery(rendered)] else [JobsQuery(rendered)]
      ensures |store.history| > |old(store.history)| &&
        store.history[|old(store.history)|].filters == old(store.state).filters + filtersToApply
    {
      store.Dispatch(UpdateFilters(filtersToApply));
      store.Dispatch(SetLoading(true));
      queries := [JobsQuery(rendered)];
      if ClearRequested(filtersToApply) {
        store.Dispatch(ClearFilters);
        store.Dispatch(SetLoading(true));
        queries := queries + [JobsQuery(rendered)];
      }
    }

    constructor (store: AppStore)
      ensures this.store == store && message == ""
    {
      this.store := store;
      message := "";
    }

    /**
     * `sendMessage()`. A blank input does nothing. Otherwise the user's text
     * is appended, the request carries the transcript from before that
     * append, the assistant's reply (or one apology on failure) is appended
     * next, a filter payload is merged and, with a truthy `clear`, reset to
     * the defaults. Each of those two steps calls `fetchJobs`, which turns
     * `loading` on at once and sends its query; the rest of that call lands
     * later and is `AppState.AppStore.FetchJobs`. The `fetchJobs` in hand is
     * the one of the render that created this `sendMessage`, so every query
     * is built from the state before the send (`queries`), not from the
     * filters just dispatched. The input is cleared either way.
     */
    method SendMessage(outcome: AssistantOutcome) returns (request: Option<AssistantRequest>, queries: seq<Filters>)
      modifies this, store
      ensures Blank(old(message)) ==>
        && request.None? && queries == [] && message == old(message)
        && store.state == old(store.state) && store.history == old(store.history)
      ensures !Blank(old(message)) ==>
        && request == Some(AssistantRequest(old(message), old(store.state).chatMessages))
        && message == ""
        && store.state == old(store.state).(
             chatMessages := old(store.state).chatMessages + [ChatMessage(UserRole, Some(old(message))), ReplyMessage(outcome)],
             filters := FiltersAfter(old(store.state).filters, outcome),
             loading := if Refetches(outcome) > 0 then true else old(store.state).loading)
        && |queries| == Refetches(outcome)
        && (forall i :: 0 <= i < |queries| ==> queries[i] == JobsQuery(old(store.state)))
      ensures !Blank(old(message)) && outcome.Answered? && outcome.filters.Some? ==>
        |store.history| >= |old(store.history)| + 3 &&
        store.history[|old(store.history)| + 2].filters == old(store.state).filters + outcome.filters.value
    {
      if Blank(message) {
        request := None;
        queries := [];
        return;
      }
      var rendered := store.state;
      var sent := ChatMessage(UserRole, Some(message));
      store.Dispatch(AddChatMessage(sent));
      request := Some(AssistantRequest(message, rendered.chatMessages));
      queries := [];
      store.Dispatch(AddChatMessage(ReplyMessage(outcome)));
      assert store.state == rendered.(chatMessages := rendered.chatMessages + [sent, ReplyMessage(outcome)]);
      if outcome.Answered? && outcome.filters.Some? {
        queries := ApplyFilters(outcome.filters.value, rendered);
      }
      message := "";
    }
  }
}
