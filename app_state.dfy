/**
 * The client store of frontend/src/context/AppContext.jsx: the state record,
 * the closed set of actions, the reducer, and the store that dispatches them
 * (login, fetchJobs, fetchApplications, updateApplicationStatus).
 *
 * JavaScript objects whose keys are open-ended (the filters, an action's
 * filter payload, the request parameters) are maps from key to value, so the
 * spread `{ ...a, ...b }` is the map union `a + b`, where b's keys win.
 */
module AppState {
  import opened Common

  /** A value stored under a filter key: a string, a list of strings, or a flag. */
  datatype FilterValue = Text(text: string) | Items(items: seq<string>) | Flag(flag: bool)

  type Filters = map<string, FilterValue>

  /** JavaScript truthiness of a filter value: '' and false are falsy, every array is truthy. */
  predicate Truthy(v: FilterValue) {
    match v
    case Text(t) => t != ""
    case Items(_) => true
    case Flag(b) => b
  }

  /** `{ id, email, resume }`; `resume` is absent until one is uploaded. */
  datatype User = User(id: string, email: string, resume: Option<string>)

  /** JavaScript truthiness of `user.resume`. */
  predicate HasResume(u: User) {
    u.resume.Some? && u.resume.value != ""
  }

  /** A job as the client holds it; `score` may be missing. */
  datatype Job = Job(
    id: string,
    title: string,
    company: string,
    location: string,
    jobType: Option<string>,
    applyUrl: string,
    score: Option<int>,
    explanation: Option<string>)

  datatype Role = UserRole | AssistantRole

  /** A transcript entry; an assistant reply the server did not supply has no content. */
  datatype ChatMessage = ChatMessage(role: Role, content: Option<string>)

  datatype State = State(
    user: Option<User>,
    jobs: seq<Job>,
    filteredJobs: seq<Job>,
    applications: seq<Application>,
    filters: Filters,
    loading: bool,
    chatOpen: bool,
    chatMessages: seq<ChatMessage>,
    showPopup: Option<Job>)

  /** The ten action types of the reducer, and any other type string. */
  datatype Action =
    | SetUser(user: Option<User>)
    | SetJobs(jobs: seq<Job>)
    | SetApplications(applications: seq<Application>)
    | UpdateFilters(payload: Filters)
    | SetLoading(loading: bool)
    | ToggleChat
    | AddChatMessage(message: ChatMessage)
    | ShowPopup(job: Option<Job>)
    | HidePopup
    | ClearFilters
    | Unrecognised(tag: string)

  /** The filter defaults of `initialState`. */
  const DefaultFilters: Filters := map[
    "title" := Text(""),
    "skills" := Items([]),
    "datePosted" := Text("any"),
    "jobType" := Items([]),
    "workMode" := Items([]),
    "location" := Text(""),
    "matchScore" := Text("all")]

  const InitialState: State := State(
    user := None,
    jobs := [],
    filteredJobs := [],
    applications := [],
    filters := DefaultFilters,
    loading := false,
    chatOpen := false,
    chatMessages := [],
    showPopup := None)

  /** The fields of the state record, to state which ones an action may change. */
  datatype Field =
    | UserField | JobsField | FilteredJobsField | ApplicationsField | FiltersField
    | LoadingField | ChatOpenField | ChatMessagesField | ShowPopupField

  /** `s` and `t` hold the same value in field `f`. */
  predicate Agree(s: State, t: State, f: Field) {
    match f
    case UserField => s.user == t.user
    case JobsField => s.jobs == t.jobs
    case FilteredJobsField => s.filteredJobs == t.filteredJobs
    case ApplicationsField => s.applications == t.applications
    case FiltersField => s.filters == t.filters
    case LoadingField => s.loading == t.loading
    case ChatOpenField => s.chatOpen == t.chatOpen
    case ChatMessagesField => s.chatMessages == t.chatMessages
    case ShowPopupField => s.showPopup == t.showPopup
  }

  /** Every field outside `changed` is the same in `s` and `t`. */
  predicate Frame(s: State, t: State, changed: set<Field>) {
    forall f :: f !in changed ==> Agree(s, t, f)
  }

  /** The frame table: the fields each action is allowed to change. */
  function Touches(a: Action): set<Field> {
    match a
    case SetUser(_) => {UserField}
    case SetJobs(_) => {JobsField, FilteredJobsField}
    case SetApplications(_) => {ApplicationsField}
    case UpdateFilters(_) => {FiltersField}
    case SetLoading(_) => {LoadingField}
    case ToggleChat => {ChatOpenField}
    case AddChatMessage(_) => {ChatMessagesField}
    case ShowPopup(_) => {ShowPopupField}
    case HidePopup => {ShowPopupField}
    case ClearFilters => {FiltersField}
    case Unrecognised(_) => {}
  }

  /** The reducer: a total function from a state and an action to the next state. */
  function Reduce(s: State, a: Action): (r: State)
    ensures Frame(s, r, Touches(a))
  {
    match a
    case SetUser(u) => s.(user := u)
    case SetJobs(js) => s.(jobs := js, filteredJobs := js)
    case SetApplications(apps) => s.(applications := apps)
    case UpdateFilters(p) => s.(filters := s.filters + p)
    case SetLoading(b) => s.(loading := b)
    case ToggleChat => s.(chatOpen := !s.chatOpen)
    case AddChatMessage(m) => s.(chatMessages := s.chatMessages + [m])
    case ShowPopup(j) => s.(showPopup := j)
    case HidePopup => s.(showPopup := None)
    case ClearFilters => s.(filters := DefaultFilters)
    case Unrecognised(_) => s
  }

  /** UPDATE_FILTERS is a shallow merge: payload keys overwrite, all other keys stay. */
  lemma UpdateFiltersMerges(s: State, p: Filters)
    ensures var r := Reduce(s, UpdateFilters(p));
      && r.filters.Keys == s.filters.Keys + p.Keys
      && (forall k :: k in p ==> r.filters[k] == p[k])
      && (forall k :: k in s.filters && k !in p ==> r.filters[k] == s.filters[k])
  {
  }

  /** CLEAR_FILTERS restores the defaults and is idempotent. */
  lemma ClearFiltersResets(s: State)
    ensures Reduce(s, ClearFilters).filters == DefaultFilters
    ensures Reduce(Reduce(s, ClearFilters), ClearFilters) == Reduce(s, ClearFilters)
  {
  }

  /** SET_JOBS stores the payload twice, with no narrowing and no reordering. */
  lemma SetJobsCopiesPayload(s: State, js: seq<Job>)
    ensures Reduce(s, SetJobs(js)).jobs == js
    ensures Reduce(s, SetJobs(js)).filteredJobs == js
  {
  }

  /** ADD_CHAT_MESSAGE appends at the end and keeps every earlier message. */
  lemma AddChatMessageAppends(s: State, m: ChatMessage)
    ensures var r := Reduce(s, AddChatMessage(m));
      && |r.chatMessages| == |s.chatMessages| + 1
      && r.chatMessages[..|s.chatMessages|] == s.chatMessages
      && r.chatMessages[|s.chatMessages|] == m
  {
  }

  /** TOGGLE_CHAT flips the flag, so toggling twice is the identity. */
  lemma ToggleChatTwice(s: State)
    ensures Reduce(s, ToggleChat).chatOpen != s.chatOpen
    ensures Reduce(Reduce(s, ToggleChat), ToggleChat) == s
  {
  }

  /** SHOW_POPUP sets the popup job; HIDE_POPUP clears it whatever it was. */
  lemma PopupShowHide(s: State, j: Option<Job>)
    ensures Reduce(s, ShowPopup(j)).showPopup == j
    ensures Reduce(Reduce(s, ShowPopup(j)), HidePopup).showPopup == None
  {
  }

  /** An action type the reducer does not know returns the very same state. */
  lemma UnrecognisedIsIdentity(s: State, tag: string)
    ensures Reduce(s, Unrecognised(tag)) == s
  {
  }

  /** The state after dispatching `actions` in order. */
  function Run(s: State, actions: seq<Action>): State
    decreases |actions|
  {
    if actions == [] then s else Run(Reduce(s, actions[0]), actions[1..])
  }

  /** The number of ADD_CHAT_MESSAGE actions in `actions`. */
  function ChatAdds(actions: seq<Action>): nat {
    if actions == [] then 0
    else (if actions[0].AddChatMessage? then 1 else 0) + ChatAdds(actions[1..])
  }

  /**
   * The transcript is append-only under any sequence of actions: the old
   * transcript is a prefix of the new one, which is longer by exactly the
   * number of ADD_CHAT_MESSAGE actions.
   */
  lemma {:induction false} TranscriptOnlyGrows(s: State, actions: seq<Action>)
    ensures s.chatMessages <= Run(s, actions).chatMessages
    ensures |Run(s, actions).chatMessages| == |s.chatMessages| + ChatAdds(actions)
    decreases |actions|
  {
    if actions != [] {
      var s' := Reduce(s, actions[0]);
      TranscriptOnlyGrows(s', actions[1..]);
      if actions[0].AddChatMessage? {
        assert s.chatMessages <= s'.chatMessages;
      } else {
        assert Agree(s, s', ChatMessagesField);
      }
    }
  }

  /** A field that no action of the sequence may change is the same afterwards. */
  lemma {:induction false} RunKeepsUntouched(s: State, actions: seq<Action>, f: Field)
    requires forall i :: 0 <= i < |actions| ==> f !in Touches(actions[i])
    ensures Agree(s, Run(s, actions), f)
    decreases |actions|
  {
    if actions != [] {
      var s' := Reduce(s, actions[0]);
      assert f !in Touches(actions[0]);
      RunKeepsUntouched(s', actions[1..], f);
      match f
      case UserField =>
      case JobsField =>
      case FilteredJobsField =>
      case ApplicationsField =>
      case FiltersField =>
      case LoadingField =>
      case ChatOpenField =>
      case ChatMessagesField =>
      case ShowPopupField =>
    }
  }

  /**
   * The parameters of `GET /api/jobs`: `{ userId: state.user?.id, ...state.filters }`.
   * A missing user leaves `userId` undefined, which the request omits; a
   * filter key of the same name overrides it.
   */
  function JobsQuery(s: State): (q: Filters)
    ensures q.Keys == s.filters.Keys + (if s.user.Some? then {"userId"} else {})
    ensures forall k :: k in s.filters ==> q[k] == s.filters[k]
    ensures s.user.Some? && "userId" !in s.filters ==> q["userId"] == Text(s.user.value.id)
  {
    (if s.user.Some? then map["userId" := Text(s.user.value.id)] else map[]) + s.filters
  }

  /** The only credentials `login` accepts. */
  predicate ValidCredentials(email: string, password: string) {
    email == "test@gmail.com" && password == "test@123"
  }

  /** The body of `POST /api/apply`. */
  datatype ApplyRequest = ApplyRequest(userId: string, jobId: string, status: string)

  /**
   * The store: the current state, and (for specification only) every state it
   * has held, oldest first, one per dispatched action after the initial one.
   */
  class AppStore {
    var state: State
    ghost var history: seq<State>

    constructor ()
      ensures state == InitialState && history == [InitialState]
    {
      state := InitialState;
      history := [InitialState];
    }

    method Dispatch(a: Action)
      modifies this
      ensures state == Reduce(old(state), a)
      ensures history == old(history) + [state]
    {
      state := Reduce(state, a);
      history := history + [state];
    }

    /**
     * `fetchApplications(userId)`: `response` is the server's list, or None when
     * the request failed, in which case nothing is dispatched.
     */
    method FetchApplications(response: Option<seq<Application>>)
      modifies this
      ensures response.Some? ==> state == Reduce(old(state), SetApplications(response.value))
      ensures response.None? ==> state == old(state) && history == old(history)
    {
      if response.Some? {
        Dispatch(SetApplications(response.value));
      }
    }

    /**
     * `login(email, password)`: only the fixed test credentials succeed; they
     * set the user `{ id: 'user1', email }` and fetch that user's applications,
     * whose outcome is `applications`. Any other pair changes nothing.
     */
    method Login(email: string, password: string, applications: Option<seq<Application>>) returns (ok: bool)
      modifies this
      ensures ok <==> ValidCredentials(email, password)
      ensures ok ==> state.user == Some(User("user1", email, None))
      ensures ok ==> state == old(state).(
        user := Some(User("user1", email, None)),
        applications := applications.GetOr(old(state).applications))
      ensures !ok ==> state == old(state) && history == old(history)
    {
      if ValidCredentials(email, password) {
        Dispatch(SetUser(Some(User("user1", email, None))));
        FetchApplications(applications);
        ok := true;
      } else {
        ok := false;
      }
    }

    /**
     * `fetchJobs()`: loading goes on, the request is sent with `query`, the
     * jobs are stored if it succeeded (`response` is None when it failed), and
     * loading goes off in either case.
     */
    method FetchJobs(response: Option<seq<Job>>) returns (query: Filters)
      modifies this
      ensures query == JobsQuery(old(state))
      ensures state == old(state).(
        loading := false,
        jobs := response.GetOr(old(state).jobs),
        filteredJobs := if response.Some? then response.value else old(state).filteredJobs)
      ensures |history| == |old(history)| + (if response.Some? then 3 else 2)
      ensures history[|old(history)|].loading
    {
      Dispatch(SetLoading(true));
      query := JobsQuery(state);
      if response.Some? {
        Dispatch(SetJobs(response.value));
      }
      Dispatch(SetLoading(false));
    }

    /**
     * `updateApplicationStatus(jobId, status)`: posts a new entry for the
     * current user (`posted` says whether the post succeeded) and, after a
     * successful post, refreshes the list with the outcome `refresh`. With no
     * user, reading its id throws inside the try block and nothing is sent.
     */
    method UpdateApplicationStatus(jobId: string, status: string, posted: bool, refresh: Option<seq<Application>>)
      returns (request: Option<ApplyRequest>)
      modifies this
      ensures old(state).user.None? ==> request == None
      ensures old(state).user.Some? ==> request == Some(ApplyRequest(old(state).user.value.id, jobId, status))
      ensures request.Some? && posted && refresh.Some? ==> state == Reduce(old(state), SetApplications(refresh.value))
      ensures !(request.Some? && posted && refresh.Some?) ==> state == old(state) && history == old(history)
    {
      if state.user.None? {
        request := None;
        return;
      }
      request := Some(ApplyRequest(state.user.value.id, jobId, status));
      if posted {
        FetchApplications(refresh);
      }
    }
  }
}
