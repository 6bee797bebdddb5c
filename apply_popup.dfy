/** The "did you apply?" prompt of frontend/src/components/ApplyPopup.jsx. */
module ApplyPopup {
  import opened Common
  import opened AppState

  /** The three buttons of the prompt. */
  datatype Choice = YesApplied | JustBrowsing | AppliedEarlier

  /** The status a choice records: none for "No, just browsing". */
  function StatusFor(c: Choice): (r: Option<string>)
    ensures c == YesApplied <==> r == Some("Applied")
    ensures c == AppliedEarlier <==> r == Some("Applied Earlier")
    ensures c == JustBrowsing <==> r.None?
  {
    match c
    case YesApplied => Some("Applied")
    case AppliedEarlier => Some("Applied Earlier")
    case JustBrowsing => None
  }

  /** The question the prompt asks: the popup job's title and company. */
  datatype Prompt = Prompt(title: string, company: string)

  /** The render: nothing without a popup job. */
  function PopupView(s: State): (r: Option<Prompt>)
    ensures r.None? <==> s.showPopup.None?
    ensures r.Some? ==> r.value == Prompt(s.showPopup.value.title, s.showPopup.value.company)
  {
    match s.showPopup
    case None => None
    case Some(job) => Some(Prompt(job.title, job.company))
  }

  /**
   * `handleResponse(status)`: posts the status for the popup job and the
   * current user (`posted` says whether the post succeeded), hides the popup
   * whatever happened, and after a successful post refreshes the list with
   * `refresh`. The refresh is not awaited, so it lands after the hide. With
   * no user, reading its id throws inside the try block and nothing is sent.
   */
  method HandleResponse(store: AppStore, status: string, posted: bool, refresh: Option<seq<Application>>)
    returns (request: Option<ApplyRequest>)
    requires store.state.showPopup.Some?
    modifies store
    ensures old(store.state).user.None? ==> request == None
    ensures old(store.state).user.Some? ==>
      request == Some(ApplyRequest(old(store.state).user.value.id, old(store.state).showPopup.value.id, status))
    ensures store.state.showPopup.None?
    ensures store.state.applications ==
      if request.Some? && posted && refresh.Some? then refresh.value else old(store.state).applications
    ensures Frame(old(store.state), store.state, {ShowPopupField, ApplicationsField})
  {
    var job := store.state.showPopup.value;
    if store.state.user.Some? {
      request := Some(ApplyRequest(store.state.user.value.id, job.id, status));
    } else {
      request := None;
    }
    store.Dispatch(HidePopup);
    if request.Some? && posted {
      store.FetchApplications(refresh);
    }
  }

  /**
   * A click on one of the three buttons: the two recording choices go
   * through `handleResponse`; "No, just browsing" only hides the popup.
   */
  method Choose(store: AppStore, choice: Choice, posted: bool, refresh: Option<seq<Application>>)
    returns (request: Option<ApplyRequest>)
    requires store.state.showPopup.Some?
    modifies store
    ensures choice == JustBrowsing ==> request.None? && store.state == old(store.state).(showPopup := None)
    ensures choice != JustBrowsing && old(store.state).user.None? ==> request == None
    ensures choice != JustBrowsing && old(store.state).user.Some? ==>
      request == Some(ApplyRequest(old(store.state).user.value.id, old(store.state).showPopup.value.id,
                                   StatusFor(choice).value))
    ensures choice != JustBrowsing ==>
      && store.state.applications ==
           (if request.Some? && posted && refresh.Some? then refresh.value else old(store.state).applications)
      && Frame(old(store.state), store.state, {ShowPopupField, ApplicationsField})
    ensures store.state.showPopup.None?
  {
    match StatusFor(choice) {
      case None =>
        store.Dispatch(HidePopup);
        request := None;
      case Some(status) =>
        request := HandleResponse(store, status, posted, refresh);
    }
  }
}
