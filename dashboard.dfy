/** The application history page of frontend/src/components/ApplicationsDashboard.jsx. */
module ApplicationsDashboard {
  import opened Common
  import opened AppState

  /** The title and company a card shows. */
  datatype JobHeading = JobHeading(title: string, company: string)

  const UnknownJob := JobHeading("Unknown", "Unknown")

  /** `jobs.find(j => j.id === jobId)`: the position of the first job with that id. */
  function FindJob(jobs: seq<Job>, jobId: string): (r: Option<nat>)
    ensures r.Some? ==> r.value < |jobs| && jobs[r.value].id == jobId
    ensures r.Some? ==> forall k :: 0 <= k < r.value ==> jobs[k].id != jobId
    ensures r.None? <==> forall k :: 0 <= k < |jobs| ==> jobs[k].id != jobId
  {
    if jobs == [] then None
    else if jobs[0].id == jobId then Some(0)
    else match FindJob(jobs[1..], jobId)
      case None => None
      case Some(k) => Some(k + 1)
  }

  /** `getJobFromId`: the first job with that id, or an "Unknown" title and company. */
  function JobFromId(jobs: seq<Job>, jobId: string): (h: JobHeading)
    ensures FindJob(jobs, jobId).None? ==> h == UnknownJob
    ensures FindJob(jobs, jobId).Some? ==>
      var j := jobs[FindJob(jobs, jobId).value]; h == JobHeading(j.title, j.company)
  {
    match FindJob(jobs, jobId)
    case None => UnknownJob
    case Some(k) => JobHeading(jobs[k].title, jobs[k].company)
  }

  /** One card per application entry. */
  datatype Card = Card(heading: JobHeading, jobId: string, status: string, timestamp: int)

  datatype DashboardView = NoApplications | Cards(cards: seq<Card>)

  function CardFor(jobs: seq<Job>, a: Application): Card {
    Card(JobFromId(jobs, a.jobId), a.jobId, a.status, a.timestamp)
  }

  /**
   * The page: "No applications yet." for an empty list; otherwise one card
   * per entry, in list order, with entries for the same job kept apart.
   */
  function View(s: State): (r: DashboardView)
    ensures r.NoApplications? <==> s.applications == []
    ensures r.Cards? ==> |r.cards| == |s.applications|
    ensures r.Cards? ==> forall i :: 0 <= i < |r.cards| ==>
      r.cards[i].jobId == s.applications[i].jobId && r.cards[i].status == s.applications[i].status
      && r.cards[i].timestamp == s.applications[i].timestamp
      && r.cards[i].heading == JobFromId(s.jobs, s.applications[i].jobId)
  {
    if s.applications == [] then NoApplications
    else Cards(seq(|s.applications|, i requires 0 <= i < |s.applications| => CardFor(s.jobs, s.applications[i])))
  }

  /**
   * Changing the status on the card at `index` calls `updateApplicationStatus`
   * with that entry's job id: a new entry is posted, none is edited here.
   */
  method ChangeStatus(store: AppStore, index: nat, newStatus: string, posted: bool, refresh: Option<seq<Application>>)
    returns (request: Option<ApplyRequest>)
    requires index < |store.state.applications|
    modifies store
    ensures old(store.state).user.Some? ==> request == Some(ApplyRequest(
      old(store.state).user.value.id, old(store.state).applications[index].jobId, newStatus))
    ensures old(store.state).user.None? ==> request == None
    ensures request.Some? && posted && refresh.Some? ==> store.state == Reduce(old(store.state), SetApplications(refresh.value))
    ensures !(request.Some? && posted && refresh.Some?) ==> store.state == old(store.state)
  {
    request := store.UpdateApplicationStatus(store.state.applications[index].jobId, newStatus, posted, refresh);
  }
}
