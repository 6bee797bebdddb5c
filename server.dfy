/**
 * The data logic of backend/server.js: normalising the postings of the job
 * source, scoring them against the user's resume, ranking them by score,
 * and the per-user store behind `/upload-resume`, `/apply` and
 * `/applications/:userId`.
 *
 * The store is the `users` object of the loaded data, held in memory; the
 * scorer (the language-model call of `matchJob`) is a function parameter.
 */
module Server {
  import opened Common
  import Ranking
  import JsString

  /** `job.location.area` as the job source sends it: a list of names, or a text. */
  datatype Area = AreaList(names: seq<string>) | AreaText(text: string)

  /**
   * `job.location` as the job source sends it. `area` is None when the
   * location has no area, so `area.includes` throws.
   */
  datatype RawLocation = RawLocation(displayName: string, area: Option<Area>)

  /**
   * A posting as the job source returns it. `companyName` is None when the
   * posting has no `company` object and `location` is None when it has no
   * `location`: reading a field of either then throws.
   */
  datatype RawPosting = RawPosting(
    id: string,
    title: string,
    companyName: Option<string>,
    location: Option<RawLocation>,
    description: string,
    contractType: Option<string>,
    created: string,
    redirectUrl: string)

  /** A normalised posting. */
  datatype Posting = Posting(
    id: string,
    title: string,
    company: string,
    location: string,
    description: string,
    jobType: string,
    mode: string,
    posted: string,
    applyUrl: string)

  /** `area.includes(s)`: element equality on a list, substring search on a text. Case-sensitive. */
  predicate AreaIncludes(a: Area, s: string) {
    match a
    case AreaList(names) => s in names
    case AreaText(t) => JsString.Contains(t, s)
  }

  /** `job.contract_type || 'full_time'`. */
  function ContractType(c: Option<string>): (t: string)
    ensures c.Some? && c.value != "" ==> t == c.value
    ensures c.None? || c.value == "" ==> t == "full_time"
  {
    if c.Some? && c.value != "" then c.value else "full_time"
  }

  /** `area.includes('remote') ? 'remote' : 'on-site'`: never 'hybrid'. */
  function WorkMode(a: Area): (m: string)
    ensures m == "remote" <==> AreaIncludes(a, "remote")
    ensures m == "on-site" <==> !AreaIncludes(a, "remote")
  {
    if AreaIncludes(a, "remote") then "remote" else "on-site"
  }

  /** The raw posting has every object the mapping reads a field of: a company, a location and its area. */
  predicate Complete(raw: RawPosting) {
    raw.companyName.Some? && raw.location.Some? && raw.location.value.area.Some?
  }

  /**
   * The posting the `/jobs` route builds from a raw one, or None when the
   * mapping throws on a missing company, location or area.
   */
  function Normalize(raw: RawPosting): (p: Option<Posting>)
    ensures p.Some? <==> Complete(raw)
    ensures p.Some? ==>
      && p.value.id == raw.id && p.value.title == raw.title && p.value.description == raw.description
      && p.value.company == raw.companyName.value && p.value.location == raw.location.value.displayName
      && p.value.posted == raw.created && p.value.applyUrl == raw.redirectUrl
      && p.value.jobType == ContractType(raw.contractType)
      && p.value.mode == WorkMode(raw.location.value.area.value)
  {
    match (raw.companyName, raw.location)
    case (Some(company), Some(RawLocation(name, Some(area)))) =>
      Some(Posting(raw.id, raw.title, company, name, raw.description,
                   ContractType(raw.contractType), WorkMode(area), raw.created, raw.redirectUrl))
    case _ => None
  }

  /**
   * A remote marker in the area is the only way to a 'remote' posting: a
   * list area needs the exact entry, a text area the substring anywhere (a
   * text starting with "remote" is one such case).
   */
  lemma RemoteExactlyWhenMarked(raw: RawPosting)
    requires Complete(raw)
    ensures Normalize(raw).value.mode != "hybrid"
    ensures var area := raw.location.value.area.value;
      && (area.AreaList? ==> (Normalize(raw).value.mode == "remote" <==> "remote" in area.names))
      && (area.AreaText? ==> (Normalize(raw).value.mode == "remote" <==> JsString.Contains(area.text, "remote")))
      && (area.AreaText? && "remote" <= area.text ==> Normalize(raw).value.mode == "remote")
  {
    var area := raw.location.value.area.value;
    if area.AreaText? && "remote" <= area.text {
      assert JsString.OccursAt(area.text, "remote", 0);
    }
  }

  /**
   * `results.map(...)`: one normalised posting per raw posting, in order; a
   * single incomplete posting throws inside the map and fails the request.
   */
  function NormalizeAll(raws: seq<RawPosting>): (ps: Option<seq<Posting>>)
    ensures ps.Some? <==> forall i :: 0 <= i < |raws| ==> Complete(raws[i])
    ensures ps.Some? ==> |ps.value| == |raws|
    ensures ps.Some? ==> forall i :: 0 <= i < |raws| ==> Some(ps.value[i]) == Normalize(raws[i])
  {
    if forall i :: 0 <= i < |raws| ==> Complete(raws[i]) then
      Some(seq(|raws|, i requires 0 <= i < |raws| => Normalize(raws[i]).value))
    else
      None
  }

  /** `query[key] || fallback` on the query string. */
  function QueryOr(query: map<string, string>, key: string, fallback: string): (r: string)
    ensures key in query && query[key] != "" ==> r == query[key]
    ensures key !in query || query[key] == "" ==> r == fallback
  {
    if key in query && query[key] != "" then query[key] else fallback
  }

  /** The search sent to the job source: only `what` and `where` are read, defaulting to 'developer' and 'india'. */
  function SearchTerms(query: map<string, string>): (terms: (string, string))
    ensures terms.0 == QueryOr(query, "what", "developer")
    ensures terms.1 == QueryOr(query, "where", "india")
  {
    (QueryOr(query, "what", "developer"), QueryOr(query, "where", "india"))
  }

  /** No other query key reaches the job source: adding keys other than what and where changes nothing. */
  lemma OnlyWhatAndWhereMatter(query: map<string, string>, extra: map<string, string>)
    requires "what" !in extra && "where" !in extra
    ensures SearchTerms(query + extra) == SearchTerms(query)
  {
  }

  /** The user key of `query.userId`: a missing parameter is the string "undefined" as an object key. */
  function UserKey(query: map<string, string>): (k: string)
    ensures "userId" in query ==> k == query["userId"]
    ensures "userId" !in query ==> k == "undefined"
  {
    if "userId" in query then query["userId"] else "undefined"
  }

  /** What the scorer answers for one posting: a parsed score and explanation, or text that does not parse. */
  datatype ScoreReply = Scored(score: int, explanation: string) | Malformed

  /** `{ score, explanation, ...job }`. */
  datatype ScoredJob = ScoredJob(score: int, explanation: string, posting: Posting)

  /**
   * `Promise.all(jobs.map(job => matchJob(resume, job)))`: every posting is
   * scored; one reply that does not parse rejects the whole batch (None).
   */
  function MatchAll(resume: string, postings: seq<Posting>, scorer: (string, string) -> ScoreReply)
    : (r: Option<seq<ScoredJob>>)
    ensures r.Some? <==> forall i :: 0 <= i < |postings| ==> scorer(resume, postings[i].description).Scored?
    ensures r.Some? ==> |r.value| == |postings|
    ensures r.Some? ==> forall i :: 0 <= i < |postings| ==>
      var reply := scorer(resume, postings[i].description);
      r.value[i] == ScoredJob(reply.score, reply.explanation, postings[i])
  {
    if postings == [] then Some([])
    else
      match scorer(resume, postings[0].description)
      case Malformed => None
      case Scored(score, explanation) =>
        match MatchAll(resume, postings[1..], scorer)
        case None => None
        case Some(rest) => Some([ScoredJob(score, explanation, postings[0])] + rest)
  }

  function ScoreKey(j: ScoredJob): int {
    j.score
  }

  /**
   * `matchedJobs.sort((a, b) => b.score - a.score)`: every scored posting
   * once, by non-increasing score, ties in posting order.
   */
  function Rank(matched: seq<ScoredJob>): (r: seq<ScoredJob>)
    ensures |r| == |matched|
    ensures multiset(r) == multiset(matched)
    ensures Ranking.Descending(r, ScoreKey)
    ensures forall v :: Ranking.Only(r, ScoreKey, v) == Ranking.Only(matched, ScoreKey, v)
  {
    Ranking.SortDesc(matched, ScoreKey)
  }

  /** Any stable descending ordering of the scored postings is the ranking. */
  lemma RankIsTheStableOrder(matched: seq<ScoredJob>, other: seq<ScoredJob>)
    requires Ranking.Descending(other, ScoreKey)
    requires forall v :: Ranking.Only(other, ScoreKey, v) == Ranking.Only(matched, ScoreKey, v)
    ensures other == Rank(matched)
  {
    Ranking.StableSortUnique(other, Rank(matched), ScoreKey);
  }

  /** A stored user: `{ resume?, applications? }`. */
  datatype UserRecord = UserRecord(resume: Option<string>, applications: Option<seq<Application>>)

  type Users = map<string, UserRecord>

  /** `data.users[userId]?.resume || ''`. */
  function ResumeIn(users: Users, userId: string): (r: string)
    ensures userId in users && users[userId].resume.Some? ==> r == users[userId].resume.value
    ensures userId !in users || users[userId].resume.None? ==> r == ""
  {
    if userId in users && users[userId].resume.Some? then users[userId].resume.value else ""
  }

  /** `data.users[userId]?.applications || []`. */
  function ApplicationsIn(users: Users, userId: string): (r: seq<Application>)
    ensures userId !in users || users[userId].applications.None? ==> r == []
    ensures userId in users && users[userId].applications.Some? ==> r == users[userId].applications.value
  {
    if userId in users && users[userId].applications.Some? then users[userId].applications.value else []
  }

  /** The users after `/upload-resume`: the record is created if absent, and only its resume is set. */
  function WithResume(users: Users, userId: string, resume: Option<string>): (r: Users)
    ensures r.Keys == users.Keys + {userId}
    ensures r[userId].resume == resume
    ensures forall u :: u in users && u != userId ==> r[u] == users[u]
    ensures userId in users ==> r[userId].applications == users[userId].applications
    ensures userId !in users ==> r[userId].applications.None?
  {
    var rec := if userId in users then users[userId] else UserRecord(None, None);
    users[userId := rec.(resume := resume)]
  }

  /** The users after a successful `/apply`: the entry is appended to that user's list, created if missing. */
  function WithApplication(users: Users, userId: string, entry: Application): (r: Users)
    requires userId in users
    ensures r.Keys == users.Keys
    ensures r[userId].resume == users[userId].resume
    ensures r[userId].applications == Some(ApplicationsIn(users, userId) + [entry])
    ensures forall u :: u in users && u != userId ==> r[u] == users[u]
  {
    users[userId := users[userId].(applications := Some(ApplicationsIn(users, userId) + [entry]))]
  }

  /** A recorded application is listed last, after every earlier entry, and no other user's list changes. */
  lemma ApplyAppends(users: Users, userId: string, entry: Application, other: string)
    requires userId in users
    ensures ApplicationsIn(WithApplication(users, userId, entry), userId) == ApplicationsIn(users, userId) + [entry]
    ensures other != userId ==> ApplicationsIn(WithApplication(users, userId, entry), other) == ApplicationsIn(users, other)
  {
  }

  /** Uploading a resume keeps the application history, and the new resume is the one used for scoring. */
  lemma UploadKeepsHistory(users: Users, userId: string, text: string)
    ensures ApplicationsIn(WithResume(users, userId, Some(text)), userId) == ApplicationsIn(users, userId)
    ensures ResumeIn(WithResume(users, userId, Some(text)), userId) == text
  {
  }

  /** Two status updates for one job leave two entries, the later one last: nothing is merged. */
  lemma StatusHistoryKeepsBoth(users: Users, userId: string, first: Application, second: Application)
    requires userId in users
    ensures var after := WithApplication(WithApplication(users, userId, first), userId, second);
      ApplicationsIn(after, userId) == ApplicationsIn(users, userId) + [first, second]
  {
    var mid := WithApplication(users, userId, first);
    assert ApplicationsIn(mid, userId) == ApplicationsIn(users, userId) + [first];
  }

  /**
   * The stored data of the server: a map from user id to record. Each
   * request loads it, changes it in place and saves it; a load that fails
   * yields no users.
   */
  class UserStore {
    var users: Users

    constructor Empty()
      ensures users == map[]
    {
      users := map[];
    }

    /**
     * `GET /jobs`: normalise the job source's answer (None when that request
     * failed), score every posting against the requesting user's resume ('' when
     * there is none), and rank. One incomplete posting or one malformed score
     * fails the whole request.
     */
    function Jobs(query: map<string, string>, upstream: Option<seq<RawPosting>>, scorer: (string, string) -> ScoreReply)
      : (r: Option<seq<ScoredJob>>)
      reads this
      ensures upstream.None? ==> r.None?
      ensures upstream.Some? && NormalizeAll(upstream.value).None? ==> r.None?
      ensures upstream.Some? && NormalizeAll(upstream.value).Some? ==>
        var m := MatchAll(ResumeIn(users, UserKey(query)), NormalizeAll(upstream.value).value, scorer);
        && (r.Some? <==> m.Some?)
        && (r.Some? ==> |r.value| == |upstream.value| && multiset(r.value) == multiset(m.value))
      ensures r.Some? ==> Ranking.Descending(r.value, ScoreKey)
    {
      match upstream
      case None => None
      case Some(raws) =>
        match NormalizeAll(raws)
        case None => None
        case Some(postings) =>
          match MatchAll(ResumeIn(users, UserKey(query)), postings, scorer)
          case None => None
          case Some(matched) => Some(Rank(matched))
    }

    /** `GET /applications/:userId`: the list, or [] for an unknown user or one without a list. */
    function Applications(userId: string): (r: seq<Application>)
      reads this
      ensures userId !in users ==> r == []
      ensures r == ApplicationsIn(users, userId)
    {
      ApplicationsIn(users, userId)
    }

    /** `POST /upload-resume`: creates the user record if absent and sets its resume. */
    method UploadResume(userId: string, resumeText: Option<string>)
      modifies this
      ensures users == WithResume(old(users), userId, resumeText)
    {
      var rec := if userId in users then users[userId] else UserRecord(None, None);
      users := users[userId := rec.(resume := resumeText)];
    }

    /**
     * `POST /apply`: for an existing user, appends `{ jobId, status, timestamp }`
     * and returns it; for an unknown user the handler throws before saving
     * (None) and nothing changes.
     */
    method Apply(userId: string, jobId: string, status: string, now: int) returns (entry: Option<Application>)
      modifies this
      ensures userId !in old(users) ==> entry.None? && users == old(users)
      ensures userId in old(users) ==> entry == Some(Application(jobId, status, now))
      ensures userId in old(users) ==> users == WithApplication(old(users), userId, entry.value)
    {
      if userId !in users {
        entry := None;
        return;
      }
      var rec := users[userId];
      var list := if rec.applications.Some? then rec.applications.value else [];
      var e := Application(jobId, status, now);
      users := users[userId := rec.(applications := Some(list + [e]))];
      entry := Some(e);
    }
  }
}
