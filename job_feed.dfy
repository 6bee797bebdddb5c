/**
 * The job feed of frontend/src/components/JobFeed.jsx: the "best matches"
 * derivation, the multi-select toggle for array filters, the filter payloads
 * its inputs dispatch, and the resume gate in front of it.
 */
module JobFeed {
  import opened Common
  import opened AppState
  import JsString
  import Ranking

  /** `job.score ?? 0`. */
  function ScoreOf(j: Job): int {
    j.score.GetOr(0)
  }

  /** `.filter(job => (job.score ?? 0) > 0)`. */
  function Positive(s: seq<Job>): (r: seq<Job>)
    ensures forall i :: 0 <= i < |r| ==> ScoreOf(r[i]) > 0
  {
    if s == [] then []
    else (if ScoreOf(s[0]) > 0 then [s[0]] else []) + Positive(s[1..])
  }

  /** Positive keeps every copy of a job with a positive score and no other job. */
  lemma {:induction false} PositiveCount(s: seq<Job>, j: Job)
    ensures multiset(Positive(s))[j] == if ScoreOf(j) > 0 then multiset(s)[j] else 0
  {
    if s != [] {
      PositiveCount(s[1..], j);
      assert s == [s[0]] + s[1..];
    }
  }

  /** For a positive score, the jobs with that score are the same, in the same order, after Positive. */
  lemma {:induction false} PositiveOnly(s: seq<Job>, v: int)
    requires v > 0
    ensures Ranking.Only(Positive(s), ScoreOf, v) == Ranking.Only(s, ScoreOf, v)
  {
    if s != [] {
      PositiveOnly(s[1..], v);
      var head := if ScoreOf(s[0]) > 0 then [s[0]] else [];
      Ranking.OnlyAppend(head, Positive(s[1..]), ScoreOf, v);
    }
  }

  /** Only for a non-positive score finds nothing in a list of positive-score jobs. */
  lemma {:induction false} OnlyNonPositiveEmpty(s: seq<Job>, v: int)
    requires v <= 0
    requires forall i :: 0 <= i < |s| ==> ScoreOf(s[i]) > 0
    ensures Ranking.Only(s, ScoreOf, v) == []
  {
    if s != [] {
      OnlyNonPositiveEmpty(s[1..], v);
    }
  }

  const BestMatchLimit := 8

  /** `[...filteredJobs].filter(...).sort(...)`: the positive-score jobs, best first, on a copy. */
  function RankedPositive(filteredJobs: seq<Job>): seq<Job> {
    Ranking.SortDesc(Positive(filteredJobs), ScoreOf)
  }

  /**
   * `bestMatches`: the jobs with a positive score, best first, at most eight.
   */
  function BestMatches(filteredJobs: seq<Job>): (r: seq<Job>)
    ensures |r| <= BestMatchLimit
    ensures |r| == Min(BestMatchLimit, |Positive(filteredJobs)|)
    ensures forall i :: 0 <= i < |r| ==> ScoreOf(r[i]) > 0
    ensures Ranking.Descending(r, ScoreOf)
  {
    var sorted := RankedPositive(filteredJobs);
    RankedPositiveIsPositive(filteredJobs);
    sorted[..Min(BestMatchLimit, |sorted|)]
  }

  /** Sorting keeps the jobs, so every ranked job still has a positive score. */
  lemma RankedPositiveIsPositive(filteredJobs: seq<Job>)
    ensures forall i :: 0 <= i < |RankedPositive(filteredJobs)| ==> ScoreOf(RankedPositive(filteredJobs)[i]) > 0
  {
    var sorted := RankedPositive(filteredJobs);
    forall i | 0 <= i < |sorted| ensures ScoreOf(sorted[i]) > 0 {
      assert sorted[i] in multiset(Positive(filteredJobs));
    }
  }

  /** Positive keeps no job more often than the input has it. */
  lemma PositiveSubmultiset(s: seq<Job>)
    ensures multiset(Positive(s)) <= multiset(s)
  {
    forall j ensures multiset(Positive(s))[j] <= multiset(s)[j] {
      PositiveCount(s, j);
    }
  }

  /** Every best match is a job of `filteredJobs`, and no job appears more often than there. */
  lemma BestMatchesFromFeed(filteredJobs: seq<Job>)
    ensures multiset(BestMatches(filteredJobs)) <= multiset(filteredJobs)
  {
    var sorted := RankedPositive(filteredJobs);
    var k := Min(BestMatchLimit, |sorted|);
    var r := BestMatches(filteredJobs);
    assert sorted == r + sorted[k..];
    assert multiset(sorted) == multiset(r) + multiset(sorted[k..]);
    PositiveSubmultiset(filteredJobs);
  }

  /** Best matches with equal scores appear in their `filteredJobs` order (the sort is stable). */
  lemma BestMatchesKeepTieOrder(filteredJobs: seq<Job>, v: int)
    ensures Ranking.Only(BestMatches(filteredJobs), ScoreOf, v) <= Ranking.Only(filteredJobs, ScoreOf, v)
  {
    var sorted := RankedPositive(filteredJobs);
    var k := Min(BestMatchLimit, |sorted|);
    if v > 0 {
      Ranking.OnlyPrefix(sorted, k, ScoreOf, v);
      PositiveOnly(filteredJobs, v);
    } else {
      OnlyNonPositiveEmpty(BestMatches(filteredJobs), v);
    }
  }

  /**
   * A top-k selection: a positive-score job that was left out (some copy of
   * it in `filteredJobs` is missing from the best matches) scores no more
   * than any best match.
   */
  lemma BestMatchesTopK(filteredJobs: seq<Job>, j: Job, i: nat)
    requires j in filteredJobs && ScoreOf(j) > 0
    requires multiset(BestMatches(filteredJobs))[j] < multiset(filteredJobs)[j]
    requires i < |BestMatches(filteredJobs)|
    ensures ScoreOf(j) <= ScoreOf(BestMatches(filteredJobs)[i])
  {
    var sorted := RankedPositive(filteredJobs);
    var k := Min(BestMatchLimit, |sorted|);
    PositiveCount(filteredJobs, j);
    var m := LeftOutIndex(sorted, k, j);
    assert BestMatches(filteredJobs)[i] == sorted[i];
  }

  /** A copy of `j` missing from the prefix `s[..k]` sits at or after position k. */
  lemma LeftOutIndex(s: seq<Job>, k: nat, j: Job) returns (m: nat)
    requires k <= |s|
    requires multiset(s[..k])[j] < multiset(s)[j]
    ensures k <= m < |s| && s[m] == j
  {
    assert s == s[..k] + s[k..];
    assert multiset(s) == multiset(s[..k]) + multiset(s[k..]);
    assert j in multiset(s[k..]);
    var n :| 0 <= n < |s[k..]| && s[k..][n] == j;
    m := k + n;
  }

  /** `current.filter(v => v !== value)`: every occurrence of `value` removed, the rest kept in order. */
  function Without(xs: seq<string>, value: string): (r: seq<string>)
    ensures value !in r
    ensures forall x :: x != value ==> multiset(r)[x] == multiset(xs)[x]
  {
    if xs == [] then []
    else
      assert xs == [xs[0]] + xs[1..];
      (if xs[0] == value then [] else [xs[0]]) + Without(xs[1..], value)
  }

  lemma {:induction false} WithoutAppend(a: seq<string>, b: seq<string>, value: string)
    ensures Without(a + b, value) == Without(a, value) + Without(b, value)
  {
    if a == [] {
      assert a + b == b;
    } else {
      var head := if a[0] == value then [] else [a[0]];
      assert (a + b)[0] == a[0] && (a + b)[1..] == a[1..] + b;
      WithoutAppend(a[1..], b, value);
      calc {
        Without(a + b, value);
        head + Without(a[1..] + b, value);
        head + (Without(a[1..], value) + Without(b, value));
        (head + Without(a[1..], value)) + Without(b, value);
      }
    }
  }

  lemma {:induction false} WithoutAbsent(xs: seq<string>, value: string)
    requires value !in xs
    ensures Without(xs, value) == xs
  {
    if xs != [] {
      WithoutAbsent(xs[1..], value);
    }
  }

  /** The multi-select toggle: remove every occurrence of a present value, append an absent one. */
  function Toggled(current: seq<string>, value: string): (r: seq<string>)
    ensures value in current ==> value !in r
    ensures value !in current ==> r == current + [value]
    ensures forall x :: x != value ==> multiset(r)[x] == multiset(current)[x]
  {
    if value in current then Without(current, value) else current + [value]
  }

  /**
   * Toggling a value twice from a list without it restores the list; from a
   * list with it, the value ends up once, at the end.
   */
  lemma ToggleTwice(current: seq<string>, value: string)
    ensures value !in current ==> Toggled(Toggled(current, value), value) == current
    ensures value in current ==> Toggled(Toggled(current, value), value) == Without(current, value) + [value]
  {
    if value !in current {
      WithoutAppend(current, [value], value);
      WithoutAbsent(current, value);
    }
  }

  /**
   * `state.filters[key] || []` when it yields a list: the key is absent, its
   * value is falsy, or its value is a list. Otherwise (a non-empty string, or
   * `true`) None.
   */
  function CurrentList(filters: Filters, key: string): (r: Option<seq<string>>)
    ensures key !in filters ==> r == Some([])
    ensures key in filters && !Truthy(filters[key]) ==> r == Some([])
    ensures key in filters && filters[key].Items? ==> r == Some(filters[key].items)
    ensures r.None? <==> key in filters && !filters[key].Items? && Truthy(filters[key])
  {
    if key !in filters || !Truthy(filters[key]) then Some([])
    else if filters[key].Items? then Some(filters[key].items)
    else None
  }

  /** `[...text]`: a string spread into an array holds one string per character. */
  function Spread(text: string): (r: seq<string>)
    ensures |r| == |text|
    ensures forall i :: 0 <= i < |text| ==> r[i] == [text[i]]
  {
    seq(|text|, i requires 0 <= i < |text| => [text[i]])
  }

  /**
   * `toggleFilterArray(key, value)`: the UPDATE_FILTERS action it dispatches,
   * whose payload holds the toggled key alone. A string under the key is
   * searched with `String.prototype.includes`: when it holds `value`, the
   * following `.filter` throws, and otherwise the string is spread into its
   * characters before `value` is appended. `true` has no `includes` and
   * throws. A throw dispatches nothing (None).
   */
  function ToggleFilterArray(filters: Filters, key: string, value: string): (r: Option<Action>)
    ensures CurrentList(filters, key).Some? ==>
      r == Some(UpdateFilters(map[key := Items(Toggled(CurrentList(filters, key).value, value))]))
    ensures key in filters && filters[key].Text? && filters[key].text != "" ==>
      var t := filters[key].text;
      && (r.None? <==> JsString.Contains(t, value))
      && (r.Some? ==> r.value == UpdateFilters(map[key := Items(Spread(t) + [value])]))
    ensures key in filters && filters[key] == Flag(true) ==> r.None?
  {
    match CurrentList(filters, key)
    case Some(current) => Some(UpdateFilters(map[key := Items(Toggled(current, value))]))
    case None =>
      match filters[key]
      case Text(t) => if JsString.Contains(t, value) then None else Some(UpdateFilters(map[key := Items(Spread(t) + [value])]))
      case _ => None
  }

  /**
   * Dispatching a toggle changes only the toggled key of the filters, which
   * gains the value when it lacked it and loses every copy when it had it.
   */
  lemma ToggleChangesOnlyKey(s: State, key: string, value: string)
    requires CurrentList(s.filters, key).Some?
    ensures var cur := CurrentList(s.filters, key).value;
      var r := Reduce(s, ToggleFilterArray(s.filters, key, value).value);
      && r.filters.Keys == s.filters.Keys + {key}
      && (forall k :: k in s.filters && k != key ==> r.filters[k] == s.filters[k])
      && r.filters[key].Items?
      && (value in r.filters[key].items <==> value !in cur)
      && Frame(s, r, {FiltersField})
  {
  }

  /**
   * A text input's payload, `{ [key]: input.trim() }`: the debounced title
   * (`key` 'title') and the location (`key` 'location') are both sent trimmed.
   */
  function TrimmedPayload(key: string, input: string): (p: Filters)
    ensures p.Keys == {key} && p[key].Text?
    ensures exists i :: JsString.TrimmedAt(input, p[key].text, i)
    ensures p[key].text == "" <==> JsString.SpaceBetween(input, 0, |input|)
    ensures p[key].text != "" ==> !JsString.IsSpace(p[key].text[0]) && !JsString.IsSpace(p[key].text[|p[key].text| - 1])
  {
    map[key := Text(JsString.Trim(input))]
  }

  /** The skills select dispatches the chosen values, or [] when the selection is cleared (null). */
  function SkillsPayload(selected: Option<seq<string>>): (p: Filters)
    ensures p.Keys == {"skills"} && p["skills"].Items?
    ensures selected.None? ==> p["skills"].items == []
    ensures selected.Some? ==> p["skills"].items == selected.value
  {
    map["skills" := Items(selected.GetOr([]))]
  }

  /** What the feed shows below its filter panel. */
  datatype FeedBody = Spinner | Listing(bestMatches: seq<Job>, allJobs: seq<Job>)

  /** The feed: only an upload prompt without a resume, else the filters and a body. */
  datatype FeedScreen = UploadPrompt | Feed(filters: Filters, body: FeedBody)

  /** `hasResume = !!state.user?.resume`. */
  predicate UserHasResume(s: State) {
    s.user.Some? && HasResume(s.user.value)
  }

  /**
   * The feed's render: without a resume only the upload prompt, with no
   * filters and no job lists; with one, the spinner while loading, else the
   * best matches and every job of `filteredJobs`.
   */
  function FeedView(s: State): (r: FeedScreen)
    ensures r.UploadPrompt? <==> !UserHasResume(s)
    ensures r.Feed? ==> r.filters == s.filters && (r.body.Spinner? <==> s.loading)
    ensures r.Feed? && r.body.Listing? ==>
      r.body.allJobs == s.filteredJobs && r.body.bestMatches == BestMatches(s.filteredJobs)
  {
    if !UserHasResume(s) then UploadPrompt
    else if s.loading then Feed(s.filters, Spinner)
    else Feed(s.filters, Listing(BestMatches(s.filteredJobs), s.filteredJobs))
  }
}
