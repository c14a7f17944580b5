/**
 The Actions reconciler: it fetches the recent workflow runs, finds the newest run of every
 workflow and branch, and plans which waiting runs to cancel and which failed runs to retry.
 */
module Reconciler {
  import opened Basics

  datatype Run = Run(
    id: int, workflow: int, branch: Option<string>, path: string, name: Option<string>,
    status: string, conclusion: Option<string>, attempt: int, created: int, sha: string)

  type Key = (int, Option<string>)

  function KeyOf(run: Run): Key { (run.workflow, run.branch) }

  /** A fetched list may show a run twice, when the pages shift; it must then show it the same way. */
  predicate Consistent(runs: seq<Run>) {
    forall i, j | 0 <= i < |runs| && 0 <= j < |runs| && runs[i].id == runs[j].id :: runs[i] == runs[j]
  }

  predicate Distinct(runs: seq<Run>) {
    forall i, j | 0 <= i < j < |runs| :: runs[i].id != runs[j].id
  }

  // ---------------------------------------------------------------------------------------------
  // Fetching
  // ---------------------------------------------------------------------------------------------

  const MAX_PAGES := 3
  const PER_PAGE := 100

  function Since(runs: seq<Run>, cutoff: int): (kept: seq<Run>)
    ensures forall r | r in kept :: r in runs && r.created >= cutoff
  {
    if runs == [] then []
    else (if runs[0].created >= cutoff then [runs[0]] else []) + Since(runs[1..], cutoff)
  }

  /** The page that the server answers with; the last one may be short, and later ones are empty. */
  function Page(all: seq<Run>, page: nat): seq<Run>
    requires page >= 1
  {
    var from := Min(|all|, (page - 1) * PER_PAGE);
    all[from..Min(|all|, from + PER_PAGE)]
  }

  predicate NewestFirst(all: seq<Run>) {
    forall i, j | 0 <= i < j < |all| :: all[i].created >= all[j].created
  }

  lemma {:induction false} SinceConcat(a: seq<Run>, b: seq<Run>, cutoff: int)
    ensures Since(a + b, cutoff) == Since(a, cutoff) + Since(b, cutoff)
  {
    if a == [] {
      assert a + b == b;
    } else {
      assert (a + b)[1..] == a[1..] + b;
      SinceConcat(a[1..], b, cutoff);
    }
  }

  /** Every run is kept or dropped by its own creation time, and those kept stay in their order. */
  lemma SinceKeepsInOrder(runs: seq<Run>, run: Run, cutoff: int)
    ensures Since([], cutoff) == []
    ensures Since(runs + [run], cutoff) == if run.created < cutoff then Since(runs, cutoff) else Since(runs, cutoff) + [run]
  {
    SinceConcat(runs, [run], cutoff);
    assert Since([run], cutoff) == if run.created < cutoff then [] else [run];
  }

  lemma {:induction false} NothingSince(runs: seq<Run>, cutoff: int)
    requires forall r | r in runs :: r.created < cutoff
    ensures Since(runs, cutoff) == []
  {
    if runs != [] {
      NothingSince(runs[1..], cutoff);
    }
  }

  lemma {:induction false} RecentIsSince(runs: seq<Run>, cutoff: int, k: nat)
    requires k < |runs| && runs[k].created >= cutoff
    ensures Since(runs, cutoff) != []
  {
    if k > 0 {
      RecentIsSince(runs[1..], cutoff, k - 1);
    }
  }

  lemma {:induction false} SinceIsRecent(runs: seq<Run>, cutoff: int) returns (k: nat)
    requires Since(runs, cutoff) != []
    ensures k < |runs| && runs[k].created >= cutoff
  {
    k := 0;
    if runs[0].created < cutoff {
      k := SinceIsRecent(runs[1..], cutoff);
      k := k + 1;
    }
  }

  method Oldest(runs: seq<Run>) returns (oldest: int)
    requires runs != []
    ensures exists i :: 0 <= i < |runs| && runs[i].created == oldest
    ensures forall i | 0 <= i < |runs| :: oldest <= runs[i].created
  {
    oldest := runs[0].created;
    for i := 1 to |runs|
      invariant exists j :: 0 <= j < |runs| && runs[j].created == oldest
      invariant forall j | 0 <= j < i :: oldest <= runs[j].created
    {
      if runs[i].created < oldest {
        oldest := runs[i].created;
      }
    }
  }

  predicate ReachesBack(runs: seq<Run>, cutoff: int) {
    exists i :: 0 <= i < |runs| && runs[i].created < cutoff
  }

  function Cap(all: seq<Run>): nat {
    Min(|all|, MAX_PAGES * PER_PAGE)
  }

  /** How many runs are fetched in all, when this is the next page to fetch. */
  function Fetched(all: seq<Run>, cutoff: int, page: nat): (n: nat)
    requires 1 <= page <= MAX_PAGES + 1
    ensures Min(|all|, (page - 1) * PER_PAGE) <= n <= Cap(all)
    decreases MAX_PAGES + 1 - page
  {
    if page > MAX_PAGES || Page(all, page) == [] then Min(|all|, (page - 1) * PER_PAGE)
    else if ReachesBack(Page(all, page), cutoff) then Min(|all|, page * PER_PAGE)
    else Fetched(all, cutoff, page + 1)
  }

  /** The number of the page on which the run at this place is fetched. */
  function PageOf(i: nat): (page: nat)
    ensures page >= 1 && (page - 1) * PER_PAGE <= i < page * PER_PAGE
  {
    i / PER_PAGE + 1
  }

  /** The fetch ends early only behind a run from before the cutoff, on its last page. */
  lemma {:induction false} FetchEndsBehindAnOldRun(all: seq<Run>, cutoff: int, page: nat) returns (i: nat)
    requires 1 <= page <= MAX_PAGES + 1 && Fetched(all, cutoff, page) < Cap(all)
    ensures i < Fetched(all, cutoff, page) == PageOf(i) * PER_PAGE && all[i].created < cutoff
    decreases MAX_PAGES + 1 - page
  {
    if ReachesBack(Page(all, page), cutoff) {
      var k :| 0 <= k < |Page(all, page)| && Page(all, page)[k].created < cutoff;
      i := (page - 1) * PER_PAGE + k;
      assert PageOf(i) == page;
    } else {
      i := FetchEndsBehindAnOldRun(all, cutoff, page + 1);
    }
  }

  /** The fetch goes no further than the page of a run from before the cutoff. */
  lemma {:induction false} FetchStopsAtAnOldRun(all: seq<Run>, cutoff: int, page: nat, i: nat)
    requires 1 <= page <= MAX_PAGES && (page - 1) * PER_PAGE <= i < Cap(all) && all[i].created < cutoff
    ensures Fetched(all, cutoff, page) <= PageOf(i) * PER_PAGE
    decreases MAX_PAGES + 1 - page
  {
    var from := (page - 1) * PER_PAGE;
    if i < from + PER_PAGE {
      assert Page(all, page)[i - from] == all[i];
    } else if !ReachesBack(Page(all, page), cutoff) {
      FetchStopsAtAnOldRun(all, cutoff, page + 1, i);
    }
  }

  /** An old run stands on an earlier page than a recent one, among the first 300. */
  predicate IsOutOfOrder(all: seq<Run>, cutoff: int, i: nat, j: nat) {
    i < j < Cap(all) && PageOf(i) < PageOf(j) && all[i].created < cutoff <= all[j].created
  }

  /** The recent runs that are not fetched, though they stand among the first 300. */
  function Lost(all: seq<Run>, cutoff: int): seq<Run> {
    Since(all[Fetched(all, cutoff, 1)..Cap(all)], cutoff)
  }

  lemma LostIsOutOfOrder(all: seq<Run>, cutoff: int) returns (i: nat, j: nat)
    requires Lost(all, cutoff) != []
    ensures IsOutOfOrder(all, cutoff, i, j)
  {
    var n := Fetched(all, cutoff, 1);
    var k := SinceIsRecent(all[n..Cap(all)], cutoff);
    i := FetchEndsBehindAnOldRun(all, cutoff, 1);
    j := n + k;
  }

  lemma OutOfOrderIsLost(all: seq<Run>, cutoff: int, i: nat, j: nat)
    requires IsOutOfOrder(all, cutoff, i, j)
    ensures Lost(all, cutoff) != []
  {
    var n := Fetched(all, cutoff, 1);
    FetchStopsAtAnOldRun(all, cutoff, 1, i);
    assert all[n..Cap(all)][j - n] == all[j];
    RecentIsSince(all[n..Cap(all)], cutoff, j - n);
  }

  lemma UnfetchedIsTheRest(all: seq<Run>, cutoff: int)
    ensures Since(all[..Cap(all)], cutoff) == Since(all[..Fetched(all, cutoff, 1)], cutoff) + Lost(all, cutoff)
  {
    var n, cap := Fetched(all, cutoff, 1), Cap(all);
    assert all[..cap] == all[..n] + all[n..cap];
    SinceConcat(all[..n], all[n..cap], cutoff);
  }

  predicate LosesNothing(all: seq<Run>, cutoff: int) {
    Since(all[..Fetched(all, cutoff, 1)], cutoff) == Since(all[..Cap(all)], cutoff)
  }

  /** The early stop loses a run exactly if an old run stands on an earlier page than a recent one. */
  lemma EarlyStopLosesExactly(all: seq<Run>, cutoff: int)
    ensures LosesNothing(all, cutoff) <==> forall i: nat, j: nat :: !IsOutOfOrder(all, cutoff, i, j)
  {
    UnfetchedIsTheRest(all, cutoff);
    if Lost(all, cutoff) != [] {
      var i, j := LostIsOutOfOrder(all, cutoff);
    }
    forall i: nat, j: nat | IsOutOfOrder(all, cutoff, i, j) ensures Lost(all, cutoff) != [] {
      OutOfOrderIsLost(all, cutoff, i, j);
    }
  }

  /** So it loses nothing of a list that is sorted newest first. */
  lemma NewestFirstLosesNothing(all: seq<Run>, cutoff: int)
    requires NewestFirst(all)
    ensures LosesNothing(all, cutoff)
  {
    EarlyStopLosesExactly(all, cutoff);
  }

  /** The runs of the first so many pages. */
  function FirstPages(all: seq<Run>, pages: nat): seq<Run> {
    all[..Min(|all|, pages * PER_PAGE)]
  }

  lemma PageExtends(all: seq<Run>, page: nat)
    requires page >= 1
    ensures FirstPages(all, page - 1) + Page(all, page) == FirstPages(all, page)
  {
  }

  /** The runs that are fetched in all, when this is the next page. */
  function FetchedFrom(all: seq<Run>, cutoff: int, page: nat): seq<Run>
    requires 1 <= page <= MAX_PAGES + 1
  {
    all[..Fetched(all, cutoff, page)]
  }

  lemma FetchedNext(all: seq<Run>, cutoff: int, page: nat)
    requires 1 <= page <= MAX_PAGES
    ensures FetchedFrom(all, cutoff, page) ==
            if Page(all, page) == [] then FirstPages(all, page - 1)
            else if ReachesBack(Page(all, page), cutoff) then FirstPages(all, page)
            else FetchedFrom(all, cutoff, page + 1)
  {
  }

  lemma AllFetched(all: seq<Run>, cutoff: int)
    ensures FetchedFrom(all, cutoff, MAX_PAGES + 1) == FirstPages(all, MAX_PAGES)
  {
  }

  /** Fetches page after page, and stops early after a page that reaches back before the cutoff. */
  method FetchRuns(all: seq<Run>, cutoff: int) returns (runs: seq<Run>)
    ensures runs == FetchedFrom(all, cutoff, 1)
  {
    runs := [];
    var page := 1;
    while page <= MAX_PAGES
      invariant 1 <= page <= MAX_PAGES + 1
      invariant runs == FirstPages(all, page - 1)
      invariant FetchedFrom(all, cutoff, 1) == FetchedFrom(all, cutoff, page)
    {
      FetchedNext(all, cutoff, page);
      var found := Page(all, page);
      if found == [] {
        return;
      }
      runs := runs + found;
      PageExtends(all, page);
      var oldest := Oldest(found);
      if oldest < cutoff {
        return;
      }
      page := page + 1;
    }
    AllFetched(all, cutoff);
  }

  /** The recent runs among those fetched; from a list sorted newest first, all recent ones of the first 300. */
  method RecentRuns(all: seq<Run>, cutoff: int) returns (recent: seq<Run>)
    ensures recent == Since(all[..Fetched(all, cutoff, 1)], cutoff)
    ensures NewestFirst(all) ==> recent == Since(if |all| <= 300 then all else all[..300], cutoff)
  {
    var runs := FetchRuns(all, cutoff);
    recent := Since(runs, cutoff);
    if NewestFirst(all) {
      assert all[..Cap(all)] == if |all| <= 300 then all else all[..300];
      NewestFirstLosesNothing(all, cutoff);
    }
  }

  // ---------------------------------------------------------------------------------------------
  // The newest run of every key
  // ---------------------------------------------------------------------------------------------

  /** The first run with the latest creation time among those with the key. */
  function Newest(runs: seq<Run>, key: Key): Option<Run> {
    if runs == [] then None
    else
      var later := Newest(runs[1..], key);
      if KeyOf(runs[0]) != key || (later.Some? && later.value.created > runs[0].created) then later else Some(runs[0])
  }

  lemma {:induction false} NewestIsTheNewest(runs: seq<Run>, key: Key)
    ensures Newest(runs, key).None? <==> forall r | r in runs :: KeyOf(r) != key
    ensures Newest(runs, key).Some? ==>
              var n := Newest(runs, key).value;
              n in runs && KeyOf(n) == key && forall r | r in runs && KeyOf(r) == key :: r.created <= n.created
  {
    if runs != [] {
      NewestIsTheNewest(runs[1..], key);
      assert runs == [runs[0]] + runs[1..];
    }
  }

  /** Sorting by creation time, latest first, with equal times in their old order. */
  function Insert(run: Run, sorted: seq<Run>): seq<Run> {
    if sorted == [] || sorted[0].created <= run.created then [run] + sorted
    else [sorted[0]] + Insert(run, sorted[1..])
  }

  function LatestFirst(runs: seq<Run>): seq<Run> {
    if runs == [] then [] else Insert(runs[0], LatestFirst(runs[1..]))
  }

  function FirstWithKey(runs: seq<Run>, key: Key): Option<Run> {
    if runs == [] then None else if KeyOf(runs[0]) == key then Some(runs[0]) else FirstWithKey(runs[1..], key)
  }

  predicate Descending(runs: seq<Run>) {
    |runs| < 2 || (runs[0].created >= runs[1].created && Descending(runs[1..]))
  }

  lemma {:induction false} InsertKeepsOrder(run: Run, sorted: seq<Run>)
    requires Descending(sorted)
    ensures Descending(Insert(run, sorted))
    ensures Insert(run, sorted)[0] == run || (sorted != [] && Insert(run, sorted)[0] == sorted[0])
  {
    if sorted == [] || sorted[0].created <= run.created {
      assert ([run] + sorted)[1..] == sorted;
    } else {
      InsertKeepsOrder(run, sorted[1..]);
      assert Insert(run, sorted)[1..] == Insert(run, sorted[1..]);
    }
  }

  lemma {:induction false} InsertAddsOne(run: Run, sorted: seq<Run>)
    ensures multiset(Insert(run, sorted)) == multiset{run} + multiset(sorted)
  {
    if !(sorted == [] || sorted[0].created <= run.created) {
      InsertAddsOne(run, sorted[1..]);
      assert sorted == [sorted[0]] + sorted[1..];
    }
  }

  lemma {:induction false} FirstWithKeyIsEarlier(sorted: seq<Run>, key: Key)
    requires Descending(sorted)
    ensures FirstWithKey(sorted, key).Some? ==> sorted != [] && FirstWithKey(sorted, key).value.created <= sorted[0].created
  {
    if sorted != [] && KeyOf(sorted[0]) != key {
      FirstWithKeyIsEarlier(sorted[1..], key);
    }
  }

  lemma {:induction false} FirstAfterInsert(run: Run, sorted: seq<Run>, key: Key)
    requires Descending(sorted)
    ensures FirstWithKey(Insert(run, sorted), key) ==
            var first := FirstWithKey(sorted, key);
            if KeyOf(run) != key || (first.Some? && first.value.created > run.created) then first else Some(run)
  {
    FirstWithKeyIsEarlier(sorted, key);
    if sorted == [] || sorted[0].created <= run.created {
      assert ([run] + sorted)[1..] == sorted;
    } else {
      FirstAfterInsert(run, sorted[1..], key);
    }
  }

  lemma {:induction false} SortedFirstIsNewest(runs: seq<Run>, key: Key)
    ensures Descending(LatestFirst(runs)) && multiset(LatestFirst(runs)) == multiset(runs)
    ensures FirstWithKey(LatestFirst(runs), key) == Newest(runs, key)
  {
    if runs != [] {
      SortedFirstIsNewest(runs[1..], key);
      InsertKeepsOrder(runs[0], LatestFirst(runs[1..]));
      InsertAddsOne(runs[0], LatestFirst(runs[1..]));
      FirstAfterInsert(runs[0], LatestFirst(runs[1..]), key);
      assert runs == [runs[0]] + runs[1..];
    }
  }

  function Lookup(latest: map<Key, Run>, key: Key): Option<Run> {
    if key in latest then Some(latest[key]) else None
  }

  ghost predicate IsNewestMap(latest: map<Key, Run>, runs: seq<Run>) {
    forall key :: Lookup(latest, key) == Newest(runs, key)
  }

  ghost predicate TracksFirst(latest: map<Key, Run>, runs: seq<Run>) {
    forall key :: Lookup(latest, key) == FirstWithKey(runs, key)
  }

  lemma {:induction false} FirstWithKeyAppend(runs: seq<Run>, run: Run, key: Key)
    ensures FirstWithKey(runs + [run], key) ==
            if FirstWithKey(runs, key).Some? then FirstWithKey(runs, key) else FirstWithKey([run], key)
  {
    if runs == [] {
      assert runs + [run] == [run];
    } else {
      assert (runs + [run])[1..] == runs[1..] + [run];
      FirstWithKeyAppend(runs[1..], run, key);
    }
  }

  lemma TracksOneMore(latest: map<Key, Run>, runs: seq<Run>, run: Run)
    requires TracksFirst(latest, runs)
    ensures TracksFirst(if KeyOf(run) in latest then latest else latest[KeyOf(run) := run], runs + [run])
  {
    var next := if KeyOf(run) in latest then latest else latest[KeyOf(run) := run];
    forall key ensures Lookup(next, key) == FirstWithKey(runs + [run], key) {
      FirstWithKeyAppend(runs, run, key);
      assert Lookup(latest, key) == FirstWithKey(runs, key);
    }
  }

  /** Walks through the sorted list and keeps the first run it meets for each key. */
  method LatestRunsByKey(runs: seq<Run>) returns (latest: map<Key, Run>)
    ensures IsNewestMap(latest, runs)
  {
    latest := map[];
    var sorted := LatestFirst(runs);
    for i := 0 to |sorted|
      invariant TracksFirst(latest, sorted[..i])
    {
      assert sorted[..i + 1] == sorted[..i] + [sorted[i]];
      TracksOneMore(latest, sorted[..i], sorted[i]);
      if KeyOf(sorted[i]) !in latest {
        latest := latest[KeyOf(sorted[i]) := sorted[i]];
      }
    }
    assert sorted[..|sorted|] == sorted;
    forall key ensures FirstWithKey(sorted, key) == Newest(runs, key) {
      SortedFirstIsNewest(runs, key);
    }
  }

  // ---------------------------------------------------------------------------------------------
  // The plans
  // ---------------------------------------------------------------------------------------------

  const CANCELABLE := {"queued", "requested", "waiting", "pending"}
  const RETRYABLE := {"failure", "timed_out"}
  const RETRYABLE_PATHS := {".github/workflows/security.yml", ".github/workflows/phase-2-release-candidate-evaluation.yml"}
  const SELF_PATH := ".github/workflows/actions-reconciler.yml"
  const MAX_ATTEMPTS := 2

  datatype Kind = Cancel | Retry

  datatype Action = Action(kind: Kind, id: int, workflow: string, branch: Option<string>, newest: int)

  function Label(run: Run): string {
    if run.name.Some? then run.name.value else run.path
  }

  predicate Own(run: Run, current: int) {
    run.id == current || run.path == SELF_PATH
  }

  /** A run that has not started and that a newer run of the same workflow and branch supersedes. */
  predicate Superseded(run: Run, runs: seq<Run>, current: int) {
    var newest := Newest(runs, KeyOf(run));
    !Own(run, current) && run.status in CANCELABLE && newest.Some? && newest.value.id != run.id
  }

  /** The newest run of its key, failed at its first attempt, of a workflow that may be retried. */
  predicate Retryable(run: Run, runs: seq<Run>, current: int) {
    var newest := Newest(runs, KeyOf(run));
    && !Own(run, current)
    && run.status == "completed"
    && run.conclusion.Some? && run.conclusion.value in RETRYABLE
    && run.path in RETRYABLE_PATHS
    && run.attempt < MAX_ATTEMPTS
    && newest.Some? && newest.value.id == run.id
    && run.branch.Some? && run.branch.value != ""
  }

  function CancelOf(run: Run, runs: seq<Run>): Action
    requires Newest(runs, KeyOf(run)).Some?
  {
    Action(Cancel, run.id, Label(run), run.branch, Newest(runs, KeyOf(run)).value.id)
  }

  function RetryOf(run: Run): Action {
    Action(Retry, run.id, Label(run), run.branch, run.id)
  }

  /** What the plans are, for the runs of `part` seen against all runs. */
  function Cancellations(part: seq<Run>, runs: seq<Run>, current: int): seq<Action> {
    if part == [] then []
    else
      var last := part[|part| - 1];
      Cancellations(part[..|part| - 1], runs, current)
      + (if Superseded(last, runs, current) then [CancelOf(last, runs)] else [])
  }

  function Candidates(part: seq<Run>, runs: seq<Run>, current: int): seq<Run> {
    if part == [] then []
    else
      var last := part[|part| - 1];
      Candidates(part[..|part| - 1], runs, current) + (if Retryable(last, runs, current) then [last] else [])
  }

  method PlanSupersededCancellations(runs: seq<Run>, current: int) returns (actions: seq<Action>)
    ensures actions == Cancellations(runs, runs, current)
  {
    var latest := LatestRunsByKey(runs);
    actions := [];
    for i := 0 to |runs|
      invariant actions == Cancellations(runs[..i], runs, current)
    {
      var run := runs[i];
      assert runs[..i + 1][..i] == runs[..i] && Lookup(latest, KeyOf(run)) == Newest(runs, KeyOf(run));
      if run.id == current || run.path == SELF_PATH {
        continue;
      }
      if run.status !in CANCELABLE {
        continue;
      }
      if KeyOf(run) !in latest || latest[KeyOf(run)].id == run.id {
        continue;
      }
      actions := actions + [Action(Cancel, run.id, Label(run), run.branch, latest[KeyOf(run)].id)];
    }
    assert runs[..|runs|] == runs;
  }

  method PlanRetryCandidates(runs: seq<Run>, current: int) returns (candidates: seq<(Action, Run)>)
    ensures |candidates| == |Candidates(runs, runs, current)|
    ensures forall i | 0 <= i < |candidates| ::
              candidates[i] == (RetryOf(Candidates(runs, runs, current)[i]), Candidates(runs, runs, current)[i])
  {
    var latest := LatestRunsByKey(runs);
    candidates := [];
    for i := 0 to |runs|
      invariant |candidates| == |Candidates(runs[..i], runs, current)|
      invariant forall j | 0 <= j < |candidates| ::
                  candidates[j] == (RetryOf(Candidates(runs[..i], runs, current)[j]), Candidates(runs[..i], runs, current)[j])
    {
      var run := runs[i];
      assert runs[..i + 1][..i] == runs[..i] && Lookup(latest, KeyOf(run)) == Newest(runs, KeyOf(run));
      if run.id == current || run.path == SELF_PATH {
        continue;
      }
      if run.status != "completed" {
        continue;
      }
      if run.conclusion.None? || run.conclusion.value !in RETRYABLE {
        continue;
      }
      if run.path !in RETRYABLE_PATHS {
        continue;
      }
      if run.attempt >= MAX_ATTEMPTS {
        continue;
      }
      if KeyOf(run) !in latest || latest[KeyOf(run)].id != run.id {
        continue;
      }
      if run.branch.None? || run.branch.value == "" {
        continue;
      }
      candidates := candidates + [(Action(Retry, run.id, Label(run), run.branch, run.id), run)];
    }
    assert runs[..|runs|] == runs;
  }

  lemma {:induction false} CancellationsAre(part: seq<Run>, runs: seq<Run>, current: int)
    ensures forall a | a in Cancellations(part, runs, current) ::
              exists r | r in part :: Superseded(r, runs, current) && a == CancelOf(r, runs)
    ensures forall r | r in part && Superseded(r, runs, current) :: CancelOf(r, runs) in Cancellations(part, runs, current)
    decreases |part|
  {
    if part != [] {
      var front, last := part[..|part| - 1], part[|part| - 1];
      assert part == front + [last];
      CancellationsAre(front, runs, current);
      forall a | a in Cancellations(part, runs, current)
        ensures exists r | r in part :: Superseded(r, runs, current) && a == CancelOf(r, runs)
      {
        if a in Cancellations(front, runs, current) {
          var r :| r in front && Superseded(r, runs, current) && a == CancelOf(r, runs);
          assert r in part;
        } else {
          assert last in part;
        }
      }
    }
  }

  lemma {:induction false} CandidatesAre(part: seq<Run>, runs: seq<Run>, current: int)
    ensures forall r :: r in Candidates(part, runs, current) <==> r in part && Retryable(r, runs, current)
    decreases |part|
  {
    if part != [] {
      assert part == part[..|part| - 1] + [part[|part| - 1]];
      CandidatesAre(part[..|part| - 1], runs, current);
    }
  }

  /** A run keeps its workflow and branch, however often the list shows it. */
  predicate KeysAgree(runs: seq<Run>) {
    forall a, b | a in runs && b in runs && a.id == b.id :: KeyOf(a) == KeyOf(b)
  }

  /** No run is both cancelled and retried, and the newest run of a key is never cancelled. */
  lemma PlansAreDisjoint(runs: seq<Run>, current: int)
    requires KeysAgree(runs)
    ensures forall a, r | a in Cancellations(runs, runs, current) && r in Candidates(runs, runs, current) :: a.id != r.id
    ensures forall a, key | a in Cancellations(runs, runs, current) && Newest(runs, key).Some? ::
              a.id != Newest(runs, key).value.id
  {
    CancellationsAre(runs, runs, current);
    CandidatesAre(runs, runs, current);
    forall a, key | a in Cancellations(runs, runs, current) && Newest(runs, key).Some?
      ensures a.id != Newest(runs, key).value.id
    {
      var r :| r in runs && Superseded(r, runs, current) && a == CancelOf(r, runs);
      NewestIsTheNewest(runs, key);
      var n := Newest(runs, key).value;
      assert n.id == r.id ==> KeyOf(n) == KeyOf(r);
    }
    forall a, r | a in Cancellations(runs, runs, current) && r in Candidates(runs, runs, current) ensures a.id != r.id {
      assert Newest(runs, KeyOf(r)).value.id == r.id;
      NewestIsTheNewest(runs, KeyOf(r));
    }
  }

  // ---------------------------------------------------------------------------------------------
  // The plans, on the runs and their texts
  // ---------------------------------------------------------------------------------------------

  /** Run n is the newest of the runs with the workflow and branch of run i: of those created last, the first listed. */
  ghost predicate IsNewestFor(runs: seq<Run>, i: nat, n: nat)
    requires i < |runs|
  {
    && n < |runs| && runs[n].workflow == runs[i].workflow && runs[n].branch == runs[i].branch
    && forall j | 0 <= j < |runs| && runs[j].workflow == runs[i].workflow && runs[j].branch == runs[i].branch ::
         j == n || runs[j].created < runs[n].created || (runs[j].created == runs[n].created && n < j)
  }

  /** The run waits to be started. */
  ghost predicate IsWaiting(run: Run) {
    run.status == "queued" || run.status == "requested" || run.status == "waiting" || run.status == "pending"
  }

  /** The run is the one that reconciles, or another run of the reconciler. */
  ghost predicate IsReconciler(run: Run, current: int) {
    run.id == current || run.path == ".github/workflows/actions-reconciler.yml"
  }

  /** Run i waits, and run n of the same workflow and branch is newer. */
  ghost predicate MayCancel(runs: seq<Run>, current: int, i: nat, n: nat) {
    && i < |runs| && IsWaiting(runs[i]) && !IsReconciler(runs[i], current)
    && IsNewestFor(runs, i, n) && runs[n].id != runs[i].id
  }

  /** Run i failed or timed out at its first attempt, in one of two workflows, and is the newest on its branch. */
  ghost predicate MayRetry(runs: seq<Run>, current: int, i: nat, n: nat) {
    && i < |runs| && runs[i].status == "completed" && !IsReconciler(runs[i], current)
    && (runs[i].conclusion == Some("failure") || runs[i].conclusion == Some("timed_out"))
    && (|| runs[i].path == ".github/workflows/security.yml"
        || runs[i].path == ".github/workflows/phase-2-release-candidate-evaluation.yml")
    && runs[i].attempt < 2 && runs[i].branch.Some? && runs[i].branch != Some("")
    && IsNewestFor(runs, i, n) && runs[n].id == runs[i].id
  }

  ghost function LabelOf(run: Run): string {
    match run.name case Some(name) => name case None => run.path
  }

  /** The action names the run, its workflow and branch, and the newer run. */
  ghost function CancelAt(runs: seq<Run>, i: nat, n: nat): Action
    requires i < |runs| && n < |runs|
  {
    Action(Cancel, runs[i].id, LabelOf(runs[i]), runs[i].branch, runs[n].id)
  }

  lemma {:induction false} NewestAt(runs: seq<Run>, key: Key) returns (n: nat)
    requires Newest(runs, key).Some?
    ensures n < |runs| && runs[n] == Newest(runs, key).value && runs[n].workflow == key.0 && runs[n].branch == key.1
    ensures forall j | 0 <= j < |runs| && runs[j].workflow == key.0 && runs[j].branch == key.1 ::
              j == n || runs[j].created < runs[n].created || (runs[j].created == runs[n].created && n < j)
  {
    var rest := runs[1..];
    if Newest(rest, key).Some? {
      n := NewestAt(rest, key);
      forall j | 1 <= j < |runs| && runs[j].workflow == key.0 && runs[j].branch == key.1
        ensures j == n + 1 || runs[j].created < rest[n].created || (runs[j].created == rest[n].created && n + 1 < j)
      {
        assert runs[j] == rest[j - 1];
      }
      n := if Newest(runs, key).value == rest[n] && !(KeyOf(runs[0]) == key && rest[n].created <= runs[0].created) then n + 1 else 0;
    } else {
      NewestIsTheNewest(rest, key);
      assert forall j | 1 <= j < |runs| :: runs[j] == rest[j - 1] && rest[j - 1] in rest;
      n := 0;
    }
  }

  /** The newest run of a listed run's workflow and branch is the one that its place in the list says. */
  lemma NewestForIs(runs: seq<Run>, i: nat)
    requires i < |runs|
    ensures Newest(runs, KeyOf(runs[i])).Some?
    ensures exists n: nat :: IsNewestFor(runs, i, n)
    ensures forall n: nat | IsNewestFor(runs, i, n) :: Newest(runs, KeyOf(runs[i])) == Some(runs[n])
  {
    NewestIsTheNewest(runs, KeyOf(runs[i]));
    assert runs[i] in runs;
    var m := NewestAt(runs, KeyOf(runs[i]));
    assert IsNewestFor(runs, i, m);
    forall n: nat | IsNewestFor(runs, i, n) ensures n == m {
    }
  }

  lemma TextsAre(run: Run, current: int)
    ensures run.status in CANCELABLE <==> IsWaiting(run)
    ensures Own(run, current) <==> IsReconciler(run, current)
    ensures run.conclusion.Some? && run.conclusion.value in RETRYABLE <==>
            run.conclusion == Some("failure") || run.conclusion == Some("timed_out")
  {
  }

  lemma PathsAre(run: Run)
    ensures run.path in RETRYABLE_PATHS <==>
            || run.path == ".github/workflows/security.yml"
            || run.path == ".github/workflows/phase-2-release-candidate-evaluation.yml"
  {
  }

  lemma WaitingIsNotRunning(run: Run)
    requires IsWaiting(run)
    ensures run.status != "in_progress" && run.status != "completed"
  {
    assert run.status[0] == 'q' || run.status[0] == 'r' || run.status[0] == 'w' || run.status[0] == 'p';
    assert "in_progress"[0] == 'i' && "completed"[0] == 'c';
  }

  lemma SupersededExactly(runs: seq<Run>, current: int, i: nat, n: nat)
    requires i < |runs| && IsNewestFor(runs, i, n)
    ensures Superseded(runs[i], runs, current) <==> MayCancel(runs, current, i, n)
    ensures Retryable(runs[i], runs, current) <==> MayRetry(runs, current, i, n)
    ensures Newest(runs, KeyOf(runs[i])).Some?
    ensures CancelOf(runs[i], runs) == CancelAt(runs, i, n)
    ensures RetryOf(runs[i]) == Action(Retry, runs[i].id, LabelOf(runs[i]), runs[i].branch, runs[i].id)
  {
    NewestForIs(runs, i);
    TextsAre(runs[i], current);
    PathsAre(runs[i]);
  }

  /**
   A cancellation is planned exactly for a run that has not started, is not the reconciler's, and has a
   newer run of its workflow and branch, which it names.
   */
  lemma CancelsExactly(runs: seq<Run>, current: int, a: Action)
    ensures a in Cancellations(runs, runs, current) <==> exists i: nat, n: nat | MayCancel(runs, current, i, n) ::
              a == CancelAt(runs, i, n)
  {
    CancellationsAre(runs, runs, current);
    if a in Cancellations(runs, runs, current) {
      var r :| r in runs && Superseded(r, runs, current) && a == CancelOf(r, runs);
      var i :| 0 <= i < |runs| && runs[i] == r;
      NewestForIs(runs, i);
      var n :| IsNewestFor(runs, i, n);
      SupersededExactly(runs, current, i, n);
      assert MayCancel(runs, current, i, n);
    }
    if i: nat, n: nat :| MayCancel(runs, current, i, n) && a == CancelAt(runs, i, n) {
      SupersededExactly(runs, current, i, n);
      assert runs[i] in runs;
    }
  }

  /** A run is planned for a retry exactly if it failed as stated, and is the newest of its workflow and branch. */
  lemma RetriesExactly(runs: seq<Run>, current: int, r: Run)
    ensures r in Candidates(runs, runs, current) <==> exists i: nat, n: nat :: MayRetry(runs, current, i, n) && runs[i] == r
    ensures RetryOf(r) == Action(Retry, r.id, LabelOf(r), r.branch, r.id)
  {
    CandidatesAre(runs, runs, current);
    if r in Candidates(runs, runs, current) {
      var i :| 0 <= i < |runs| && runs[i] == r;
      NewestForIs(runs, i);
      var n :| IsNewestFor(runs, i, n);
      SupersededExactly(runs, current, i, n);
      assert MayRetry(runs, current, i, n) && runs[i] == r;
    }
    if i: nat, n: nat :| MayRetry(runs, current, i, n) && runs[i] == r {
      SupersededExactly(runs, current, i, n);
      assert runs[i] in runs;
    }
  }

  /** Work in progress and completed work is left alone: every entry of a run that is cancelled says that it waits. */
  lemma OnlyWaitingIsCancelled(runs: seq<Run>, current: int, a: Action, r: Run)
    requires Consistent(runs) && a in Cancellations(runs, runs, current) && r in runs && r.id == a.id
    ensures IsWaiting(r) && r.status != "in_progress" && r.status != "completed" && r.id != current
  {
    CancelsExactly(runs, current, a);
    var i: nat, n: nat :| MayCancel(runs, current, i, n)
                && a == CancelAt(runs, i, n);
    var j :| 0 <= j < |runs| && runs[j] == r;
    WaitingIsNotRunning(runs[i]);
  }

  // ---------------------------------------------------------------------------------------------
  // Planning again after the cancellations
  // ---------------------------------------------------------------------------------------------

  function Cancelled(run: Run): Run {
    run.(status := "completed", conclusion := Some("cancelled"))
  }

  /** The list as it reads once every planned cancellation took effect. */
  function AfterCancellations(part: seq<Run>, runs: seq<Run>, current: int): (after: seq<Run>)
    ensures |after| == |part|
    ensures forall i | 0 <= i < |part| ::
              after[i] == if Superseded(part[i], runs, current) then Cancelled(part[i]) else part[i]
  {
    if part == [] then []
    else
      [if Superseded(part[0], runs, current) then Cancelled(part[0]) else part[0]]
      + AfterCancellations(part[1..], runs, current)
  }

  lemma {:induction false} CancellingKeepsNewest(part: seq<Run>, runs: seq<Run>, current: int, key: Key)
    requires Consistent(runs) && forall r | r in part :: r in runs
    ensures var before, after := Newest(part, key), Newest(AfterCancellations(part, runs, current), key);
            && before.Some? == after.Some?
            && (before.Some? ==>
                  && before.value in part
                  && after.value == if Superseded(before.value, runs, current) then Cancelled(before.value) else before.value)
  {
    if part != [] {
      assert part == [part[0]] + part[1..];
      CancellingKeepsNewest(part[1..], runs, current, key);
    }
  }

  lemma NewestStays(runs: seq<Run>, current: int, key: Key)
    requires Consistent(runs)
    ensures Newest(AfterCancellations(runs, runs, current), key) == Newest(runs, key)
  {
    CancellingKeepsNewest(runs, runs, current, key);
    NewestIsTheNewest(runs, key);
  }

  /** A cancelled run is neither waiting nor failed, and any other run is judged as before. */
  lemma SameJudgement(run: Run, runs: seq<Run>, current: int)
    requires Consistent(runs) && run in runs
    ensures var after := AfterCancellations(runs, runs, current);
            var now := if Superseded(run, runs, current) then Cancelled(run) else run;
            && !Superseded(now, after, current)
            && Retryable(now, after, current) == Retryable(run, runs, current)
            && (Retryable(run, runs, current) ==> now == run)
  {
    NewestStays(runs, current, KeyOf(run));
  }

  lemma {:induction false} SameCandidates(part: seq<Run>, runs: seq<Run>, current: int)
    requires Consistent(runs) && forall r | r in part :: r in runs
    ensures var after := AfterCancellations(runs, runs, current);
            && Candidates(AfterCancellations(part, runs, current), after, current) == Candidates(part, runs, current)
            && Cancellations(AfterCancellations(part, runs, current), after, current) == []
    decreases |part|
  {
    if part != [] {
      var front, last := part[..|part| - 1], part[|part| - 1];
      SameCandidates(front, runs, current);
      var now := AfterCancellations(part, runs, current);
      assert now[..|part| - 1] == AfterCancellations(front, runs, current);
      SameJudgement(last, runs, current);
    }
  }

  /**
   Planning is settled after its cancellations took effect: planning again cancels nothing, finds the
   same newest run of every key, and the same runs to retry.
   */
  lemma ReplanningIsStable(runs: seq<Run>, current: int)
    requires Consistent(runs)
    ensures var after := AfterCancellations(runs, runs, current);
            && Cancellations(after, after, current) == []
            && Candidates(after, after, current) == Candidates(runs, runs, current)
            && forall key :: Newest(after, key) == Newest(runs, key)
  {
    SameCandidates(runs, runs, current);
    forall key ensures Newest(AfterCancellations(runs, runs, current), key) == Newest(runs, key) {
      NewestStays(runs, current, key);
    }
  }

  predicate IsRepeated(part: seq<Run>, runs: seq<Run>, current: int, i: nat, j: nat) {
    i < j < |part| && part[i].id == part[j].id && Retryable(part[i], runs, current) && Retryable(part[j], runs, current)
  }

  ghost predicate RepeatsNone(part: seq<Run>, runs: seq<Run>, current: int) {
    forall i: nat, j: nat :: !IsRepeated(part, runs, current, i, j)
  }

  lemma RepeatsNoneStep(rest: seq<Run>, runs: seq<Run>, current: int, last: Run)
    ensures RepeatsNone(rest + [last], runs, current) <==>
            RepeatsNone(rest, runs, current) && forall i: nat :: !IsRepeated(rest + [last], runs, current, i, |rest|)
  {
    var part := rest + [last];
    forall i: nat, j: nat | j != |rest|
      ensures IsRepeated(part, runs, current, i, j) <==> IsRepeated(rest, runs, current, i, j)
    {
    }
    if !RepeatsNone(rest, runs, current) {
      var i: nat, j: nat :| IsRepeated(rest, runs, current, i, j);
      assert IsRepeated(part, runs, current, i, j);
    }
  }

  /** Each retry is planned once exactly if the list does not show a retryable run twice, as shifting pages can. */
  lemma {:induction false} DistinctCandidatesExactly(part: seq<Run>, runs: seq<Run>, current: int)
    ensures Distinct(Candidates(part, runs, current)) <==> RepeatsNone(part, runs, current)
    decreases |part|
  {
    if part != [] {
      var rest, last := part[..|part| - 1], part[|part| - 1];
      assert part == rest + [last];
      DistinctCandidatesExactly(rest, runs, current);
      RepeatsNoneStep(rest, runs, current, last);
      if Retryable(last, runs, current) {
        OneMoreCandidate(rest, runs, current, last);
      } else {
        assert Candidates(part, runs, current) == Candidates(rest, runs, current);
        assert forall i: nat :: !IsRepeated(rest + [last], runs, current, i, |rest|);
      }
    }
  }

  lemma OneMoreCandidate(rest: seq<Run>, runs: seq<Run>, current: int, last: Run)
    requires Retryable(last, runs, current)
    ensures var front := Candidates(rest, runs, current);
            Distinct(front + [last]) <==> Distinct(front) && forall i: nat ::
              !IsRepeated(rest + [last], runs, current, i, |rest|)
  {
    var front, all := Candidates(rest, runs, current), rest + [last];
    CandidatesAre(rest, runs, current);
    if exists i: nat :: IsRepeated(all, runs, current, i, |rest|) {
      var i: nat :| IsRepeated(all, runs, current, i, |rest|);
      assert all[i] == rest[i] && rest[i] in front;
      var k :| 0 <= k < |front| && front[k] == rest[i];
      assert (front + [last])[k].id == (front + [last])[|front|].id;
      assert !Distinct(front + [last]);
    } else {
      forall k | 0 <= k < |front| ensures front[k].id != last.id {
        assert front[k] in front;
        var i :| 0 <= i < |rest| && rest[i] == front[k];
        assert !IsRepeated(all, runs, current, i, |rest|);
      }
      assert forall k | 0 <= k < |front| :: (front + [last])[k] == front[k];
    }
    if Distinct(front + [last]) {
      assert forall k | 0 <= k < |front| :: (front + [last])[k] == front[k];
    }
  }
}
