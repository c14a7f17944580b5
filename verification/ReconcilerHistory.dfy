/**
 Whole histories of the reconciler: its passes take turns with everything else that happens to the
 workflow runs, between any two requests of a pass.
 */
module ReconcilerHistory {
  import opened Basics
  import opened Reconciler

  /** Where the current pass is: none, collecting pages, or working off its retry candidates. */
  datatype Pass = Idle | Fetching(seen: seq<Run>) | Executing(queue: seq<Run>)

  /** The runs on the server, the runs retried automatically as they were fetched, and the pass. */
  datatype State = State(world: map<int, Run>, retried: seq<Run>, pass: Pass)

  /** What becomes of a candidate: not asked for, asked for, or asked for while the pass breaks off. */
  datatype Fate = Left | Retried | RetriedAndBroken

  datatype Event =
    | NewRun(run: Run)
    | Changed(run: Run)
    | Begin
    | Fetch(page: seq<Run>)
    | Plan(runs: seq<Run>, current: int)
    | Next(fate: Fate)
    | Break

  /**
   Whether the event can happen. A run keeps its identity, and its attempt number never falls; a page
   shows runs as they are; the planned list has no run twice; passes do not overlap.
   */
  predicate Possible(s: State, e: Event) {
    match e {
      case NewRun(run) => run.id !in s.world && run.attempt >= 1
      case Changed(run) => run.id in s.world && run.attempt >= s.world[run.id].attempt
      case Begin => s.pass.Idle?
      case Fetch(page) => s.pass.Fetching? && forall r | r in page :: r.id in s.world && s.world[r.id] == r
      case Plan(runs, current) => s.pass.Fetching? && Distinct(runs) && forall r | r in runs :: r in s.pass.seen
      case Next(fate) => s.pass.Executing? && s.pass.queue != []
      case Break => true
    }
  }

  function Rerun(run: Run): Run {
    run.(attempt := run.attempt + 1, status := "queued", conclusion := None)
  }

  /** The next candidate of the pass. */
  function Serve(s: State, fate: Fate): State
    requires s.pass.Executing? && s.pass.queue != []
  {
    var run := s.pass.queue[0];
    var rest := Executing(s.pass.queue[1..]);
    if fate.Left? || run.id !in s.world then s.(pass := rest)
    else State(s.world[run.id := Rerun(s.world[run.id])], s.retried + [run], if fate.Retried? then rest else Idle)
  }

  function Step(s: State, e: Event): State {
    if !Possible(s, e) then s
    else match e {
      case NewRun(run) => s.(world := s.world[run.id := run])
      case Changed(run) => s.(world := s.world[run.id := run])
      case Begin => s.(pass := Fetching([]))
      case Fetch(page) => s.(pass := Fetching(s.pass.seen + page))
      case Plan(runs, current) => s.(pass := Executing(Candidates(runs, runs, current)))
      case Next(fate) => Serve(s, fate)
      case Break => s.(pass := Idle)
    }
  }

  function After(s: State, events: seq<Event>): State
    decreases |events|
  {
    if events == [] then s else After(Step(s, events[0]), events[1..])
  }

  predicate WasRetried(s: State, id: int) {
    exists r :: r in s.retried && r.id == id
  }

  ghost predicate PassSound(s: State) {
    match s.pass {
      case Idle => true
      case Fetching(seen) =>
        forall r | r in seen :: r.id in s.world && r.attempt >= 1 && (WasRetried(s, r.id) ==> r.attempt >= 2)
      case Executing(queue) =>
        && Distinct(queue)
        && forall r | r in queue :: r.id in s.world && r.attempt == 1 && !WasRetried(s, r.id)
    }
  }

  /** What every history keeps: a run that was retried is at its second attempt or later. */
  ghost predicate Inv(s: State) {
    && (forall id | id in s.world :: s.world[id].id == id && s.world[id].attempt >= 1)
    && Distinct(s.retried)
    && (forall r | r in s.retried :: r.attempt == 1 && r.id in s.world && s.world[r.id].attempt >= 2)
    && PassSound(s)
  }

  lemma RetriedMore(retried: seq<Run>, run: Run)
    requires Distinct(retried) && forall r | r in retried :: r.id != run.id
    ensures Distinct(retried + [run])
  {
  }

  lemma ServeKeepsInv(s: State, fate: Fate)
    requires Inv(s) && s.pass.Executing? && s.pass.queue != []
    ensures Inv(Serve(s, fate))
  {
    var run := s.pass.queue[0];
    assert run in s.pass.queue;
    forall r | r in s.retried ensures r.id != run.id {
      assert !WasRetried(s, run.id);
    }
    RetriedMore(s.retried, run);
    var t := Serve(s, fate);
    forall r | r in s.pass.queue[1..] ensures r.id in t.world && r.attempt == 1 && !WasRetried(t, r.id) {
      assert r in s.pass.queue && !WasRetried(s, r.id);
      var i :| 0 <= i < |s.pass.queue[1..]| && s.pass.queue[1..][i] == r;
      assert r.id != run.id && forall q | q in t.retried :: q in s.retried || q == run;
    }
  }

  lemma PlanKeepsInv(s: State, runs: seq<Run>, current: int)
    requires Inv(s) && Possible(s, Plan(runs, current))
    ensures Inv(Step(s, Plan(runs, current)))
  {
    DistinctCandidatesExactly(runs, runs, current);
    CandidatesAre(runs, runs, current);
  }

  lemma StepKeepsInv(s: State, e: Event)
    requires Inv(s)
    ensures Inv(Step(s, e))
  {
    if Possible(s, e) {
      match e {
        case Plan(runs, current) => PlanKeepsInv(s, runs, current);
        case Next(fate) => ServeKeepsInv(s, fate);
        case NewRun(run) => assert forall id :: WasRetried(Step(s, e), id) == WasRetried(s, id);
        case Changed(run) => assert forall id :: WasRetried(Step(s, e), id) == WasRetried(s, id);
        case Begin =>
        case Fetch(page) =>
          assert forall id :: WasRetried(Step(s, e), id) == WasRetried(s, id);
          assert forall r | r in s.pass.seen + page :: r in s.pass.seen || r in page;
        case Break =>
      }
    }
  }

  lemma {:induction false} HistoryKeepsInv(s: State, events: seq<Event>)
    requires Inv(s)
    ensures Inv(After(s, events))
    decreases |events|
  {
    if events != [] {
      StepKeepsInv(s, events[0]);
      HistoryKeepsInv(Step(s, events[0]), events[1..]);
    }
  }

  /**
   Over every history that starts with first attempts and no pass, whatever else happens to the runs,
   each run is retried automatically at most once, and only one that was fetched at its first attempt.
   */
  lemma {:induction false} EachRunIsRetriedOnce(world: map<int, Run>, events: seq<Event>)
    requires forall id | id in world :: world[id].id == id && world[id].attempt >= 1
    ensures var s := After(State(world, [], Idle), events);
            && (forall i, j | 0 <= i < j < |s.retried| :: s.retried[i].id != s.retried[j].id)
            && forall r | r in s.retried :: r.attempt == 1 && r.id in s.world && s.world[r.id].attempt >= 2
  {
    HistoryKeepsInv(State(world, [], Idle), events);
  }

  lemma PassPlansOne(run: Run)
    requires run.attempt == 1 && Retryable(run, [run], 0)
    ensures var start := State(map[run.id := run], [], Idle);
            Step(Step(Step(start, Begin), Fetch([run])), Plan([run], 0)) == start.(pass := Executing([run]))
  {
    assert [] + [run] == [run];
    assert [run][..0] == [] && Candidates([run], [run], 0) == Candidates([], [run], 0) + [run];
  }

  /**
   The bound on attempts is weaker than it looks: the plan reads the attempt number when it fetches,
   so a manual rerun before the request is sent makes the automatic one a third attempt.
   */
  lemma RetryCanBeTheThirdAttempt(run: Run)
    requires run.attempt == 1 && Retryable(run, [run], 0)
    ensures var start := State(map[run.id := run], [], Idle);
            var planned := Step(Step(Step(start, Begin), Fetch([run])), Plan([run], 0));
            var end := Step(Step(planned, Changed(run.(attempt := 2))), Next(Retried));
            end.retried == [run] && run.id in end.world && end.world[run.id].attempt == 3
  {
    PassPlansOne(run);
  }

  // ---------------------------------------------------------------------------------------------
  // Reruns between the fetch and the request
  // ---------------------------------------------------------------------------------------------

  /** Somebody else reruns the run: the event changes it and raises its attempt number. */
  predicate IsRerun(s: State, e: Event, id: int) {
    e.Changed? && e.run.id == id && Possible(s, e) && e.run.attempt > s.world[id].attempt
  }

  predicate SomeRerun(s: State, events: seq<Event>, id: int)
    decreases |events|
  {
    events != [] && (IsRerun(s, events[0], id) || SomeRerun(Step(s, events[0]), events[1..], id))
  }

  lemma {:induction false} RetriedStays(s: State, events: seq<Event>, id: int)
    requires WasRetried(s, id)
    ensures WasRetried(After(s, events), id)
    decreases |events|
  {
    if events != [] {
      var r :| r in s.retried && r.id == id;
      assert r in Step(s, events[0]).retried;
      RetriedStays(Step(s, events[0]), events[1..], id);
    }
  }

  /** As long as a run was not retried, its attempt number stays exactly until somebody else reruns it. */
  lemma {:induction false} AttemptStaysExactly(s: State, events: seq<Event>, id: int)
    requires Inv(s) && id in s.world && !WasRetried(After(s, events), id)
    ensures id in After(s, events).world && After(s, events).world[id].attempt >= s.world[id].attempt
    ensures After(s, events).world[id].attempt == s.world[id].attempt <==> !SomeRerun(s, events, id)
    decreases |events|
  {
    if events != [] {
      var next := Step(s, events[0]);
      StepKeepsInv(s, events[0]);
      if WasRetried(next, id) {
        RetriedStays(next, events[1..], id);
      }
      NextAttempt(s, events[0], id);
      AttemptStaysExactly(next, events[1..], id);
    }
  }

  lemma NextAttempt(s: State, e: Event, id: int)
    requires Inv(s) && id in s.world && !WasRetried(Step(s, e), id)
    ensures id in Step(s, e).world
    ensures Step(s, e).world[id].attempt > s.world[id].attempt <==> IsRerun(s, e, id)
    ensures !IsRerun(s, e, id) ==> Step(s, e).world[id].attempt == s.world[id].attempt
  {
    if Possible(s, e) && e.Next? && !e.fate.Left? {
      var run := s.pass.queue[0];
      assert run in s.pass.queue && run in Step(s, e).retried;
    }
  }

  /**
   Over any history between its fetch and its request, the retry of a run is the second attempt exactly
   if nobody else reran the run in that time.
   */
  lemma {:induction false} RetryIsSecondUnlessRerun(s: State, page: seq<Run>, run: Run, between: seq<Event>, fate: Fate)
    requires Inv(s) && Possible(s, Fetch(page)) && run in page && !fate.Left?
    requires var now := After(Step(s, Fetch(page)), between);
             Possible(now, Next(fate)) && now.pass.queue[0] == run
    ensures var fetched := Step(s, Fetch(page));
            var retried := Step(After(fetched, between), Next(fate)).world;
            run.id in retried && (retried[run.id].attempt == 2 <==> !SomeRerun(fetched, between, run.id))
  {
    var fetched := Step(s, Fetch(page));
    var now := After(fetched, between);
    StepKeepsInv(s, Fetch(page));
    HistoryKeepsInv(fetched, between);
    assert run in now.pass.queue;
    AttemptStaysExactly(fetched, between, run.id);
  }
}
