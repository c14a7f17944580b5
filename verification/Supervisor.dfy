/**
 The FCC import controller: it starts the import helper for one dataset after the other, pins the
 import process it finds in the container, limits it, stops it when anything goes wrong, and records
 a dataset only after its publication was verified under the maintenance lock.
 */
module Supervisor {
  import opened Basics
  import opened ImportProcess
  import opened Host

  // ---------------------------------------------------------------------------------------------
  // The status record
  // ---------------------------------------------------------------------------------------------

  datatype Phase = Running | Succeeded | Failed(error: Failure)

  datatype Status = Status(phase: Phase, dataset: Option<string>, observed: Option<Observation>, verified: map<string, Batch>)

  /** What saving a status can raise, beside an interrupt: two errors of the controller, and others. */
  predicate IsSaveFailure(f: Failure) {
    f.JobError? ==> f.code == RedirectedStateDirectory || f.code == StateDirectoryPermissions
  }

  const NEW_STATUS := Status(Running, None, None, map[])

  /** The state of one job, and every status that was written to disk. */
  class Job {
    var state: Status
    ghost var saved: seq<Status>

    constructor ()
      ensures state == NEW_STATUS && saved == []
    {
      state, saved := NEW_STATUS, [];
    }

    /**
     Writes a temporary file and renames it: either the whole status is saved or nothing is. It is
     refused when the directory is a link, or open to others.
     */
    method SaveStatus(m: Machine) returns (r: Result<(), Failure>)
      modifies this`saved, m`faults
      ensures r.Ok? ==> saved == old(saved) + [state]
      ensures r.Err? ==> saved == old(saved) && IsSaveFailure(r.error)
      ensures m.faults == old(m.faults) + if r.Err? then 1 else 0
    {
      var fault: bool := *;
      if fault {
        m.Fault();
        var error :| IsSaveFailure(error);
        return Err(error);
      }
      saved := saved + [state];
      r := Ok(());
    }
  }

  function ToSet(s: seq<string>): set<string> {
    set x | x in s
  }

  /** The datasets to import in order, and one imported beforehand by another operation. */
  datatype Plan = Plan(requested: seq<string>, external: Option<string>, wait: nat, seconds: nat, mib: nat)

  /** The first k requested datasets, and the external one if there is one. */
  function Names(plan: Plan, k: nat): set<string>
    requires k <= |plan.requested|
  {
    ToSet(plan.requested[..k]) + (if plan.external.Some? then {plan.external.value} else {})
  }

  /** The check shows that the three places agreed on this batch of this dataset while the lock was held. */
  ghost predicate Shows(c: Check, dataset: string, batch: Batch) {
    c.dataset == dataset && c.batch == batch && Proves(c)
  }

  /** Each verified dataset has a recorded check that shows its batch. */
  ghost predicate Evidence(verified: map<string, Batch>, checks: seq<Check>) {
    forall d | d in verified :: exists c | c in checks :: Shows(c, d, verified[d])
  }

  /**
   What every saved status promises: nothing is verified yet, or exactly the first k requested
   datasets and the external one are, where k is at most `done`; all of them when the status says that
   the job succeeded.
   */
  ghost predicate Sound(s: Status, plan: Plan, done: nat, checks: seq<Check>)
    requires done <= |plan.requested|
  {
    && Evidence(s.verified, checks)
    && (s.verified == map[] || exists k: nat | k <= done :: s.verified.Keys == Names(plan, k))
    && (s.phase.Succeeded? ==> done == |plan.requested| && s.verified.Keys == Names(plan, done))
  }

  // ---------------------------------------------------------------------------------------------
  // Stopping the import
  // ---------------------------------------------------------------------------------------------

  /** The requests of a stop in their order: TERM, up to six looks, KILL. */
  function StopRequest(i: nat, dataset: string, id: Identity, mib: int): Request {
    if i == 0 || i == 7 then Request(Stop, Some(dataset), Some(id), i == 7, mib)
    else Request(Probe, Some(dataset), None, false, mib)
  }

  /** The controller asks on after this answer. */
  predicate AsksOn(a: Asking, i: nat, id: Identity) {
    a.answer.Ok? && (i > 0 ==> Listed(a.answer.value, id))
  }

  /** Request i of a stop: first TERM, then looks, each five seconds after the request before it, then KILL. */
  predicate IsStopStep(own: seq<Asking>, i: nat, dataset: string, id: Identity, mib: int)
    requires i < |own|
  {
    var q := own[i].request;
    && (i == 0 ==> q == Request(Stop, Some(dataset), Some(id), false, mib))
    && (0 < i < 7 ==> q == Request(Probe, Some(dataset), None, false, mib))
    && (0 < i < 7 ==> own[i].seen.now >= own[i - 1].seen.now + 5000)
    && (i == 7 ==> q == Request(Stop, Some(dataset), Some(id), true, mib))
  }

  /** These are the first requests of a stop, and after each the controller asked on. */
  predicate IsBegun(own: seq<Asking>, dataset: string, id: Identity, mib: int) {
    |own| <= 8 && forall i | 0 <= i < |own| :: IsStopStep(own, i, dataset, id, mib) && (i < 7 ==> AsksOn(own[i], i, id))
  }

  /** A whole stop: it ends with the KILL, or with the first answer after which the controller does not ask on. */
  predicate IsStopping(own: seq<Asking>, dataset: string, id: Identity, mib: int) {
    && own != []
    && var n := |own| - 1;
       && IsBegun(own[..n], dataset, id, mib)
       && n < 8 && IsStopStep(own, n, dataset, id, mib)
       && (n == 7 || !AsksOn(own[n], n, id))
  }

  /** How often a stop looked, once it sent so many requests. */
  function Looks(requests: nat): nat {
    if requests == 0 then 0 else Min(requests - 1, 6)
  }

  /** The stop raises what the last request raised; an error in its answer is not read. */
  function StopVerdict(own: seq<Asking>): Result<(), Failure>
    requires own != []
  {
    var last := own[|own| - 1].answer;
    if last.Err? then Err(last.error) else Ok(())
  }

  /** Request i of a stop, five seconds after the one before if it is a look. */
  method AskToStop(m: Machine, i: nat, dataset: string, id: Identity, mib: int, ghost start: World, ghost before: seq<Asking>)
    returns (answer: Result<Answer, Failure>, ghost a: Asking)
    requires m.Valid() && i < 8 && Rely(m.steady, start, m.w) && OnlyTouches(before, m.asked, Some(id))
    modifies m`w, m`asked, m`faults, m`slept
    ensures m.Valid() && Rely(m.steady, start, m.w) && m.Mine() == old(m.Mine())
    ensures m.asked == old(m.asked) + [a] && OnlyTouches(before, m.asked, Some(id))
    ensures m.slept == old(m.slept) + 5000 * (Looks(i + 1) - Looks(i))
    ensures a.request == StopRequest(i, dataset, id, mib) && a.answer == answer
    ensures WellFormed(a.seen) && Rely(m.steady, start, a.seen) && Rely(m.steady, a.seen, m.w)
    ensures a.seen.now >= old(m.w.now) + (if 0 < i < 7 then 5000 else 0)
    ensures answer.Ok? ==> AnswersTruly(m.steady, a.seen, a.request, answer.value)
    ensures answer.Ok? && i in {0, 7} ==> StoppedAs(m.steady, a)
    ensures m.faults >= old(m.faults) && (answer.Err? && IsFault(answer.error) ==> m.faults > old(m.faults))
  {
    if 0 < i < 7 {
      m.Sleep(5000);
      RelyComposes(m.steady, start, old(m.w), m.w);
    }
    label ask:
    answer, a := m.Ask(StopRequest(i, dataset, id, mib));
    RelyComposes(m.steady, start, old@ask(m.w), m.w);
    RelyComposes(m.steady, start, old@ask(m.w), a.seen);
    assert OnlyTouches(old(m.asked), m.asked, Some(id));
    TouchesCompose(before, old(m.asked), m.asked, Some(id), Some(id));
  }

  lemma StopEnds(own: seq<Asking>, a: Asking, dataset: string, id: Identity, mib: int)
    requires IsBegun(own, dataset, id, mib) && |own| < 8 && a.request == StopRequest(|own|, dataset, id, mib)
    requires 0 < |own| < 7 ==> a.seen.now >= own[|own| - 1].seen.now + 5000
    ensures AsksOn(a, |own|, id) ==> IsBegun(own + [a], dataset, id, mib)
    ensures |own| == 7 || !AsksOn(a, |own|, id) ==> IsStopping(own + [a], dataset, id, mib)
    ensures StopVerdict(own + [a]) == if a.answer.Err? then Err(a.answer.error) else Ok(())
  {
    var all := own + [a];
    assert all[..|own|] == own;
    forall i | 0 <= i < |own| ensures IsStopStep(all, i, dataset, id, mib) && (i < 7 ==> AsksOn(all[i], i, id)) {
      assert IsStopStep(own, i, dataset, id, mib);
    }
    assert IsStopStep(all, |own|, dataset, id, mib);
  }

  /** What a stop that returned normally leaves of an import that was running at its start. */
  ghost predicate StopLeaves(own: seq<Asking>, id: Identity, now: World) {
    && own != []
    && var last := own[|own| - 1];
       || !Alive(now.live, id)
       || last.effect == Some(Signalled(id, true))
       || (|own| == 8 && last.refused == KillRefused && Alive(last.seen.live, id))
  }

  /** Request i of the stop, and whether the stop ends with its answer. */
  method StopStep(
      m: Machine, i: nat, dataset: string, id: Identity, mib: int, ghost start: World, ghost before: seq<Asking>,
      ghost own: seq<Asking>)
    returns (r: Option<Result<(), Failure>>, ghost more: seq<Asking>)
    requires m.Valid() && WellFormed(start) && Rely(m.steady, start, m.w) && OnlyTouches(before, m.asked, Some(id))
    requires |own| == i < 8 && IsBegun(own, dataset, id, mib) && (i > 0 ==> own[i - 1].seen.now <= m.w.now)
    modifies m`w, m`asked, m`faults, m`slept
    ensures m.Valid() && Rely(m.steady, start, m.w) && m.Mine() == old(m.Mine())
    ensures |more| == i + 1 && m.asked == old(m.asked) + more[i..] && own == more[..i] && OnlyTouches(before, m.asked, Some(id))
    ensures m.slept == old(m.slept) + 5000 * (Looks(i + 1) - Looks(i))
    ensures r.None? ==> i < 7 && IsBegun(more, dataset, id, mib) && more[i].seen.now <= m.w.now
    ensures r.Some? ==> IsStopping(more, dataset, id, mib) && r.value == StopVerdict(more)
    ensures r == Some(Ok(())) && m.steady && Imports(start.live, id, dataset) ==> StopLeaves(more, id, m.w)
    ensures m.faults >= old(m.faults) && (r.Some? && r.value.Err? && IsFault(r.value.error) ==> m.faults > old(m.faults))
  {
    var answer, a := AskToStop(m, i, dataset, id, mib, start, before);
    StopEnds(own, a, dataset, id, mib);
    more := own + [a];
    if answer.Err? {
      r := Some(Err(answer.error));
    } else if i == 7 || (i > 0 && !exists o | o in answer.value.processes :: o.id == id) {
      LeftBehind(m.steady, start, a, i, m.w, id, dataset);
      r := Some(Ok(()));
    } else {
      r := None;
    }
  }

  /**
   TERM, up to six looks five seconds apart, then KILL. When it returns without raising in a steady
   environment, the import is gone, or was sent KILL, or was alive when the kernel refused the KILL.
   */
  method StopImport(m: Machine, dataset: string, expected: Option<Identity>, mib: int)
    returns (r: Result<(), Failure>, ghost own: seq<Asking>)
    requires m.Valid()
    modifies m`w, m`asked, m`faults, m`slept
    ensures m.Valid() && Rely(m.steady, old(m.w), m.w) && m.Mine() == old(m.Mine())
    ensures m.asked == old(m.asked) + own && OnlyTouches(old(m.asked), m.asked, expected)
    ensures m.slept == old(m.slept) + 5000 * Looks(|own|)
    ensures if expected.None? then own == [] && r.Ok?
            else IsStopping(own, dataset, expected.value, mib) && r == StopVerdict(own)
    ensures r.Ok? && m.steady && expected.Some? && Imports(old(m.w).live, expected.value, dataset) ==>
              StopLeaves(own, expected.value, m.w)
    ensures m.faults >= old(m.faults) && (r.Err? && IsFault(r.error) ==> m.faults > old(m.faults))
  {
    RelyReflexive(m.steady, m.w);
    own := [];
    if expected.None? {
      return Ok(()), own;
    }
    var id := expected.value;
    ghost var start := m.w;
    for i := 0 to 8
      invariant m.Valid() && Rely(m.steady, start, m.w) && m.Mine() == old(m.Mine())
      invariant m.asked == old(m.asked) + own && OnlyTouches(old(m.asked), m.asked, expected)
      invariant m.faults >= old(m.faults) && m.slept == old(m.slept) + 5000 * Looks(|own|)
      invariant |own| == i < 8 && IsBegun(own, dataset, id, mib) && (i > 0 ==> own[i - 1].seen.now <= m.w.now)
    {
      ghost var more;
      var ends;
      ends, more := StopStep(m, i, dataset, id, mib, start, old(m.asked), own);
      Regrouped(old(m.asked), own, more[i..]);
      assert own + more[i..] == more;
      own := more;
      if ends.Some? {
        return ends.value, own;
      }
    }
    r := Ok(());
  }

  /** When the KILL was answered: the import had gone, or it was sent, or the kernel refused it. */
  lemma KilledOrGone(steady: bool, start: World, a: Asking, now: World, id: Identity, dataset: string)
    requires WellFormed(start) && Rely(steady, start, a.seen) && Rely(steady, a.seen, now)
    requires a.answer.Ok? && a.request.expected == Some(id) && a.request.dataset == Some(dataset) && a.request.force
    requires StoppedAs(steady, a)
    ensures steady && Imports(start.live, id, dataset) ==>
              || !Alive(now.live, id) || a.effect == Some(Signalled(id, true))
              || (a.refused == KillRefused && Alive(a.seen.live, id))
  {
    if steady && Imports(start.live, id, dataset) {
      assert id in start.born;
      assert Kept(steady, start, a.seen, id) && Kept(steady, a.seen, now, id);
    }
  }

  /** When the last answer of a stop was given, the import had gone, or KILL was sent, or was refused. */
  lemma LeftBehind(steady: bool, start: World, a: Asking, i: nat, now: World, id: Identity, dataset: string)
    requires WellFormed(start) && WellFormed(a.seen) && Rely(steady, start, a.seen) && Rely(steady, a.seen, now)
    requires 0 < i < 8 && a.request == StopRequest(i, dataset, id, a.request.mib) && a.answer.Ok?
    requires AnswersTruly(steady, a.seen, a.request, a.answer.value) && (i == 7 ==> StoppedAs(steady, a))
    requires i < 7 ==> !Listed(a.answer.value, id)
    ensures steady && Imports(start.live, id, dataset) ==>
              || !Alive(now.live, id) || a.effect == Some(Signalled(id, true))
              || (i == 7 && a.refused == KillRefused && Alive(a.seen.live, id))
  {
    if i == 7 {
      KilledOrGone(steady, start, a, now, id, dataset);
    } else {
      UnlistedIsGone(steady, start, a.seen, now, a.request, a.answer.value, id);
    }
  }

  /** A run of the program, in this world, that finds this one import. */
  function Found(w: World, id: Identity, dataset: string, mib: int, i: nat, refused: Refusal): Asking {
    var request := StopRequest(i, dataset, id, mib);
    var failed := request.mode == Stop && refused == KillRefused;
    Asking(request, w, refused,
           if request.mode == Stop && !failed then Some(Signalled(id, request.force)) else None,
           Ok(Answer([Observation(id, dataset, None)], 0, failed)))
  }

  /** Each request finds the import, five seconds after the one before. */
  function FoundAt(w: World, id: Identity, dataset: string, mib: int, i: nat): Asking {
    Found(w.(now := w.now + 5000 * i), id, dataset, mib, i, if i == 7 then KillRefused else Nothing)
  }

  /** A stop of an import that survives TERM, and for which the kernel refuses KILL. */
  function RefusedStop(w: World, id: Identity, dataset: string, mib: int): (own: seq<Asking>)
    ensures |own| == 8 && forall i | 0 <= i < 8 :: own[i] == FoundAt(w, id, dataset, mib, i)
  {
    seq(8, i requires 0 <= i < 8 => FoundAt(w, id, dataset, mib, i))
  }

  /**
   The third outcome exists: every answer of this stop is that of a run of the program in a world where
   the import is alive, the stop returns normally, and it never sent KILL.
   */
  lemma RefusedKillGoesUnread(w: World, id: Identity, p: Process, dataset: string, mib: int, memory: Memory)
    requires w.live == map[id.pid := p] && p.start == id.start && p.image == Import(dataset)
    ensures var own := RefusedStop(w, id, dataset, mib);
            && IsStopping(own, dataset, id, mib) && StopVerdict(own) == Ok(())
            && (forall i | 0 <= i < |own| ::
              own[i].seen.live == w.live && IsGenuine(true, memory, own[i]) && own[i].effect != Some(Signalled(id, true)))
  {
    var own := RefusedStop(w, id, dataset, mib);
    forall i | 0 <= i < 8
      ensures IsStopStep(own, i, dataset, id, mib) && (i < 7 ==> AsksOn(own[i], i, id))
      ensures own[i].seen.live == w.live && IsGenuine(true, memory, own[i]) && own[i].effect != Some(Signalled(id, true))
    {
      assert own[i] == FoundAt(w, id, dataset, mib, i);
      FoundIsRun(own[i].seen, id, p, dataset, mib, i, own[i].refused, memory);
      FoundIsListed(own[i].seen, id, dataset, mib, i, own[i].refused);
    }
    AllButTheLast(own, dataset, id, mib);
  }

  lemma AllButTheLast(own: seq<Asking>, dataset: string, id: Identity, mib: int)
    requires |own| == 8
    requires forall i | 0 <= i < 8 :: IsStopStep(own, i, dataset, id, mib) && (i < 7 ==> AsksOn(own[i], i, id))
    ensures IsStopping(own, dataset, id, mib)
  {
    forall i | 0 <= i < 7 ensures IsStopStep(own[..7], i, dataset, id, mib) && AsksOn(own[..7][i], i, id) {
      assert IsStopStep(own, i, dataset, id, mib) && own[..7][i] == own[i];
    }
  }

  lemma FoundIsListed(w: World, id: Identity, dataset: string, mib: int, i: nat, refused: Refusal)
    ensures Listed(Found(w, id, dataset, mib, i, refused).answer.value, id)
  {
    assert Observation(id, dataset, None) in Found(w, id, dataset, mib, i, refused).answer.value.processes;
  }

  lemma FoundIsRun(w: World, id: Identity, p: Process, dataset: string, mib: int, i: nat, refused: Refusal, memory: Memory)
    requires w.live == map[id.pid := p] && p.start == id.start && p.image == Import(dataset)
    ensures IsGenuine(true, memory, Found(w, id, dataset, mib, i, refused))
  {
    var a := Found(w, id, dataset, mib, i, refused);
    var order := [id.pid];
    var matches := Matches(w.live, order, a.request.dataset);
    assert order[1..] == [] && Matches(w.live, [], a.request.dataset) == [] && Unknowns(w.live, []) == 0;
    assert Entry(id.pid, p, a.request.dataset) == [Observation(id, dataset, None)];
    assert matches == [Observation(id, dataset, None)] && matches[1..] == [];
    assert Selected(matches, Some(id)) == [matches[0]] + Selected([], Some(id));
    var outcome := RunProgram(w.live, order, a.request, memory, refused);
    assert outcome == Outcome(w.live, a.answer.value, a.effect);
    assert IsRun(true, memory, a.request, w, refused, outcome);
  }

  /** In a steady environment an import that an answer does not list was gone, and stays gone. */
  lemma UnlistedIsGone(steady: bool, start: World, seen: World, now: World, request: Request, answer: Answer, id: Identity)
    requires WellFormed(start) && Rely(steady, start, seen) && Rely(steady, seen, now) && start.born <= seen.born
    requires AnswersTruly(steady, seen, request, answer) && request.dataset.Some?
    requires !Listed(answer, id)
    ensures steady && Imports(start.live, id, request.dataset.value) ==> !Alive(seen.live, id) && !Alive(now.live, id)
  {
    if steady && Imports(start.live, id, request.dataset.value) {
      assert id in start.born;
      assert Kept(steady, start, seen, id) && Kept(steady, seen, now, id);
    }
  }

  // ---------------------------------------------------------------------------------------------
  // Watching one import
  // ---------------------------------------------------------------------------------------------

  /**
   One turn of the watch loop that ended with the controller going on: the place of its look among the
   requests, the look, the limit call if this turn pinned the import, the world at the end of the turn,
   and the identity that was pinned by then.
   */
  datatype Poll = Poll(at: nat, probe: Asking, limit: Option<Asking>, end: World, pinned: Option<Identity>)

  /** The limit call was answered without an error, or its answer listed nothing and left nothing unaccounted for. */
  predicate IsLimited(a: Asking, dataset: string, id: Identity, mib: int) {
    && a.request == Request(Limit, Some(dataset), Some(id), false, mib)
    && a.answer.Ok? && (a.answer.value.error ==> a.answer.value.processes == [] && a.answer.value.unknown == 0)
  }

  /**
   The look answered that nothing but the pinned import is running, and a turn that pins it limits it:
   if that was answered without an error, the import runs at the end, if it still does, within the
   budget. In a steady environment every import of the dataset that was running at the look is indeed
   the pinned one, and it is within the budget at the end of every turn.
   */
  ghost predicate Guarded(steady: bool, dataset: string, mib: nat, memory: Memory, poll: Poll) {
    && poll.probe.request.mode == Probe && poll.probe.request.dataset == Some(dataset)
    && poll.probe.answer.Ok? && poll.probe.answer.value.unknown == 0
    && (forall o | o in poll.probe.answer.value.processes :: poll.pinned == Some(o.id))
    && (poll.limit.Some? ==>
          && poll.pinned.Some? && IsLimited(poll.limit.value, dataset, poll.pinned.value, mib)
          && (!poll.limit.value.answer.value.error ==> HardAtMost(poll.end.live, poll.pinned.value, Budget(mib, memory))))
    && (steady ==>
          && (forall id | Imports(poll.probe.seen.live, id, dataset) :: poll.pinned == Some(id))
          && (poll.pinned.Some? ==> HardAtMost(poll.end.live, poll.pinned.value, Budget(mib, memory))))
  }

  function PinnedBy(polls: seq<Poll>): Option<Identity> {
    if polls == [] then None else polls[|polls| - 1].pinned
  }

  /** The look of the turn is a request of its own, at `next` or later; an import is pinned once, with a limit call. */
  predicate IsNext(asked: seq<Asking>, next: nat, before: Option<Identity>, p: Poll) {
    && next <= p.at < |asked| && asked[p.at] == p.probe
    && (p.limit.Some? ==> p.at + 1 < |asked| && asked[p.at + 1] == p.limit.value)
    && (if before.Some? then p.pinned == before else p.pinned.Some? <==> p.limit.Some?)
  }

  /**
   Turn i: after the end of the turn before it, with a look of its own, guarded, and with the one pinned
   process. Behind the last turn stands the world `w`.
   */
  ghost predicate WatchedTurn(
      steady: bool, dataset: string, mib: nat, memory: Memory, asked: seq<Asking>, from: nat, start: World, polls: seq<Poll>,
      pinned: Option<Identity>, w: World, i: nat)
    requires i <= |polls|
  {
    && Rely(steady, if i == 0 then start else polls[i - 1].end, if i == |polls| then w else polls[i].probe.seen)
    && (i < |polls| ==>
          var p := polls[i];
          && IsNext(asked, if i == 0 then from else polls[i - 1].at + 1, if i == 0 then None else polls[i - 1].pinned, p)
          && WellFormed(p.probe.seen) && Rely(steady, p.probe.seen, p.end)
          && Guarded(steady, dataset, mib, memory, p) && (p.pinned.Some? ==> p.pinned == pinned))
  }

  /**
   The turns followed one another from `start` to `w`, each with a look of its own among the requests from
   place `from` on; each was guarded, and all speak of the one pinned process.
   */
  ghost predicate Watched(
      steady: bool, dataset: string, mib: nat, memory: Memory, asked: seq<Asking>, from: nat, start: World, polls: seq<Poll>,
      pinned: Option<Identity>, w: World)
  {
    forall i | 0 <= i <= |polls| :: WatchedTurn(steady, dataset, mib, memory, asked, from, start, polls, pinned, w, i)
  }

  lemma WatchedOn(
      steady: bool, dataset: string, mib: nat, memory: Memory, asked: seq<Asking>, more: seq<Asking>, from: nat,
      start: World, polls: seq<Poll>, pinned: Option<Identity>, later: Option<Identity>, w: World, v: World)
    requires Watched(steady, dataset, mib, memory, asked, from, start, polls, pinned, w)
    requires asked <= more && Rely(steady, w, v) && (pinned.Some? ==> later == pinned)
    ensures Watched(steady, dataset, mib, memory, more, from, start, polls, later, v)
  {
    forall i | 0 <= i <= |polls| ensures WatchedTurn(steady, dataset, mib, memory, more, from, start, polls, later, v, i) {
      assert WatchedTurn(steady, dataset, mib, memory, asked, from, start, polls, pinned, w, i);
      if i == |polls| {
        RelyComposes(steady, if i == 0 then start else polls[i - 1].end, w, v);
      }
    }
  }

  /** Over all turns: their looks are different requests, and from each turn to any later one the environment was relied on. */
  lemma {:induction false} EveryTurnIsGuarded(
      steady: bool, dataset: string, mib: nat, memory: Memory, asked: seq<Asking>, from: nat, start: World,
      polls: seq<Poll>, pinned: Option<Identity>, w: World, i: nat, j: nat)
    requires Watched(steady, dataset, mib, memory, asked, from, start, polls, pinned, w) && i <= j < |polls|
    ensures from <= polls[i].at < |asked| && asked[polls[i].at] == polls[i].probe
    ensures Guarded(steady, dataset, mib, memory, polls[i]) && (polls[i].pinned.Some? ==> polls[i].pinned == pinned)
    ensures i < j ==> polls[i].at < polls[j].at && Rely(steady, polls[i].end, polls[j].probe.seen)
    ensures polls[i].pinned.Some? ==> polls[j].pinned == pinned
    decreases j - i, j
  {
    assert WatchedTurn(steady, dataset, mib, memory, asked, from, start, polls, pinned, w, i);
    if i > 0 && i == j {
      EveryTurnIsGuarded(steady, dataset, mib, memory, asked, from, start, polls, pinned, w, i - 1, i - 1);
    }
    if i < j {
      EveryTurnIsGuarded(steady, dataset, mib, memory, asked, from, start, polls, pinned, w, i, j - 1);
      assert WatchedTurn(steady, dataset, mib, memory, asked, from, start, polls, pinned, w, j);
      assert WatchedTurn(steady, dataset, mib, memory, asked, from, start, polls, pinned, w, j - 1);
      if i < j - 1 {
        RelyComposes(steady, polls[i].end, polls[j - 1].probe.seen, polls[j - 1].end);
        RelyComposes(steady, polls[i].end, polls[j - 1].end, polls[j].probe.seen);
      }
    }
  }

  /** What is known of the pinned process: it is known by name, and limited in a steady environment. */
  ghost predicate Tracked(steady: bool, dataset: string, mib: nat, memory: Memory, w: World, pinned: Option<Identity>) {
    pinned.Some? ==>
      && pinned.value in w.born
      && (steady ==> HardAtMost(w.live, pinned.value, Budget(mib, memory))
                     && (Alive(w.live, pinned.value) ==> Imports(w.live, pinned.value, dataset)))
  }

  lemma TrackedStays(steady: bool, dataset: string, mib: nat, memory: Memory, w: World, v: World, pinned: Option<Identity>)
    requires WellFormed(w) && Rely(steady, w, v) && Tracked(steady, dataset, mib, memory, w, pinned)
    ensures Tracked(steady, dataset, mib, memory, v, pinned)
  {
    if pinned.Some? {
      assert Kept(steady, w, v, pinned.value);
    }
  }

  lemma OneAsked(before: seq<Asking>, a: Asking, pinned: Option<Identity>)
    requires a.effect.None?
    ensures OnlyTouches(before, before + [a], pinned)
  {
  }

  /** The probe answered that more than one import runs, or one that nobody accounts for. */
  predicate IsConflict(answer: Answer) {
    answer.unknown > 0 || |answer.processes| > 1
  }

  /** The probe answered that another import runs than the pinned one. */
  predicate IsOther(answer: Answer, pinned: Option<Identity>) {
    answer.unknown == 0 && |answer.processes| == 1 && pinned.Some? && answer.processes[0].id != pinned.value
  }

  /** The limit call was answered with an error, while an import was running. */
  predicate IsUnlimited(answer: Answer) {
    answer.error && (answer.processes != [] || answer.unknown > 0)
  }

  /** What the last request of a turn shows when the turn ends with this error. */
  predicate TurnFailed(error: Failure, a: Asking, dataset: string, pinned: Option<Identity>, mib: nat) {
    || (IsCallFailure(error) && a.answer == Err(error))
    || (a.answer.Ok? && a.request == Request(Probe, Some(dataset), None, false, mib)
        && error == JobError(ImportIdentityConflict) && IsConflict(a.answer.value))
    || (a.answer.Ok? && a.request == Request(Probe, Some(dataset), None, false, mib)
        && error == JobError(ImportIdentityChanged) && IsOther(a.answer.value, pinned))
    || (a.answer.Ok? && pinned.Some? && a.request == Request(Limit, Some(dataset), pinned, false, mib)
        && error == JobError(ImportMemoryGuardFailed) && IsUnlimited(a.answer.value))
  }

  /** The import that the status shows after the turn: as limited, or as probed, or the one shown before. */
  function Shown(p: Poll, before: Option<Observation>): Option<Observation>
    requires IsAnswered(p)
  {
    if p.probe.answer.value.processes == [] then before
    else if p.limit.Some? && !p.limit.value.answer.value.error && p.limit.value.answer.value.processes != [] then
      Some(p.limit.value.answer.value.processes[0])
    else Some(p.probe.answer.value.processes[0])
  }

  /** The first limit call after pinning. */
  method PinAndLimit(m: Machine, dataset: string, observed: Observation, mib: int)
    returns (r: Result<Observation, Failure>, ghost a: Asking)
    requires m.Valid() && observed.id in m.w.born && mib >= 0
    requires m.steady ==> (Alive(m.w.live, observed.id) ==> Imports(m.w.live, observed.id, dataset))
    modifies m`w, m`asked, m`faults
    ensures m.Valid() && Rely(m.steady, old(m.w), m.w) && m.Mine() == old(m.Mine())
    ensures m.asked == old(m.asked) + [a] && OnlyTouches(old(m.asked), m.asked, Some(observed.id))
    ensures r.Ok? ==> Tracked(m.steady, dataset, mib, m.memory, m.w, Some(observed.id))
    ensures r.Ok? ==>
              && IsLimited(a, dataset, observed.id, mib)
              && (!a.answer.value.error ==> HardAtMost(m.w.live, observed.id, Budget(mib, m.memory)))
              && r.value == if a.answer.value.error || a.answer.value.processes == [] then observed
                            else a.answer.value.processes[0]
    ensures r.Err? ==> TurnFailed(r.error, a, dataset, Some(observed.id), mib)
    ensures m.faults >= old(m.faults) && (r.Err? && IsFault(r.error) ==> m.faults > old(m.faults))
  {
    var request := Request(Limit, Some(dataset), Some(observed.id), false, mib);
    var limited;
    limited, a := m.Ask(request);
    if limited.Err? {
      return Err(limited.error), a;
    }
    if limited.value.error {
      if limited.value.processes != [] || limited.value.unknown > 0 {
        return Err(JobError(ImportMemoryGuardFailed)), a;
      }
      if Imports(old(m.w).live, observed.id, dataset) {
        UnlistedIsGone(m.steady, old(m.w), a.seen, m.w, request, limited.value, observed.id);
      }
    }
    assert Kept(m.steady, old(m.w), m.w, observed.id);
    r := Ok(if !limited.value.error && limited.value.processes != [] then limited.value.processes[0] else observed);
  }

  /** The probe asked after the dataset, and listed this import, if any, and nothing else. */
  predicate Finds(a: Asking, dataset: string, found: Option<Observation>) {
    && a.request.mode == Probe && a.request.dataset == Some(dataset) && a.answer.Ok? && a.answer.value.unknown == 0
    && a.answer.value.processes == (if found.None? then [] else [found.value])
  }

  /** Pins the import that was found, and limits it. */
  method Pin(m: Machine, dataset: string, observed: Observation, mib: nat, ghost start: World, ghost a: Asking)
    returns (r: Result<Observation, Failure>, ghost poll: Poll)
    requires m.Valid() && !m.Mine() && m.asked != [] && m.asked[|m.asked| - 1] == a && Finds(a, dataset, Some(observed))
    requires WellFormed(a.seen) && Rely(m.steady, start, a.seen) && Rely(m.steady, a.seen, m.w)
    requires AnswersTruly(m.steady, a.seen, a.request, a.answer.value)
    modifies m`w, m`asked, m`faults
    ensures m.Valid() && !m.Mine() && Rely(m.steady, start, m.w) && Rely(m.steady, a.seen, m.w)
    ensures OnlyTouches(old(m.asked), m.asked, Some(observed.id)) && |m.asked| == |old(m.asked)| + 1
    ensures r.Ok? ==>
              && Tracked(m.steady, dataset, mib, m.memory, m.w, Some(observed.id))
              && poll == Poll(|old(m.asked)| - 1, a, Some(m.asked[|old(m.asked)|]), m.w, Some(observed.id))
              && Guarded(m.steady, dataset, mib, m.memory, poll) && Shown(poll, None) == Some(r.value)
    ensures r.Err? ==> TurnFailed(r.error, m.asked[|old(m.asked)|], dataset, Some(observed.id), mib)
    ensures m.faults >= old(m.faults) && (r.Err? && IsFault(r.error) ==> m.faults > old(m.faults))
  {
    assert observed in a.answer.value.processes;
    assert Kept(m.steady, a.seen, m.w, observed.id);
    ghost var limit;
    r, limit := PinAndLimit(m, dataset, observed, mib);
    RelyComposes(m.steady, start, old(m.w), m.w);
    RelyComposes(m.steady, start, a.seen, m.w);
    RelyComposes(m.steady, a.seen, old(m.w), m.w);
    poll := Poll(|old(m.asked)| - 1, a, Some(limit), m.w, Some(observed.id));
    OnlyListed(m.steady, a, dataset, observed);
  }

  lemma OnlyListed(steady: bool, a: Asking, dataset: string, observed: Observation)
    requires Finds(a, dataset, Some(observed)) && AnswersTruly(steady, a.seen, a.request, a.answer.value)
    ensures forall o | o in a.answer.value.processes :: o == observed
    ensures steady ==> forall id | Imports(a.seen.live, id, dataset) :: id == observed.id
  {
    if steady {
      forall id | Imports(a.seen.live, id, dataset) ensures id == observed.id {
        assert Listed(a.answer.value, id);
      }
    }
  }

  /** What the controller makes of the answer to a probe: an error, no import, or the one import. */
  function Inspected(answer: Result<Answer, Failure>, pinned: Option<Identity>): Result<Option<Observation>, Failure> {
    if answer.Err? then Err(answer.error)
    else
      var found := answer.value.processes;
      if answer.value.unknown > 0 || |found| > 1 then Err(JobError(ImportIdentityConflict))
      else if found != [] && pinned.Some? && found[0].id != pinned.value then Err(JobError(ImportIdentityChanged))
      else Ok(if found == [] then None else Some(found[0]))
  }

  lemma InspectionFacts(a: Asking, dataset: string, pinned: Option<Identity>, mib: nat)
    requires a.request == Request(Probe, Some(dataset), None, false, mib) && (a.answer.Err? ==> IsCallFailure(a.answer.error))
    ensures var r := Inspected(a.answer, pinned);
            && (r.Ok? ==> Finds(a, dataset, r.value))
            && (r.Ok? && r.value.Some? && pinned.Some? ==> r.value.value.id == pinned.value)
            && (r.Err? ==> TurnFailed(r.error, a, dataset, pinned, mib))
            && (r.Err? && IsFault(r.error) ==> a.answer == Err(r.error))
  {
  }

  /**
   Probes the container. It raises when there is more than one import, one it cannot account for, or
   another one than the pinned one.
   */
  method Inspect(m: Machine, dataset: string, pinned: Option<Identity>, mib: nat)
    returns (r: Result<Option<Observation>, Failure>, ghost a: Asking)
    requires m.Valid() && !m.Mine()
    modifies m`w, m`asked, m`faults
    ensures m.Valid() && !m.Mine() && Rely(m.steady, old(m.w), m.w)
    ensures m.asked == old(m.asked) + [a] && OnlyTouches(old(m.asked), m.asked, pinned)
    ensures WellFormed(a.seen) && Rely(m.steady, old(m.w), a.seen) && Rely(m.steady, a.seen, m.w)
    ensures r.Ok? ==> Finds(a, dataset, r.value) && AnswersTruly(m.steady, a.seen, a.request, a.answer.value)
    ensures r.Ok? && r.value.Some? && pinned.Some? ==> r.value.value.id == pinned.value
    ensures r.Err? ==> TurnFailed(r.error, a, dataset, pinned, mib)
    ensures m.faults >= old(m.faults) && (r.Err? && IsFault(r.error) ==> m.faults > old(m.faults))
  {
    var probe;
    probe, a := m.Ask(Request(Probe, Some(dataset), None, false, mib));
    OneAsked(old(m.asked), a, pinned);
    r := Inspected(probe, pinned);
    InspectionFacts(a, dataset, pinned, mib);
  }

  /** A look that pins nothing is guarded as it is. */
  lemma LookIsGuarded(
      steady: bool, dataset: string, mib: nat, memory: Memory, a: Asking, found: Option<Observation>, pinned: Option<Identity>,
      w: World, at: nat)
    requires Finds(a, dataset, found) && AnswersTruly(steady, a.seen, a.request, a.answer.value)
    requires found.Some? ==> pinned == Some(found.value.id)
    requires Tracked(steady, dataset, mib, memory, w, pinned)
    ensures Guarded(steady, dataset, mib, memory, Poll(at, a, None, w, pinned))
  {
    if steady {
      forall id | Imports(a.seen.live, id, dataset) ensures pinned == Some(id) {
        assert Listed(a.answer.value, id);
      }
    }
  }

  /**
   One look into the container. It pins the import when none is pinned yet, and raises when there is
   more than one import, one it cannot account for, or another one than the pinned one.
   */
  method Look(m: Machine, dataset: string, pinned: Option<Identity>, mib: nat)
    returns (r: Result<Option<Observation>, Failure>, now: Option<Identity>, ghost poll: Poll)
    requires m.Valid() && !m.Mine()
    requires Tracked(m.steady, dataset, mib, m.memory, m.w, pinned)
    modifies m`w, m`asked, m`faults
    ensures m.Valid() && !m.Mine() && Rely(m.steady, old(m.w), m.w)
    ensures pinned.Some? ==> now == pinned
    ensures OnlyTouches(old(m.asked), m.asked, now)
    ensures poll.at == |old(m.asked)| < |m.asked| && poll.probe == m.asked[poll.at]
    ensures WellFormed(poll.probe.seen) && Rely(m.steady, old(m.w), poll.probe.seen) && Rely(m.steady, poll.probe.seen, m.w)
    ensures r.Ok? ==>
              && Tracked(m.steady, dataset, mib, m.memory, m.w, now)
              && poll.pinned == now && poll.end == m.w
              && (poll.limit.Some? ==> |m.asked| == poll.at + 2 && m.asked[poll.at + 1] == poll.limit.value)
              && (poll.limit.Some? <==> pinned.None? && now.Some?)
              && Guarded(m.steady, dataset, mib, m.memory, poll) && r.value == Shown(poll, None)
    ensures r.Err? ==> TurnFailed(r.error, m.asked[|m.asked| - 1], dataset, now, mib)
    ensures m.faults >= old(m.faults) && (r.Err? && IsFault(r.error) ==> m.faults > old(m.faults))
  {
    now := pinned;
    var found;
    ghost var a;
    found, a := Inspect(m, dataset, pinned, mib);
    poll := Poll(|old(m.asked)|, a, None, m.w, now);
    TrackedStays(m.steady, dataset, mib, m.memory, old(m.w), m.w, pinned);
    if found.Ok? && (found.value.None? || pinned.Some?) {
      LookIsGuarded(m.steady, dataset, mib, m.memory, a, found.value, pinned, m.w, poll.at);
    }
    if found.Err? || found.value.None? || pinned.Some? {
      return found, now, poll;
    }
    var observed := found.value.value;
    now := Some(observed.id);
    label pin:
    var limited;
    ghost var next;
    limited, next := Pin(m, dataset, observed, mib, old(m.w), a);
    TouchesCompose(old(m.asked), old@pin(m.asked), m.asked, pinned, now);
    if limited.Err? {
      return Err(limited.error), now, poll;
    }
    poll := next;
    r := Ok(Some(limited.value));
  }

  /** Statuses written since `before` are this one, but for the observed import. */
  ghost predicate OnlyProgress(before: seq<Status>, saved: seq<Status>, state: Status) {
    before <= saved && forall i | |before| <= i < |saved| :: saved[i] == state.(observed := saved[i].observed)
  }

  /** The status of turn i, the first of which stands at `first`, shows what that turn observed. */
  ghost predicate TellsTurn(saved: seq<Status>, first: nat, shown: Option<Observation>, polls: seq<Poll>, i: nat)
    requires i < |polls|
  {
    first + i < |saved| ==>
      && IsAnswered(polls[i])
      && saved[first + i].observed == Shown(polls[i], if i == 0 then shown else saved[first + i - 1].observed)
  }

  /** Every turn is told by its status. */
  ghost predicate TellsAll(saved: seq<Status>, first: nat, shown: Option<Observation>, polls: seq<Poll>) {
    forall i | 0 <= i < |polls| :: TellsTurn(saved, first, shown, polls, i)
  }

  lemma TellsOneMore(
      saved: seq<Status>, more: seq<Status>, first: nat, shown: Option<Observation>, polls: seq<Poll>, p: Poll)
    requires TellsAll(saved, first, shown, polls) && |saved| == first + |polls| && saved <= more
    requires |more| <= |saved| + 1
    requires IsAnswered(p)
    requires |more| == |saved| + 1 ==>
               more[|saved|].observed == Shown(p, if polls == [] then shown else saved[|saved| - 1].observed)
    ensures TellsAll(more, first, shown, polls + [p])
  {
    forall i | 0 <= i < |polls + [p]| ensures TellsTurn(more, first, shown, polls + [p], i) {
      if i < |polls| {
        assert TellsTurn(saved, first, shown, polls, i);
      }
    }
  }

  /** One more turn, with the look that was just made. */
  lemma WatchedOneMore(
      steady: bool, dataset: string, mib: nat, memory: Memory, asked: seq<Asking>, more: seq<Asking>, from: nat, start: World,
      polls: seq<Poll>, pinned: Option<Identity>, w: World, p: Poll)
    requires Watched(steady, dataset, mib, memory, asked, from, start, polls, pinned, w)
    requires from <= |asked| && asked <= more && pinned == PinnedBy(polls) && (pinned.Some? ==> p.pinned == pinned)
    requires p.at == |asked| < |more| && more[p.at] == p.probe && (p.limit.Some? <==> pinned.None? && p.pinned.Some?)
    requires p.limit.Some? ==> p.at + 1 < |more| && more[p.at + 1] == p.limit.value
    requires WellFormed(p.probe.seen) && Rely(steady, w, p.probe.seen) && Rely(steady, p.probe.seen, p.end)
    requires Guarded(steady, dataset, mib, memory, p)
    ensures Watched(steady, dataset, mib, memory, more, from, start, polls + [p], p.pinned, p.end)
    ensures PinnedBy(polls + [p]) == p.pinned
  {
    var all := polls + [p];
    RelyReflexive(steady, p.end);
    forall i | 0 <= i <= |all| ensures WatchedTurn(steady, dataset, mib, memory, more, from, start, all, p.pinned, p.end, i) {
      if i <= |polls| {
        assert WatchedTurn(steady, dataset, mib, memory, asked, from, start, polls, pinned, w, i);
      }
      if i == |polls| {
        RelyComposes(steady, if i == 0 then start else polls[i - 1].end, w, p.probe.seen);
        assert i > 0 ==> WatchedTurn(steady, dataset, mib, memory, asked, from, start, polls, pinned, w, i - 1);
      }
    }
  }

  /** Both requests of the turn were answered. */
  predicate IsAnswered(p: Poll) {
    p.probe.answer.Ok? && (p.limit.Some? ==> p.limit.value.answer.Ok?)
  }

  /** The look of a turn, as one more of the watch; none if it raised. */
  method Peek(
      m: Machine, dataset: string, pinned: Option<Identity>, mib: nat, ghost from: nat, ghost start: World,
      ghost polls: seq<Poll>)
    returns (
      r: Result<Option<Observation>, Failure>, now: Option<Identity>, ghost more: seq<Poll>, ghost told: Option<Poll>)
    requires m.Valid() && !m.Mine() && Tracked(m.steady, dataset, mib, m.memory, m.w, pinned)
    requires Watched(m.steady, dataset, mib, m.memory, m.asked, from, start, polls, pinned, m.w)
    requires from <= |m.asked| && pinned == PinnedBy(polls)
    modifies m`w, m`asked, m`faults
    ensures m.Valid() && !m.Mine() && Rely(m.steady, old(m.w), m.w)
    ensures (pinned.Some? ==> now == pinned) && OnlyTouches(old(m.asked), m.asked, now)
    ensures Watched(m.steady, dataset, mib, m.memory, m.asked, from, start, more, now, m.w)
    ensures r.Err? ==>
              && more == polls && told.None? && |m.asked| > from
              && TurnFailed(r.error, m.asked[|m.asked| - 1], dataset, now, mib)
    ensures r.Ok? ==>
              && told.Some? && more == polls + [told.value] && now == PinnedBy(more)
              && Tracked(m.steady, dataset, mib, m.memory, m.w, now)
              && old(m.w.now) <= told.value.probe.seen.now && told.value.end == m.w && IsAnswered(told.value)
              && r.value == Shown(told.value, None)
    ensures m.faults >= old(m.faults) && (r.Err? && IsFault(r.error) ==> m.faults > old(m.faults))
  {
    ghost var poll;
    r, now, poll := Look(m, dataset, pinned, mib);
    if r.Err? {
      WatchedOn(m.steady, dataset, mib, m.memory, old(m.asked), m.asked, from, start, polls, pinned, now, old(m.w), m.w);
      return r, now, polls, None;
    }
    WatchedOneMore(m.steady, dataset, mib, m.memory, old(m.asked), m.asked, from, start, polls, pinned, old(m.w), poll);
    more, told := polls + [poll], Some(poll);
  }

  /** The status of the turn: it shows the import that was observed, if there was one. */
  method Report(m: Machine, job: Job, observed: Option<Observation>, ghost p: Poll) returns (r: Result<(), Failure>)
    requires IsAnswered(p) && observed == Shown(p, None)
    modifies job`state, job`saved, m`faults
    ensures job.state == old(job.state).(observed := Shown(p, old(job.state.observed)))
    ensures if r.Ok? then job.saved == old(job.saved) + [job.state] else job.saved == old(job.saved)
    ensures (r.Err? ==> IsSaveFailure(r.error)) && m.faults == old(m.faults) + if r.Err? then 1 else 0
  {
    if observed.Some? {
      job.state := job.state.(observed := observed);
    }
    r := job.SaveStatus(m);
  }

  /** One turn of the watch loop, up to the saved status: it goes on only after a guarded look and a saved status. */
  method Turn(
      m: Machine, job: Job, dataset: string, pinned: Option<Identity>, mib: nat, ghost from: nat, ghost start: World,
      ghost polls: seq<Poll>)
    returns (r: Result<(), Failure>, now: Option<Identity>, ghost more: seq<Poll>, ghost told: Option<Poll>)
    requires m.Valid() && !m.Mine() && Tracked(m.steady, dataset, mib, m.memory, m.w, pinned)
    requires Watched(m.steady, dataset, mib, m.memory, m.asked, from, start, polls, pinned, m.w)
    requires from <= |m.asked| && pinned == PinnedBy(polls)
    modifies m`w, m`asked, job`state, job`saved, m`faults
    ensures m.Valid() && !m.Mine() && Rely(m.steady, old(m.w), m.w)
    ensures (pinned.Some? ==> now == pinned) && OnlyTouches(old(m.asked), m.asked, now)
    ensures Watched(m.steady, dataset, mib, m.memory, m.asked, from, start, more, now, m.w)
    ensures r.Ok? ==> told.Some? && now == PinnedBy(more) && Tracked(m.steady, dataset, mib, m.memory, m.w, now)
    ensures told.None? ==> more == polls && job.state == old(job.state)
    ensures told.Some? ==>
              && more == polls + [told.value] && IsAnswered(told.value)
              && old(m.w.now) <= told.value.probe.seen.now && told.value.end.now <= m.w.now
              && job.state == old(job.state).(observed := Shown(told.value, old(job.state.observed)))
    ensures r.Err? ==>
              IsSaveFailure(r.error) || (|m.asked| > from && TurnFailed(r.error, m.asked[|m.asked| - 1], dataset, now, mib))
    ensures if r.Ok? then job.saved == old(job.saved) + [job.state] else job.saved == old(job.saved)
    ensures m.faults >= old(m.faults) && (r.Err? && IsFault(r.error) ==> m.faults > old(m.faults))
  {
    var look;
    look, now, more, told := Peek(m, dataset, pinned, mib, from, start, polls);
    if look.Err? {
      return Err(look.error), now, more, told;
    }
    r := Report(m, job, look.value, told.value);
  }

  // ---------------------------------------------------------------------------------------------
  // The helper
  // ---------------------------------------------------------------------------------------------

  /** Asks the helper for its exit code, once it has one. */
  method PollHelper(m: Machine, code: Option<int>) returns (now: Option<int>)
    modifies m`helper
    ensures m.helper == old(m.helper) + [Polled(now, m.w.now)] && (code.Some? ==> now == code)
  {
    var exited: bool := *;
    var status: int := *;
    now := if code.None? && exited then Some(status) else code;
    m.helper := m.helper + [Polled(now, m.w.now)];
  }

  /** The helper was still running when it was asked for the first so many times. */
  predicate WasRunning(own: seq<HelperStep>, turns: nat) {
    turns <= |own| && forall i | 0 <= i < turns :: own[i].Polled? && own[i].code == None
  }

  /** The exit code in the last answer of the helper. */
  function LastCode(own: seq<HelperStep>): Option<int> {
    if own == [] then None else if own[|own| - 1].Polled? then own[|own| - 1].code else LastCode(own[..|own| - 1])
  }

  /** The watch asked the helper once before every turn; the last time led to no turn, unless its turn failed to save. */
  predicate IsPolled(own: seq<HelperStep>, turns: nat, code: Option<int>) {
    && WasRunning(own, turns)
    && if |own| == turns then code == None else |own| == turns + 1 && own[turns].Polled? && own[turns].code == code
  }

  /** The helper exited with 0 after so many turns. */
  predicate IsExit(own: seq<HelperStep>, turns: nat) {
    WasRunning(own, turns) && |own| == turns + 1 && own[turns].Polled? && own[turns].code == Some(0)
  }

  /** Turn i began before the time was over, and at least 15 seconds after the turn before it had ended. */
  predicate BeganInTime(own: seq<HelperStep>, polls: seq<Poll>, due: int, i: nat)
    requires i < |own| && i < |polls|
  {
    && own[i].Polled? && own[i].time < due && own[i].time <= polls[i].probe.seen.now
    && (i > 0 ==> polls[i - 1].end.now + 15000 <= own[i].time)
  }

  predicate InTime(own: seq<HelperStep>, polls: seq<Poll>, due: int) {
    |polls| <= |own| && forall i | 0 <= i < |polls| :: BeganInTime(own, polls, due, i)
  }

  lemma InTimeOn(own: seq<HelperStep>, polls: seq<Poll>, due: int, h: HelperStep, more: seq<Poll>)
    requires InTime(own, polls, due) && |own| == |polls|
    requires more == polls || (|more| == |polls| + 1 && polls == more[..|polls|])
    requires |more| > |polls| ==>
               && h.Polled? && h.time < due && h.time <= more[|polls|].probe.seen.now
               && (polls != [] ==> polls[|polls| - 1].end.now + 15000 <= h.time)
    ensures InTime(own + [h], more, due)
  {
    forall i | 0 <= i < |more| ensures BeganInTime(own + [h], more, due, i) {
      if i < |polls| {
        assert BeganInTime(own, polls, due, i);
      }
      assert i > 0 ==> more[i - 1] == polls[i - 1];
    }
  }

  lemma InTimeGrows(own: seq<HelperStep>, polls: seq<Poll>, due: int, later: seq<HelperStep>)
    requires InTime(own, polls, due)
    ensures InTime(own + later, polls, due)
  {
    forall i | 0 <= i < |polls| ensures BeganInTime(own + later, polls, due, i) {
      assert BeganInTime(own, polls, due, i);
    }
  }

  /** The helper answered after these turns that it was still running, and its time was over by then. */
  predicate TimedOut(own: seq<HelperStep>, turns: nat, due: int) {
    turns < |own| && own[turns].Polled? && own[turns].code == None && own[turns].time >= due
  }

  /** The helper answered after these turns that it exited with another code than 0. */
  predicate ExitedBadly(own: seq<HelperStep>, turns: nat) {
    turns < |own| && own[turns].Polled? && own[turns].code.Some? && own[turns].code != Some(0)
  }

  /** The answer of the helper before a turn ends the watch with this error. */
  predicate IsUnready(error: Failure, h: HelperStep, due: int) {
    || error == Interrupted
    || (h.Polled? && error == JobError(DatasetHelperFailed) && h.code.Some? && h.code != Some(0))
    || (h.Polled? && error == JobError(DatasetExecutionDeadline) && h.code == None && h.time >= due)
  }

  /**
   Why a watch ended with this error: a status could not be saved, or the helper failed, or its time was
   over, or the last request of a turn that began in time shows the reason.
   */
  ghost predicate EndedBy(
      error: Failure, own: seq<HelperStep>, turns: nat, due: int, asked: seq<Asking>, from: nat, dataset: string,
      pinned: Option<Identity>, mib: nat)
  {
    || IsSaveFailure(error)
    || (error == JobError(DatasetHelperFailed) && ExitedBadly(own, turns))
    || (error == JobError(DatasetExecutionDeadline) && TimedOut(own, turns, due))
    || (exists k | from <= k < |asked| :: TurnFailed(error, asked[k], dataset, pinned, mib))
  }

  lemma EndedGrows(
      error: Failure, own: seq<HelperStep>, later: seq<HelperStep>, turns: nat, due: int, asked: seq<Asking>,
      more: seq<Asking>, from: nat, dataset: string, pinned: Option<Identity>, mib: nat, handler: Result<(), Failure>)
    requires EndedBy(error, own, turns, due, asked, from, dataset, pinned, mib) && asked <= more
    requires handler.Err? ==> !handler.error.JobError?
    ensures EndedBy(error, own + later, turns, due, more, from, dataset, pinned, mib)
    ensures handler.Err? ==> EndedBy(handler.error, own + later, turns, due, more, from, dataset, pinned, mib)
  {
    if k :| from <= k < |asked| && TurnFailed(error, asked[k], dataset, pinned, mib) {
      assert more[k] == asked[k];
    }
  }

  lemma HelperEnded(
      error: Failure, own: seq<HelperStep>, h: HelperStep, due: int, asked: seq<Asking>, from: nat, dataset: string,
      pinned: Option<Identity>, mib: nat)
    requires IsUnready(error, h, due)
    ensures EndedBy(error, own + [h], |own|, due, asked, from, dataset, pinned, mib)
    ensures error == JobError(DatasetExecutionDeadline) ==> TimedOut(own + [h], |own|, due)
  {
  }

  lemma TurnEnded(
      error: Failure, own: seq<HelperStep>, turns: nat, due: int, asked: seq<Asking>, from: nat, dataset: string,
      pinned: Option<Identity>, mib: nat)
    requires IsSaveFailure(error)
             || (from < |asked| && TurnFailed(error, asked[|asked| - 1], dataset, pinned, mib))
    ensures EndedBy(error, own, turns, due, asked, from, dataset, pinned, mib)
    ensures error != JobError(DatasetExecutionDeadline)
  {
  }

  /** So the deadline and the failed helper are what they are called. */
  lemma ErrorsAreTrue(
      error: Failure, own: seq<HelperStep>, turns: nat, due: int, asked: seq<Asking>, from: nat, dataset: string,
      pinned: Option<Identity>, mib: nat)
    requires EndedBy(error, own, turns, due, asked, from, dataset, pinned, mib)
    ensures error == JobError(DatasetExecutionDeadline) ==> TimedOut(own, turns, due)
    ensures error == JobError(DatasetHelperFailed) ==> ExitedBadly(own, turns)
  {
  }

  /**
   The helper's process group is ended: nothing is sent if it exited by itself; else TERM, and KILL only
   if it had 45 seconds and gave no exit code.
   */
  predicate IsReaping(own: seq<HelperStep>) {
    && 1 <= |own| <= 5 && own[0].Polled?
    && (|own| > 1 ==> own[0].code.None? && own[1].GroupSignal? && !own[1].force)
    && (|own| > 2 ==> own[2].Polled?)
    && (|own| > 3 ==> own[2].code.None? && own[3].GroupSignal? && own[3].force && own[3].time >= own[1].time + 45000)
    && (|own| > 4 ==> own[4].Polled?)
  }

  /** The watch failed, and the helper was ended. */
  ghost predicate IsReaped(own: seq<HelperStep>, turns: nat) {
    exists n: nat, code :: n <= |own| && IsPolled(own[..n], turns, code) && IsReaping(own[n..])
  }

  lemma {:induction false} LastCodeOf(a: seq<HelperStep>, b: seq<HelperStep>)
    requires exists i :: 0 <= i < |b| && b[i].Polled?
    ensures LastCode(a + b) == LastCode(b)
  {
    var last := b[|b| - 1];
    assert (a + b)[|a + b| - 1] == last && (a + b)[..|a + b| - 1] == a + b[..|b| - 1];
    if !last.Polled? {
      LastCodeOf(a, b[..|b| - 1]);
    }
  }

  /** What the watch loop asks before a turn: whether the helper exited, and whether there is time left. */
  method AskHelper(m: Machine, end: int) returns (r: Option<Result<(), Failure>>, code: Option<int>)
    modifies m`helper, m`faults
    ensures m.helper == old(m.helper) + [Polled(code, m.w.now)]
    ensures r.None? ==> code.None? && m.w.now < end
    ensures r.Some? && r.value.Ok? ==> code == Some(0)
    ensures r.Some? && r.value.Err? ==> IsUnready(r.value.error, Polled(code, m.w.now), end)
    ensures m.faults >= old(m.faults) && (r == Some(Err(Interrupted)) ==> m.faults > old(m.faults))
  {
    code := PollHelper(m, None);
    var interrupt: bool := *;
    r :=
      if code.Some? then Some(if code.value == 0 then Ok(()) else Err(JobError(DatasetHelperFailed)))
      else if interrupt then Some(Err(Interrupted))
      else if m.w.now >= end then Some(Err(JobError(DatasetExecutionDeadline)))
      else None;
    if r == Some(Err(Interrupted)) {
      m.Fault();
    }
  }

  /** The pause between two turns. */
  method Nap(
      m: Machine, dataset: string, pinned: Option<Identity>, mib: nat, ghost from: nat, ghost start: World,
      ghost polls: seq<Poll>)
    requires m.Valid() && !m.Mine() && Rely(m.steady, start, m.w)
    requires Tracked(m.steady, dataset, mib, m.memory, m.w, pinned)
    requires Watched(m.steady, dataset, mib, m.memory, m.asked, from, start, polls, pinned, m.w)
    modifies m`w, m`slept
    ensures m.Valid() && !m.Mine() && Rely(m.steady, start, m.w) && m.w.now >= old(m.w.now) + 15000
    ensures m.slept == old(m.slept) + 15000
    ensures Tracked(m.steady, dataset, mib, m.memory, m.w, pinned)
    ensures Watched(m.steady, dataset, mib, m.memory, m.asked, from, start, polls, pinned, m.w)
  {
    m.Sleep(15000);
    RelyComposes(m.steady, start, old(m.w), m.w);
    WatchedOn(m.steady, dataset, mib, m.memory, m.asked, m.asked, from, start, polls, pinned, pinned, old(m.w), m.w);
    TrackedStays(m.steady, dataset, mib, m.memory, old(m.w), m.w, pinned);
  }

  /**
   The turns so far: before each the helper was still running, each began before `due` and 15 seconds after
   the one before, and saved a status that shows what it observed.
   */
  ghost predicate IsOnTime(
      own: seq<HelperStep>, polls: seq<Poll>, due: int, saved: seq<Status>, before: seq<Status>, start: Status, state: Status)
  {
    && |own| == |polls| && before <= saved && |saved| == |before| + |polls|
    && state == (if polls == [] then start else saved[|saved| - 1])
    && forall i | 0 <= i < |polls| :: IsTurnAt(own, polls, due, saved, |before|, start, i)
  }

  ghost predicate IsTurnAt(
      own: seq<HelperStep>, polls: seq<Poll>, due: int, saved: seq<Status>, first: nat, start: Status, i: nat)
    requires i < |polls|
  {
    && i < |own| && first + i < |saved|
    && IsTurnOf(polls[..i], own[i], polls[i], due, if i == 0 then start else saved[first + i - 1], saved[first + i])
  }

  /** A turn that began in time after this answer of the helper, and what it changes in the status. */
  ghost predicate IsTurnOf(earlier: seq<Poll>, h: HelperStep, p: Poll, due: int, before: Status, after: Status) {
    && h.Polled? && h.code == None && h.time < due && h.time <= p.probe.seen.now && IsPaused(earlier, h.time)
    && IsAnswered(p)
    && after == before.(observed := Shown(p, before.observed))
  }

  /** The pause after the last turn is over. */
  ghost predicate IsPaused(polls: seq<Poll>, now: int) {
    polls != [] ==> polls[|polls| - 1].end.now + 15000 <= now
  }

  lemma OnTimeNext(
      own: seq<HelperStep>, polls: seq<Poll>, due: int, h: HelperStep, p: Poll, saved: seq<Status>, before: seq<Status>,
      start: Status, state: Status, then': Status)
    requires IsOnTime(own, polls, due, saved, before, start, state) && IsTurnOf(polls, h, p, due, state, then')
    ensures IsOnTime(own + [h], polls + [p], due, saved + [then'], before, start, then')
  {
    var all := polls + [p];
    forall i | 0 <= i < |all| ensures IsTurnAt(own + [h], all, due, saved + [then'], |before|, start, i) {
      assert all[..i] == polls[..i];
      if i < |polls| {
        assert IsTurnAt(own, polls, due, saved, |before|, start, i);
      } else {
        assert polls[..i] == polls;
      }
    }
  }

  /** What it means for turn i. */
  lemma {:induction false} TurnFacts(
      own: seq<HelperStep>, polls: seq<Poll>, due: int, saved: seq<Status>, before: seq<Status>, start: Status,
      state: Status, i: nat)
    requires IsOnTime(own, polls, due, saved, before, start, state) && i < |polls|
    ensures BeganInTime(own, polls, due, i) && TellsTurn(saved, |before|, start.observed, polls, i)
    ensures own[i].Polled? && own[i].code == None
    ensures saved[|before| + i] == start.(observed := saved[|before| + i].observed)
  {
    assert IsTurnAt(own, polls, due, saved, |before|, start, i);
    if i > 0 {
      TurnFacts(own, polls, due, saved, before, start, state, i - 1);
    }
  }

  /** What it means for all turns. */
  lemma OnTimeFacts(
      own: seq<HelperStep>, polls: seq<Poll>, due: int, saved: seq<Status>, before: seq<Status>, start: Status, state: Status)
    requires IsOnTime(own, polls, due, saved, before, start, state)
    ensures WasRunning(own, |polls|) && InTime(own, polls, due)
    ensures OnlyProgress(before, saved, start) && TellsAll(saved, |before|, start.observed, polls)
    ensures state == start.(observed := state.observed)
  {
    forall i | 0 <= i < |polls|
      ensures BeganInTime(own, polls, due, i) && TellsTurn(saved, |before|, start.observed, polls, i)
      ensures own[i].Polled? && own[i].code == None
    {
      TurnFacts(own, polls, due, saved, before, start, state, i);
    }
    forall j | |before| <= j < |saved| ensures saved[j] == start.(observed := saved[j].observed) {
      TurnFacts(own, polls, due, saved, before, start, state, j - |before|);
    }
  }

  /** What is known when the watch has ended: all but the last turn, at most, have their status. */
  ghost predicate HasEnded(
      own: seq<HelperStep>, polls: seq<Poll>, code: Option<int>, due: int, saved: seq<Status>, before: seq<Status>,
      start: Status, state: Status)
  {
    && InTime(own, polls, due) && IsPolled(own, |polls|, code)
    && |before| + |polls| - 1 <= |saved| <= |before| + |polls| && OnlyProgress(before, saved, start)
    && TellsAll(saved, |before|, start.observed, polls) && state == start.(observed := state.observed)
  }

  /** The helper's last answer leads to no further turn. */
  lemma OnTimeEnds(
      own: seq<HelperStep>, polls: seq<Poll>, due: int, h: HelperStep, saved: seq<Status>, before: seq<Status>,
      start: Status, state: Status)
    requires IsOnTime(own, polls, due, saved, before, start, state) && h.Polled?
    ensures |own| == |polls| && HasEnded(own + [h], polls, h.code, due, saved, before, start, state)
    ensures h.code == Some(0) ==> IsExit(own + [h], |polls|) && |saved| == |before| + |polls|
  {
    OnTimeFacts(own, polls, due, saved, before, start, state);
    InTimeGrows(own, polls, due, [h]);
  }

  lemma WatchEnds(
      r: Result<(), Failure>, own: seq<HelperStep>, polls: seq<Poll>, due: int, h: HelperStep, saved: seq<Status>,
      before: seq<Status>, start: Status, state: Status, asked: seq<Asking>, from: nat, dataset: string,
      pinned: Option<Identity>, mib: nat)
    requires IsOnTime(own, polls, due, saved, before, start, state) && h.Polled?
    requires if r.Ok? then h.code == Some(0) else IsUnready(r.error, h, due)
    ensures HasEnded(own + [h], polls, h.code, due, saved, before, start, state) && |own| == |polls|
    ensures r == Err(JobError(DatasetExecutionDeadline)) ==> TimedOut(own + [h], |polls|, due)
    ensures r.Err? ==> EndedBy(r.error, own + [h], |polls|, due, asked, from, dataset, pinned, mib)
    ensures r.Ok? ==> IsExit(own + [h], |polls|) && |saved| == |before| + |polls|
  {
    OnTimeEnds(own, polls, due, h, saved, before, start, state);
    if r.Err? {
      HelperEnded(r.error, own, h, due, asked, from, dataset, pinned, mib);
    }
  }

  /** The status of the last turn could not be saved. */
  lemma UnsavedEnds(
      own: seq<HelperStep>, polls: seq<Poll>, due: int, h: HelperStep, p: Poll, saved: seq<Status>, before: seq<Status>,
      start: Status, state: Status, then': Status)
    requires IsOnTime(own, polls, due, saved, before, start, state) && IsTurnOf(polls, h, p, due, state, then')
    ensures HasEnded(own + [h], polls + [p], None, due, saved, before, start, then')
  {
    OnTimeFacts(own, polls, due, saved, before, start, state);
    InTimeOn(own, polls, due, h, polls + [p]);
    TellsOneMore(saved, saved, |before|, start.observed, polls, p);
  }

  /** A turn that was made goes on or ends the watch; one that was not made ends it. */
  lemma TurnIsOver(
      ok: bool, own: seq<HelperStep>, polls: seq<Poll>, due: int, h: HelperStep, told: Option<Poll>, saved: seq<Status>,
      more: seq<Status>, before: seq<Status>, start: Status, state: Status, then': Status)
    requires IsOnTime(own, polls, due, saved, before, start, state) && h.Polled? && h.code == None
    requires told.Some? ==> IsTurnOf(polls, h, told.value, due, state, then')
    requires if ok then told.Some? && more == saved + [then'] else more == saved && (told.None? ==> then' == state)
    ensures var all := if told.None? then polls else polls + [told.value];
            if ok then IsOnTime(own + [h], all, due, more, before, start, then')
            else HasEnded(own + [h], all, None, due, more, before, start, then')
  {
    if told.None? {
      OnTimeEnds(own, polls, due, h, saved, before, start, state);
    } else if ok {
      OnTimeNext(own, polls, due, h, told.value, saved, before, start, state, then');
    } else {
      UnsavedEnds(own, polls, due, h, told.value, saved, before, start, state, then');
    }
  }

  /** One turn after the helper's answer that it is still running. */
  method WatchOnce(
      m: Machine, job: Job, dataset: string, pinned: Option<Identity>, mib: nat, ghost h: HelperStep,
      ghost own: seq<HelperStep>, ghost polls: seq<Poll>, ghost due: int, ghost from: nat, ghost start: World,
      ghost saved: seq<Status>, ghost state: Status)
    returns (r: Result<(), Failure>, now: Option<Identity>, ghost more: seq<Poll>)
    requires m.Valid() && !m.Mine() && from <= |m.asked|
    requires Tracked(m.steady, dataset, mib, m.memory, m.w, pinned) && pinned == PinnedBy(polls)
    requires Watched(m.steady, dataset, mib, m.memory, m.asked, from, start, polls, pinned, m.w)
    requires IsOnTime(own, polls, due, job.saved, saved, state, job.state) && IsPaused(polls, m.w.now)
    requires h == Polled(None, m.w.now) && m.w.now < due
    modifies m`w, m`asked, job`state, job`saved, m`faults
    ensures m.Valid() && !m.Mine() && Rely(m.steady, old(m.w), m.w) && OnlyTouches(old(m.asked), m.asked, now)
    ensures Watched(m.steady, dataset, mib, m.memory, m.asked, from, start, more, now, m.w)
    ensures pinned.Some? ==> now == pinned
    ensures r.Ok? ==>
              && Tracked(m.steady, dataset, mib, m.memory, m.w, now) && now == PinnedBy(more)
              && IsOnTime(own + [h], more, due, job.saved, saved, state, job.state) && IsPaused(more, m.w.now + 15000)
    ensures r.Err? ==>
              && HasEnded(own + [h], more, None, due, job.saved, saved, state, job.state)
              && EndedBy(r.error, own + [h], |more|, due, m.asked, from, dataset, now, mib)
              && r.error != JobError(DatasetExecutionDeadline)
    ensures m.faults >= old(m.faults) && (r.Err? && IsFault(r.error) ==> m.faults > old(m.faults))
  {
    ghost var told;
    r, now, more, told := Turn(m, job, dataset, pinned, mib, from, start, polls);
    TurnIsOver(r.Ok?, own, polls, due, h, told, old(job.saved), job.saved, saved, state, old(job.state), job.state);
    if r.Err? {
      TurnEnded(r.error, own + [h], |more|, due, m.asked, from, dataset, now, mib);
    }
  }

  /** The same, with the pause behind it. */
  method WatchAndNap(
      m: Machine, job: Job, dataset: string, pinned: Option<Identity>, mib: nat, ghost h: HelperStep,
      ghost own: seq<HelperStep>, ghost polls: seq<Poll>, ghost due: int, ghost from: nat, ghost start: World,
      ghost saved: seq<Status>, ghost state: Status)
    returns (r: Result<(), Failure>, now: Option<Identity>, ghost more: seq<Poll>)
    requires m.Valid() && !m.Mine() && from <= |m.asked| && Rely(m.steady, start, m.w)
    requires Tracked(m.steady, dataset, mib, m.memory, m.w, pinned) && pinned == PinnedBy(polls)
    requires Watched(m.steady, dataset, mib, m.memory, m.asked, from, start, polls, pinned, m.w)
    requires IsOnTime(own, polls, due, job.saved, saved, state, job.state) && IsPaused(polls, m.w.now)
    requires h == Polled(None, m.w.now) && m.w.now < due
    modifies m`w, m`asked, job`state, job`saved, m`faults, m`slept
    ensures m.Valid() && !m.Mine() && Rely(m.steady, start, m.w) && OnlyTouches(old(m.asked), m.asked, now)
    ensures Watched(m.steady, dataset, mib, m.memory, m.asked, from, start, more, now, m.w)
    ensures pinned.Some? ==> now == pinned
    ensures r.Ok? ==>
              && Tracked(m.steady, dataset, mib, m.memory, m.w, now) && now == PinnedBy(more)
              && IsOnTime(own + [h], more, due, job.saved, saved, state, job.state) && IsPaused(more, m.w.now)
              && m.w.now > old(m.w.now) && m.slept == old(m.slept) + 15000
    ensures r.Err? ==>
              && HasEnded(own + [h], more, None, due, job.saved, saved, state, job.state)
              && EndedBy(r.error, own + [h], |more|, due, m.asked, from, dataset, now, mib)
              && r.error != JobError(DatasetExecutionDeadline) && m.slept == old(m.slept)
    ensures m.faults >= old(m.faults) && (r.Err? && IsFault(r.error) ==> m.faults > old(m.faults))
  {
    r, now, more := WatchOnce(m, job, dataset, pinned, mib, h, own, polls, due, from, start, saved, state);
    RelyComposes(m.steady, start, old(m.w), m.w);
    if r.Ok? {
      Nap(m, dataset, now, mib, from, start, more);
    }
  }

  /**
   The watch loop. It returns normally only when the helper answered that it exited with code 0. Whatever
   happens in between, everything it did in the container was done to the one process it pinned first.
   The helper is asked before every turn, and every turn has a guarded look of its own and a status that
   shows what it observed. Every turn began before `seconds` were over, and the deadline ends the watch
   only when they are. Between two turns it sleeps 15 seconds. (All times of the model, `seconds` too, are in milliseconds.)
   */
  method Watch(m: Machine, job: Job, dataset: string, seconds: nat, mib: nat)
    returns (
      r: Result<(), Failure>, pinned: Option<Identity>, code: Option<int>, ghost polls: seq<Poll>,
      ghost own: seq<HelperStep>)
    requires m.Valid() && !m.Mine()
    modifies m`w, m`asked, m`helper, job`state, job`saved, m`faults, m`slept
    ensures m.Valid() && !m.Mine() && Rely(m.steady, old(m.w), m.w)
    ensures OnlyTouches(old(m.asked), m.asked, pinned)
    ensures Watched(m.steady, dataset, mib, m.memory, m.asked, |old(m.asked)|, old(m.w), polls, pinned, m.w)
    ensures m.helper == old(m.helper) + own && m.slept == old(m.slept) + 15000 * (|own| - 1)
    ensures HasEnded(own, polls, code, old(m.w.now) + seconds, job.saved, old(job.saved), old(job.state), job.state)
    ensures r == Err(JobError(DatasetExecutionDeadline)) ==> TimedOut(own, |polls|, old(m.w.now) + seconds)
    ensures r.Err? ==> EndedBy(r.error, own, |polls|, old(m.w.now) + seconds, m.asked, |old(m.asked)|, dataset, pinned, mib)
    ensures r.Ok? ==> IsExit(own, |polls|) && code == Some(0) && |job.saved| == |old(job.saved)| + |polls|
    ensures m.faults >= old(m.faults) && (r.Err? && IsFault(r.error) ==> m.faults > old(m.faults))
  {
    RelyReflexive(m.steady, m.w);
    pinned, code, polls, own := None, None, [], [];
    var end := m.w.now + seconds;
    ghost var start, due := m.w, m.w.now + seconds;
    while true
      invariant m.Valid() && !m.Mine() && Rely(m.steady, start, m.w) && OnlyTouches(old(m.asked), m.asked, pinned)
      invariant Watched(m.steady, dataset, mib, m.memory, m.asked, |old(m.asked)|, start, polls, pinned, m.w)
      invariant Tracked(m.steady, dataset, mib, m.memory, m.w, pinned) && pinned == PinnedBy(polls)
      invariant m.helper == old(m.helper) + own && m.slept == old(m.slept) + 15000 * |own| && IsPaused(polls, m.w.now)
      invariant IsOnTime(own, polls, due, job.saved, old(job.saved), old(job.state), job.state) && m.faults >= old(m.faults)
      decreases end - m.w.now
    {
      label turn:
      ghost var before := pinned;
      var ends;
      ends, code := AskHelper(m, end);
      ghost var h := Polled(code, m.w.now);
      Regrouped(old(m.helper), own, [h]);
      if ends.Some? {
        WatchEnds(ends.value, own, polls, due, h, job.saved, old(job.saved), old(job.state), job.state, m.asked,
          |old(m.asked)|, dataset, pinned, mib);
        r, own := ends.value, own + [h];
        return;
      }
      r, pinned, polls := WatchAndNap(m, job, dataset, pinned, mib, h, own, polls, due, |old(m.asked)|, start, old(job.saved),
        old(job.state));
      TouchesCompose(old(m.asked), old@turn(m.asked), m.asked, before, pinned);
      own := own + [h];
      if r.Err? {
        return;
      }
    }
  }

  /**
   Ends the helper's process group: TERM, a wait of at most 45 seconds, then KILL and a wait of at most
   15. It is not signalled if it ended by itself; a signal or a wait may still raise.
   */
  method ReapHelper(m: Machine, code: Option<int>) returns (r: Result<(), Failure>, ghost own: seq<HelperStep>)
    requires m.Valid()
    modifies m`w, m`helper, m`faults, m`slept
    ensures m.Valid() && Rely(m.steady, old(m.w), m.w) && m.Mine() == old(m.Mine())
    ensures m.helper == old(m.helper) + own && IsReaping(own)
    ensures code.Some? ==> r.Ok? && |own| == 1 && own[0].code == code
    ensures r.Ok? <==> LastCode(own).Some?
    ensures r.Err? ==> !r.error.JobError? && (|own| == 5 ==> m.w.now >= own[3].time + 15000)
    ensures m.slept <= old(m.slept) + 60000
    ensures m.faults >= old(m.faults) && (r.Err? && IsFault(r.error) ==> m.faults > old(m.faults))
  {
    m.Interfere();
    var now := PollHelper(m, code);
    own := [Polled(now, m.w.now)];
    if now.Some? {
      return Ok(()), own;
    }
    var refused: bool := *;
    if refused {
      m.Fault();
      return Err(OtherError), own;
    }
    own := own + [GroupSignal(false, m.w.now)];
    m.helper := old(m.helper) + own;
    var interrupt: bool := *;
    if interrupt {
      m.Fault();
      return Err(Interrupted), own;
    }
    label patience:
    var spent: nat :| spent <= 45000;
    m.Sleep(spent);
    RelyComposes(m.steady, old(m.w), old@patience(m.w), m.w);
    now := PollHelper(m, now);
    own := own + [Polled(now, m.w.now)];
    if now.Some? {
      return Ok(()), own;
    }
    r, own := KillHelper(m, own, spent, old(m.w), old(m.helper));
  }

  /** The second half: a helper that outlived its 45 seconds is killed. */
  method KillHelper(m: Machine, ghost half: seq<HelperStep>, spent: nat, ghost start: World, ghost before: seq<HelperStep>)
    returns (r: Result<(), Failure>, ghost own: seq<HelperStep>)
    requires m.Valid() && Rely(m.steady, start, m.w) && m.helper == before + half
    requires IsReaping(half) && |half| == 3 && half[2].code.None? && spent <= 45000 && half[1].time + spent <= m.w.now
    modifies m`w, m`helper, m`faults, m`slept
    ensures m.Valid() && Rely(m.steady, start, m.w) && m.Mine() == old(m.Mine())
    ensures m.helper == before + own && IsReaping(own)
    ensures r.Ok? <==> LastCode(own).Some?
    ensures r.Err? ==> !r.error.JobError? && (|own| == 5 ==> m.w.now >= own[3].time + 15000)
    ensures m.slept <= old(m.slept) + 60000 - spent
    ensures m.faults >= old(m.faults) && (r.Err? && IsFault(r.error) ==> m.faults > old(m.faults))
  {
    own := half;
    m.Sleep(45000 - spent);
    RelyComposes(m.steady, start, old(m.w), m.w);
    var refused: bool := *;
    if refused {
      m.Fault();
      return Err(OtherError), own;
    }
    own := own + [GroupSignal(true, m.w.now)];
    m.helper := before + own;
    label last:
    var rest: nat :| rest <= 15000;
    m.Sleep(rest);
    RelyComposes(m.steady, start, old@last(m.w), m.w);
    var now := PollHelper(m, None);
    own := own + [Polled(now, m.w.now)];
    if now.None? {
      label gone:
      m.Sleep(15000 - rest);
      RelyComposes(m.steady, start, old@gone(m.w), m.w);
      m.Fault();
      return Err(OtherError), own;
    }
    r := Ok(());
  }

  /** The last requests from some place on are a whole stop of this import, and this says whether it was interrupted. */
  ghost predicate StopWasAsked(asked: seq<Asking>, from: nat, dataset: string, id: Identity, mib: int, broken: bool) {
    exists n: nat :: from <= n < |asked| && IsStopping(asked[n..], dataset, id, mib)
                     && (broken <==> StopVerdict(asked[n..]) == Err(Interrupted))
  }

  lemma WasAsked(
      before: seq<Asking>, own: seq<Asking>, from: nat, dataset: string, pinned: Option<Identity>, mib: int, broken: bool)
    requires from <= |before| && (pinned.Some? ==> IsStopping(own, dataset, pinned.value, mib))
    requires pinned.Some? ==> (broken <==> StopVerdict(own) == Err(Interrupted))
    ensures pinned.Some? ==> StopWasAsked(before + own, from, dataset, pinned.value, mib, broken)
  {
    assert (before + own)[|before|..] == own;
  }

  lemma PolledAndReaped(a: seq<HelperStep>, b: seq<HelperStep>, turns: nat, code: Option<int>)
    requires IsPolled(a, turns, code) && IsReaping(b)
    ensures IsReaped(a + b, turns) && LastCode(a + b) == LastCode(b)
  {
    assert (a + b)[..|a|] == a && (a + b)[|a|..] == b;
    LastCodeOf(a, b);
  }

  /** The handler: the import is stopped, the helper is ended, and only what they raise beside a failed stop matters. */
  method Handle(
      m: Machine, dataset: string, pinned: Option<Identity>, code: Option<int>, mib: nat, ghost from: nat, ghost start: World,
      ghost polls: seq<Poll>, ghost before: seq<Asking>)
    returns (r: Result<(), Failure>, ghost own: seq<HelperStep>, ghost broken: bool)
    requires m.Valid() && !m.Mine() && Rely(m.steady, start, m.w) && OnlyTouches(before, m.asked, pinned)
    requires Watched(m.steady, dataset, mib, m.memory, m.asked, from, start, polls, pinned, m.w)
    modifies m`w, m`asked, m`helper, m`faults, m`slept
    ensures m.Valid() && !m.Mine() && Rely(m.steady, start, m.w) && OnlyTouches(before, m.asked, pinned)
    ensures Watched(m.steady, dataset, mib, m.memory, m.asked, from, start, polls, pinned, m.w)
    ensures old(m.asked) <= m.asked
    ensures m.helper == old(m.helper) + own && IsReaping(own)
    ensures pinned.Some? ==> StopWasAsked(m.asked, |before|, dataset, pinned.value, mib, broken)
    ensures r.Err? <==> LastCode(own).None? || broken
    ensures r.Err? ==> !r.error.JobError?
    ensures m.slept <= old(m.slept) + 90000
    ensures m.faults >= old(m.faults) && (r.Err? && IsFault(r.error) ==> m.faults > old(m.faults))
  {
    var stop, stopping := StopImport(m, dataset, pinned, mib);
    broken := stop == Err(Interrupted);
    WasAsked(old(m.asked), stopping, |before|, dataset, pinned, mib, broken);
    TouchesCompose(before, old(m.asked), m.asked, pinned, pinned);
    RelyComposes(m.steady, start, old(m.w), m.w);
    label stopped:
    r, own := ReapHelper(m, code);
    RelyComposes(m.steady, start, old@stopped(m.w), m.w);
    RelyComposes(m.steady, old(m.w), old@stopped(m.w), m.w);
    WatchedOn(m.steady, dataset, mib, m.memory, old(m.asked), m.asked, from, start, polls, pinned, pinned,
      old(m.w), m.w);
    // A failure to stop is only printed; an interrupt replaces the error that is being handled.
    if r.Ok? && stop == Err(Interrupted) {
      r := stop;
    }
  }

  /**
   The part of the run between starting the helper and a normal exit of it, with its handler: after a
   failure the pinned import is stopped first, and then the helper is ended.
   */
  method RunHelper(m: Machine, job: Job, dataset: string, seconds: nat, mib: nat)
    returns (r: Result<(), Failure>, pinned: Option<Identity>, ghost polls: seq<Poll>, ghost own: seq<HelperStep>)
    requires m.Valid() && !m.Mine()
    modifies m`w, m`asked, m`helper, job`state, job`saved, m`faults, m`slept
    ensures m.Valid() && !m.Mine() && Rely(m.steady, old(m.w), m.w)
    ensures OnlyTouches(old(m.asked), m.asked, pinned)
    ensures Watched(m.steady, dataset, mib, m.memory, m.asked, |old(m.asked)|, old(m.w), polls, pinned, m.w)
    ensures m.helper == old(m.helper) + own && if r.Ok? then IsExit(own, |polls|) else IsReaped(own, |polls|)
    ensures InTime(own, polls, old(m.w.now) + seconds)
    ensures r == Err(JobError(DatasetExecutionDeadline)) ==> TimedOut(own, |polls|, old(m.w.now) + seconds)
    ensures r.Err? ==> EndedBy(r.error, own, |polls|, old(m.w.now) + seconds, m.asked, |old(m.asked)|, dataset, pinned, mib)
    ensures r.Err? && pinned.Some? ==>
              exists broken | StopWasAsked(m.asked, |old(m.asked)|, dataset, pinned.value, mib, broken) ::
                broken ==> !r.error.JobError?
    ensures r.Err? && r.error.JobError? ==> LastCode(own).Some?
    ensures m.slept <= old(m.slept) + 15000 * |polls| + (if r.Ok? then 0 else 90000)
    ensures |job.saved| <= |old(job.saved)| + |polls| && (r.Ok? ==> |job.saved| == |old(job.saved)| + |polls|)
    ensures job.state == old(job.state).(observed := job.state.observed)
    ensures OnlyProgress(old(job.saved), job.saved, old(job.state))
    ensures TellsAll(job.saved, |old(job.saved)|, old(job.state.observed), polls)
    ensures m.faults >= old(m.faults) && (r.Err? && IsFault(r.error) ==> m.faults > old(m.faults))
  {
    var code;
    r, pinned, code, polls, own := Watch(m, job, dataset, seconds, mib);
    if r.Err? {
      label ended:
      var ended;
      ghost var reaping, broken;
      ended, reaping, broken := Handle(m, dataset, pinned, code, mib, |old(m.asked)|, old(m.w), polls, old(m.asked));
      Regrouped(old(m.helper), own, reaping);
      PolledAndReaped(own, reaping, |polls|, code);
      InTimeGrows(own, polls, old(m.w.now) + seconds, reaping);
      EndedGrows(r.error, own, reaping, |polls|, old(m.w.now) + seconds, old@ended(m.asked), m.asked, |old(m.asked)|, dataset,
        pinned, mib, ended);
      own := own + reaping;
      r := if ended.Err? then ended else r;
    }
  }

  // ---------------------------------------------------------------------------------------------
  // One dataset
  // ---------------------------------------------------------------------------------------------

  /** What the three places held, at this moment, when the check was refused under the lock. */
  ghost predicate Refused(error: Failure, at: World, dataset: string) {
    && at.lock == Controller
    && (|| (error == JobError(DatasetVerificationMissingOrAmbiguous) && IsIncomplete(at.store, dataset))
        || (error == JobError(DatasetDigestMismatch) && !IsIncomplete(at.store, dataset)
            && forall b :: !Agrees(at.store[dataset], b)))
  }

  /**
   Why a check failed between these two moments: a fault, or the lock was held by others for a minute, or
   at one moment under the lock the three places did not hold one verified digest.
   */
  ghost predicate CheckExplains(steady: bool, error: Failure, start: World, at: World, now: World, dataset: string) {
    || IsFault(error)
    || (error == JobError(MaintenanceBusy) && now.now >= start.now + 60000 && WasBusy(steady, start, at, now))
    || (Rely(steady, start, at) && Refused(error, at, dataset))
  }

  ghost predicate CheckExplained(steady: bool, error: Failure, start: World, now: World, dataset: string) {
    exists at :: CheckExplains(steady, error, start, at, now, dataset)
  }

  lemma CheckExplainedSince(steady: bool, error: Failure, earlier: World, start: World, now: World, dataset: string)
    requires Rely(steady, earlier, start) && CheckExplained(steady, error, start, now, dataset)
    ensures CheckExplained(steady, error, earlier, now, dataset)
  {
    var at :| CheckExplains(steady, error, start, at, now, dataset);
    if Rely(steady, start, at) {
      RelyComposes(steady, earlier, start, at);
    }
    assert CheckExplains(steady, error, earlier, at, now, dataset);
  }

  /** The wait ended without an idle moment. */
  ghost predicate NotIdle(steady: bool, start: World, asked: seq<Asking>, now: World) {
    exists at :: WasNotIdle(steady, start, at, asked, now)
  }

  /** What a check can raise. */
  predicate IsCheckFailure(f: Failure) {
    IsVerifyFailure(f) || f == JobError(MaintenanceBusy) || f == JobError(ApplicationHealthCheckFailed)
  }

  /** What a check learns of the health of the application: nothing, unless it is asked, and all is well up to then. */
  function HealthNotes(r: Result<Batch, Failure>, checkHealth: bool): seq<Note> {
    if checkHealth && (r.Ok? || r.error == JobError(ApplicationHealthCheckFailed)) then [Healthy(r.Ok?)] else []
  }

  /**
   The verification after the helper exited, with the lock held from before to after it. It waits a
   minute for the lock. A refusal speaks of the state of the store at the moment when it was made.
   */
  method VerifyUnderLock(m: Machine, dataset: string, checkHealth: bool) returns (r: Result<Batch, Failure>)
    requires m.Valid() && !m.Mine()
    modifies m`w, m`checks, m`faults, m`slept, m`notes
    ensures m.Valid() && !m.Mine() && Rely(m.steady, old(m.w), m.w)
    ensures m.notes == old(m.notes) + HealthNotes(r, checkHealth) && m.slept <= old(m.slept) + 60000
    ensures old(m.checks) <= m.checks
    ensures r.Ok? ==> exists c :: m.checks == old(m.checks) + [c] && Shows(c, dataset, r.value)
                        && Rely(m.steady, old(m.w), c.at) && Rely(m.steady, c.at.(lock := Free), m.w)
    ensures r.Err? ==> CheckExplained(m.steady, r.error, old(m.w), m.w, dataset)
    ensures r.Err? ==> IsCheckFailure(r.error)
    ensures r == Err(JobError(ApplicationHealthCheckFailed)) ==> checkHealth
    ensures m.faults >= old(m.faults) && (r.Err? && IsFault(r.error) ==> m.faults > old(m.faults))
  {
    var locked, free, _ := m.FileLock(60000);
    ghost var at := free;
    if locked.Err? {
      assert CheckExplains(m.steady, locked.error, old(m.w), at, m.w, dataset);
      return Err(locked.error);
    }
    label held:
    r := m.VerifyDataset(dataset);
    RelyComposes(m.steady, old(m.w), old@held(m.w), m.w);
    if r.Ok? && checkHealth {
      var healthy := m.Learn(so => Healthy(so));
      if !healthy {
        m.Fault();
        assert m.checks[..|m.checks| - 1] == old(m.checks);
        r := Err(JobError(ApplicationHealthCheckFailed));
      }
    }
    at := m.w;
    Released(m.steady, old(m.w), m.w);
    RelyReflexive(m.steady, m.w);
    Released(m.steady, m.w, m.w);
    m.Unlock();
    assert r.Err? ==> CheckExplains(m.steady, r.error, old(m.w), at, m.w, dataset);
  }

  lemma EvidenceExtends(verified: map<string, Batch>, checks: seq<Check>, c: Check)
    requires Evidence(verified, checks) && Proves(c)
    ensures Evidence(verified, checks + [c]) && Evidence(verified[c.dataset := c.batch], checks + [c])
  {
    assert (checks + [c])[|checks|] == c;
    EvidenceGrows(verified, checks, checks + [c]);
    assert Shows(c, c.dataset, c.batch);
  }

  lemma EvidenceGrows(verified: map<string, Batch>, checks: seq<Check>, more: seq<Check>)
    requires Evidence(verified, checks) && checks <= more
    ensures Evidence(verified, more)
  {
    forall d | d in verified ensures exists e | e in more :: Shows(e, d, verified[d]) {
      var e :| e in checks && Shows(e, d, verified[d]);
      assert e in more;
    }
  }

  lemma NewEvidence(
      verified: map<string, Batch>, checks: seq<Check>, more: seq<Check>, dataset: string, batch: Batch)
    requires Evidence(verified, checks) && exists c :: more == checks + [c] && Shows(c, dataset, batch)
    ensures Evidence(verified[dataset := batch], more)
  {
    var c :| more == checks + [c] && Shows(c, dataset, batch);
    EvidenceExtends(verified, checks, c);
  }

  /** Every status written since `before` is one of the two records, in this phase and for this dataset. */
  ghost predicate OnlyThese(
      before: seq<Status>, saved: seq<Status>, phase: Phase, dataset: Option<string>, old': map<string, Batch>,
      new': map<string, Batch>)
  {
    && before <= saved
    && forall i | |before| <= i < |saved| ::
         saved[i].phase == phase && saved[i].dataset == dataset && (saved[i].verified == old' || saved[i].verified == new')
  }

  /** What changes in the record of verified datasets while one dataset is run. */
  predicate Records(before: map<string, Batch>, after: map<string, Batch>, dataset: string) {
    dataset in after && after == before[dataset := after[dataset]]
  }

  /** At most the health of the application was asked for; a dataset is recorded only when it was good. */
  predicate IsNoted(before: seq<Note>, after: seq<Note>, recorded: bool) {
    after == before + [Healthy(true)] || (!recorded && (after == before || after == before + [Healthy(false)]))
  }

  /** Adds the dataset to the record once its publication was verified. */
  method RecordVerified(m: Machine, job: Job, dataset: string) returns (r: Result<(), Failure>)
    requires m.Valid() && !m.Mine() && Evidence(job.state.verified, m.checks)
    modifies m`w, m`checks, job, m`faults, m`slept, m`notes
    ensures m.Valid() && !m.Mine() && Rely(m.steady, old(m.w), m.w)
    ensures old(m.checks) <= m.checks && Evidence(job.state.verified, m.checks)
    ensures job.state == old(job.state).(verified := job.state.verified)
    ensures job.state.verified == old(job.state.verified) || Records(old(job.state.verified), job.state.verified, dataset)
    ensures r.Ok? ==> Records(old(job.state.verified), job.state.verified, dataset)
    ensures IsNoted(old(m.notes), m.notes, r.Ok? || job.state.verified != old(job.state.verified))
    ensures r.Err? ==> CheckExplained(m.steady, r.error, old(m.w), m.w, dataset)
    ensures OnlyProgress(old(job.saved), job.saved, job.state)
    ensures |job.saved| == |old(job.saved)| + (if r.Ok? then 1 else 0)
    ensures m.faults >= old(m.faults) && (r.Err? && IsFault(r.error) ==> m.faults > old(m.faults))
  {
    var verified := VerifyUnderLock(m, dataset, true);
    EvidenceGrows(job.state.verified, old(m.checks), m.checks);
    if verified.Err? {
      return Err(verified.error);
    }
    NewEvidence(job.state.verified, old(m.checks), m.checks, dataset, verified.value);
    job.state := job.state.(verified := job.state.verified[dataset := verified.value]);
    r := job.SaveStatus(m);
    assert r.Err? ==> CheckExplains(m.steady, r.error, old(m.w), m.w, m.w, dataset);
  }

  /** One dataset from the start of its helper to the record. */
  method ImportAndRecord(m: Machine, job: Job, dataset: string, seconds: nat, mib: nat)
    returns (r: Result<(), Failure>, ghost pinned: Option<Identity>, ghost polls: seq<Poll>, ghost own: seq<HelperStep>)
    requires m.Valid() && !m.Mine() && Evidence(job.state.verified, m.checks)
    modifies m, job
    ensures m.Valid() && !m.Mine() && Rely(m.steady, old(m.w), m.w)
    ensures OnlyTouches(old(m.asked), m.asked, pinned)
    ensures Watched(m.steady, dataset, mib, m.memory, m.asked, |old(m.asked)|, old(m.w), polls, pinned, m.w)
    ensures m.helper == old(m.helper) + own && (IsExit(own, |polls|) || IsReaped(own, |polls|))
    ensures InTime(own, polls, old(m.w.now) + seconds)
    ensures r.Err? ==>
              || (IsExit(own, |polls|) && CheckExplained(m.steady, r.error, old(m.w), m.w, dataset))
              || EndedBy(r.error, own, |polls|, old(m.w.now) + seconds, m.asked, |old(m.asked)|, dataset, pinned, mib)
    ensures |job.saved| <= |old(job.saved)| + |polls| + 1 && (r.Ok? ==> |job.saved| == |old(job.saved)| + |polls| + 1)
    ensures r.Err? && r.error.JobError? ==> LastCode(own).Some?
    ensures old(m.checks) <= m.checks && Evidence(job.state.verified, m.checks)
    ensures IsNoted(old(m.notes), m.notes, r.Ok? || job.state.verified != old(job.state.verified))
    ensures job.state.phase == old(job.state.phase) && job.state.dataset == old(job.state.dataset)
    ensures r.Ok? ==> IsExit(own, |polls|) && Records(old(job.state.verified), job.state.verified, dataset)
    ensures job.state.verified == old(job.state.verified)
            || (IsExit(own, |polls|) && Records(old(job.state.verified), job.state.verified, dataset))
    ensures OnlyThese(old(job.saved), job.saved, job.state.phase, job.state.dataset, old(job.state.verified),
                      job.state.verified)
    ensures m.faults >= old(m.faults) && (r.Err? && IsFault(r.error) ==> m.faults > old(m.faults))
  {
    r, pinned, polls, own := RunHelper(m, job, dataset, seconds, mib);
    if r.Ok? {
      label check:
      r := RecordVerified(m, job, dataset);
      if r.Err? {
        CheckExplainedSince(m.steady, r.error, old(m.w), old@check(m.w), m.w, dataset);
      }
      RelyComposes(m.steady, old(m.w), old@check(m.w), m.w);
      WatchedOn(m.steady, dataset, mib, m.memory, m.asked, m.asked, |old(m.asked)|, old(m.w), polls, pinned, pinned,
        old@check(m.w), m.w);
    }
  }

  /**
   How one dataset was run: how many requests there were before it, and the world then; the world in
   which the lock was free before the last idle moment; how many requests there were when the helper was
   started, and the world then; the world at the end; the process that was pinned, the turns of the
   watch, and what was done with the helper.
   */
  datatype DatasetRun = DatasetRun(
    dataset: string, first: nat, entry: World, free: World, from: nat, begin: World, end: World,
    pinned: Option<Identity>, polls: seq<Poll>, steps: seq<HelperStep>)

  /** The last request before the helper was started was the probe of an idle moment. */
  ghost predicate FollowsIdle(steady: bool, asked: seq<Asking>, run: DatasetRun) {
    run.first < run.from <= |asked| && IsIdleMoment(steady, run.entry, run.free, asked[run.from - 1], run.begin)
  }

  /**
   The helper was started after an idle moment and watched until it exited or was ended, with every turn
   within its time; or it was not started.
   */
  ghost predicate IsWatchedRun(steady: bool, seconds: nat, mib: nat, memory: Memory, asked: seq<Asking>, run: DatasetRun) {
    && run.first <= run.from <= |asked| && Rely(steady, run.entry, run.begin)
    && Watched(steady, run.dataset, mib, memory, asked, run.from, run.begin, run.polls, run.pinned, run.end)
    && if run.steps == [] then run.polls == []
       else
         && run.steps[0] == Launched(run.dataset, run.begin) && FollowsIdle(steady, asked, run)
         && (IsExit(run.steps[1..], |run.polls|) || IsReaped(run.steps[1..], |run.polls|))
         && InTime(run.steps[1..], run.polls, run.begin.now + seconds)
  }

  /** The helper was started, and the watch ended with its exit with 0. */
  predicate IsClean(run: DatasetRun) {
    run.steps != [] && run.steps[0].Launched? && IsExit(run.steps[1..], |run.polls|)
  }

  /**
   Why the run of a dataset ended with this error: before the helper was started, while it was watched, or
   in the check after its exit with 0.
   */
  ghost predicate RunExplains(
      steady: bool, error: Failure, asked: seq<Asking>, run: DatasetRun, wait: nat, seconds: nat, mib: nat)
  {
    if run.steps == [] then
      || IsFault(error)
      || (error == JobError(MaintenanceWaitExpired) && run.end.now >= run.entry.now + wait
          && NotIdle(steady, run.entry, asked, run.end))
    else
      || (IsClean(run) && CheckExplained(steady, error, run.begin, run.end, run.dataset))
      || EndedBy(error, run.steps[1..], |run.polls|, run.begin.now + seconds, asked, run.from, run.dataset, run.pinned, mib)
  }

  /** The run was ended because its time was over: the helper was still running when it was asked after that. */
  predicate RanOut(run: DatasetRun, seconds: nat) {
    run.steps != [] && TimedOut(run.steps[1..], |run.polls|, run.begin.now + seconds)
  }

  lemma DeadlineIsTrue(steady: bool, error: Failure, asked: seq<Asking>, run: DatasetRun, wait: nat, seconds: nat, mib: nat)
    requires RunExplains(steady, error, asked, run, wait, seconds, mib)
    ensures error == JobError(DatasetExecutionDeadline) ==> RanOut(run, seconds)
    ensures error == JobError(DatasetHelperFailed) ==> run.steps != [] && ExitedBadly(run.steps[1..], |run.polls|)
  {
  }

  /** Starting the helper is not an answer of it. */
  lemma {:induction false} LastCodeSince(h: HelperStep, own: seq<HelperStep>)
    requires !h.Polled?
    ensures LastCode([h] + own) == LastCode(own)
  {
    if own == [] {
      assert [h] + own == [h] && [h][..0] == [];
    } else {
      assert ([h] + own)[..|own|] == [h] + own[..|own| - 1];
      LastCodeSince(h, own[..|own| - 1]);
    }
  }

  lemma LaunchedIsWatched(
      steady: bool, seconds: nat, mib: nat, memory: Memory, before: seq<Asking>, asked: seq<Asking>, run: DatasetRun,
      own: seq<HelperStep>)
    requires run.steps == [Launched(run.dataset, run.begin)] + own && run.first < run.from == |before| && before <= asked
    requires Rely(steady, run.entry, run.begin)
    requires IsIdleMoment(steady, run.entry, run.free, before[|before| - 1], run.begin)
    requires Watched(steady, run.dataset, mib, memory, asked, run.from, run.begin, run.polls, run.pinned, run.end)
    requires IsExit(own, |run.polls|) || IsReaped(own, |run.polls|)
    requires InTime(own, run.polls, run.begin.now + seconds)
    ensures IsWatchedRun(steady, seconds, mib, memory, asked, run) && run.steps != []
    ensures IsClean(run) <==> IsExit(own, |run.polls|)
  {
    assert run.steps[1..] == own && asked[run.from - 1] == before[run.from - 1];
  }

  /** From the start of the helper on, right after the idle moment. */
  method Launch(
      m: Machine, job: Job, dataset: string, ghost first: nat, ghost entry: World, ghost free: World, seconds: nat, mib: nat)
    returns (r: Result<(), Failure>, ghost run: DatasetRun)
    requires m.Valid() && !m.Mine() && Evidence(job.state.verified, m.checks)
    requires first < |m.asked| && Rely(m.steady, entry, m.w)
    requires IsIdleMoment(m.steady, entry, free, m.asked[|m.asked| - 1], m.w)
    modifies m, job
    ensures m.Valid() && !m.Mine() && Rely(m.steady, old(m.w), m.w)
    ensures run.dataset == dataset && run.first == first && run.entry == entry && run.end == m.w
    ensures IsWatchedRun(m.steady, seconds, mib, m.memory, m.asked, run)
    ensures m.helper == old(m.helper) + run.steps && run.steps != [] && OnlyTouches(old(m.asked), m.asked, run.pinned)
    ensures |job.saved| <= |old(job.saved)| + |run.polls| + 1 && (r.Ok? ==> |job.saved| == |old(job.saved)| + |run.polls| + 1)
    ensures r.Err? && r.error.JobError? ==> LastCode(run.steps).Some?
    ensures r.Err? ==> RunExplains(m.steady, r.error, m.asked, run, 0, seconds, mib)
    ensures old(m.checks) <= m.checks && Evidence(job.state.verified, m.checks)
    ensures IsNoted(old(m.notes), m.notes, r.Ok? || job.state.verified != old(job.state.verified))
    ensures job.state.phase == old(job.state.phase) && job.state.dataset == old(job.state.dataset)
    ensures r.Ok? ==> IsClean(run) && Records(old(job.state.verified), job.state.verified, dataset)
    ensures job.state.verified == old(job.state.verified)
            || (IsClean(run) && Records(old(job.state.verified), job.state.verified, dataset))
    ensures OnlyThese(old(job.saved), job.saved, job.state.phase, job.state.dataset, old(job.state.verified),
                      job.state.verified)
    ensures m.faults >= old(m.faults) && (r.Err? && IsFault(r.error) ==> m.faults > old(m.faults))
  {
    ghost var start := Launched(dataset, m.w);
    m.helper := m.helper + [start];
    ghost var pinned, polls, own;
    r, pinned, polls, own := ImportAndRecord(m, job, dataset, seconds, mib);
    run := DatasetRun(dataset, first, entry, free, |old(m.asked)|, old(m.w), m.w, pinned, polls, [start] + own);
    LaunchedIsWatched(m.steady, seconds, mib, m.memory, old(m.asked), m.asked, run, own);
    Regrouped(old(m.helper), [start], own);
    LastCodeSince(start, own);
  }

  /** Waits for an idle moment and saves that the dataset is next. The helper is not started yet, and starting it may fail. */
  method Await(m: Machine, job: Job, dataset: string, wait: nat, ghost seconds: nat, ghost mib: nat)
    returns (r: Result<(), Failure>, ghost run: DatasetRun)
    requires m.Valid() && !m.Mine()
    modifies m`w, m`asked, job, m`faults, m`slept
    ensures m.Valid() && !m.Mine() && Rely(m.steady, old(m.w), m.w) && m.slept < old(m.slept) + wait + 15000
    ensures run.dataset == dataset && run.first == |old(m.asked)| && run.entry == old(m.w) && run.end == m.w
    ensures run.pinned.None? && run.steps == [] && OnlyTouches(old(m.asked), m.asked, None)
    ensures IsWatchedRun(m.steady, seconds, mib, m.memory, m.asked, run)
    ensures r.Ok? ==>
              && run.first < |m.asked| && run.polls == [] && |job.saved| == |old(job.saved)| + 1
              && IsIdleMoment(m.steady, run.entry, run.free, m.asked[|m.asked| - 1], m.w)
    ensures |job.saved| <= |old(job.saved)| + 1
    ensures r.Err? ==> RunExplains(m.steady, r.error, m.asked, run, wait, seconds, mib)
    ensures job.state == old(job.state) || job.state == old(job.state).(dataset := Some(dataset))
    ensures r.Ok? ==> job.state.dataset == Some(dataset)
    ensures OnlyProgress(old(job.saved), job.saved, old(job.state).(dataset := Some(dataset)))
    ensures m.faults >= old(m.faults) && (r.Err? && IsFault(r.error) ==> m.faults > old(m.faults))
  {
    var idle, free, _ := m.WaitIdle(wait);
    r := idle;
    assert r == Err(JobError(MaintenanceWaitExpired)) ==> WasNotIdle(m.steady, old(m.w), free, m.asked, m.w);
    run := DatasetRun(dataset, |old(m.asked)|, old(m.w), free, |m.asked|, m.w, m.w, None, [], []);
    RelyReflexive(m.steady, m.w);
    if r.Ok? {
      job.state := job.state.(dataset := Some(dataset));
      r := job.SaveStatus(m);
      var refused: bool := *;
      if r.Ok? && refused {
        m.Fault();
        r := Err(OtherError);
      }
    }
  }

  /**
   One dataset from waiting to the record. The helper is started only after an idle moment. The dataset
   is added to the verified ones only after the helper answered that it exited with 0 and the check
   under the lock succeeded. If it ends with one of the controller's own errors, a helper that was
   started has answered with an exit code, and the error says what happened: the deadline only when the
   helper was still running at a moment `seconds` or more after its start.
   */
  method RunDataset(m: Machine, job: Job, dataset: string, wait: nat, seconds: nat, mib: nat)
    returns (r: Result<(), Failure>, ghost run: DatasetRun)
    requires m.Valid() && !m.Mine() && Evidence(job.state.verified, m.checks)
    modifies m, job
    ensures m.Valid() && !m.Mine() && Rely(m.steady, old(m.w), m.w)
    ensures run.dataset == dataset && run.first == |old(m.asked)| && run.entry == old(m.w) && run.end == m.w
    ensures IsWatchedRun(m.steady, seconds, mib, m.memory, m.asked, run)
    ensures m.helper == old(m.helper) + run.steps && OnlyTouches(old(m.asked), m.asked, run.pinned)
    ensures |job.saved| <= |old(job.saved)| + |run.polls| + 2 && (r.Ok? ==> |job.saved| == |old(job.saved)| + |run.polls| + 2)
    ensures r.Err? && r.error.JobError? && run.steps != [] ==> LastCode(run.steps).Some?
    ensures r.Err? ==> RunExplains(m.steady, r.error, m.asked, run, wait, seconds, mib)
    ensures r == Err(JobError(DatasetExecutionDeadline)) ==> RanOut(run, seconds)
    ensures old(m.checks) <= m.checks && Evidence(job.state.verified, m.checks)
    ensures IsNoted(old(m.notes), m.notes, r.Ok? || job.state.verified != old(job.state.verified))
    ensures job.state.phase == old(job.state.phase)
    ensures r.Ok? ==> IsClean(run) && Records(old(job.state.verified), job.state.verified, dataset)
    ensures job.state.verified == old(job.state.verified)
            || (IsClean(run) && Records(old(job.state.verified), job.state.verified, dataset))
    ensures OnlyThese(old(job.saved), job.saved, job.state.phase, Some(dataset), old(job.state.verified), job.state.verified)
    ensures m.faults >= old(m.faults) && (r.Err? && IsFault(r.error) ==> m.faults > old(m.faults))
  {
    r, run := Await(m, job, dataset, wait, seconds, mib);
    if r.Ok? {
      label waited:
      r, run := Launch(m, job, dataset, |old(m.asked)|, old(m.w), run.free, seconds, mib);
      RelyComposes(m.steady, old(m.w), old@waited(m.w), m.w);
      TouchesCompose(old(m.asked), old@waited(m.asked), m.asked, None, run.pinned);
    }
    if r.Err? {
      DeadlineIsTrue(m.steady, r.error, m.asked, run, wait, seconds, mib);
    }
  }

  // ---------------------------------------------------------------------------------------------
  // The whole job
  // ---------------------------------------------------------------------------------------------

  /** How many requests there were when the next run began, or at the end. */
  function RequestsBy(runs: seq<DatasetRun>, i: nat, all: nat): nat {
    if i + 1 < |runs| then runs[i + 1].first else all
  }

  /** Run i was watched, among the requests before the next run. */
  ghost predicate WatchedAt(
      steady: bool, seconds: nat, mib: nat, memory: Memory, asked: seq<Asking>, runs: seq<DatasetRun>, i: nat)
    requires i < |runs|
  {
    var end := RequestsBy(runs, i, |asked|);
    runs[i].first <= end <= |asked| && IsWatchedRun(steady, seconds, mib, memory, asked[..end], runs[i])
  }

  /**
   Run i is that of dataset i, behind the run before it, and was watched; it ended with an exit with 0 if
   another one follows. Behind the last run stands the world `w`.
   */
  ghost predicate IsInTurn(
      steady: bool, plan: Plan, memory: Memory, asked: seq<Asking>, start: World, runs: seq<DatasetRun>, w: World, i: nat)
    requires i <= |runs|
  {
    && Rely(steady, if i == 0 then start else runs[i - 1].end, if i == |runs| then w else runs[i].entry)
    && (i < |runs| ==>
          && i < |plan.requested| && runs[i].dataset == plan.requested[i]
          && WatchedAt(steady, plan.seconds, plan.mib, memory, asked, runs, i)
          && (i + 1 < |runs| ==> IsClean(runs[i])))
  }

  /**
   The runs of a job: the first requested datasets were run one after the other, each was watched among
   requests of its own, and each but possibly the last ended with an exit of its helper with 0.
   */
  ghost predicate JobWatched(
      steady: bool, plan: Plan, memory: Memory, asked: seq<Asking>, start: World, runs: seq<DatasetRun>, w: World)
  {
    forall i | 0 <= i <= |runs| :: IsInTurn(steady, plan, memory, asked, start, runs, w, i)
  }

  lemma JobWatchedSince(
      steady: bool, plan: Plan, memory: Memory, asked: seq<Asking>, earlier: World, start: World, runs: seq<DatasetRun>,
      w: World)
    requires Rely(steady, earlier, start) && JobWatched(steady, plan, memory, asked, start, runs, w)
    ensures JobWatched(steady, plan, memory, asked, earlier, runs, w)
  {
    forall i | 0 <= i <= |runs| ensures IsInTurn(steady, plan, memory, asked, earlier, runs, w, i) {
      assert IsInTurn(steady, plan, memory, asked, start, runs, w, i);
      if i == 0 {
        RelyComposes(steady, earlier, start, if i == |runs| then w else runs[i].entry);
      }
    }
  }

  /** What it means for every run: watched among requests of its own, and clean if it was not the last one. */
  lemma EveryRunIsWatched(
      steady: bool, plan: Plan, memory: Memory, asked: seq<Asking>, start: World, runs: seq<DatasetRun>, w: World, i: nat)
    requires JobWatched(steady, plan, memory, asked, start, runs, w) && i < |runs|
    ensures i < |plan.requested| && runs[i].dataset == plan.requested[i] && (i < |runs| - 1 ==> IsClean(runs[i]))
    ensures WatchedAt(steady, plan.seconds, plan.mib, memory, asked, runs, i)
  {
    assert IsInTurn(steady, plan, memory, asked, start, runs, w, i);
  }

  /** The processes that were pinned, at most one for each run. */
  ghost function PinsOf(runs: seq<DatasetRun>): (pins: set<Identity>)
    ensures |pins| <= |runs|
  {
    if runs == [] then {}
    else
      var run := runs[|runs| - 1];
      PinsOf(runs[..|runs| - 1]) + (if run.pinned.Some? then {run.pinned.value} else {})
  }

  /** The statuses that belong to the runs: one at the start, one for every turn of the watch, and one at the end. */
  ghost function StatusesOf(runs: seq<DatasetRun>): nat {
    if runs == [] then 0 else StatusesOf(runs[..|runs| - 1]) + |runs[|runs| - 1].polls| + 2
  }

  /** How many requests there were before the first run, or at the end if there is none. */
  function FirstRequest(runs: seq<DatasetRun>, all: nat): nat {
    if runs == [] then all else runs[0].first
  }

  /** This request was the probe of an idle moment since the start. */
  ghost predicate ProbedIdle(steady: bool, start: World, a: Asking) {
    exists free, now :: IsIdleMoment(steady, start, free, a, now)
  }

  /** So was the last request before the first run. */
  ghost predicate IsPrepared(steady: bool, start: World, from: nat, asked: seq<Asking>, runs: seq<DatasetRun>) {
    var n := FirstRequest(runs, |asked|);
    from < n <= |asked| && ProbedIdle(steady, start, asked[n - 1])
  }

  lemma WaitedUntilIdle(steady: bool, start: World, turn: World, free: World, from: nat, asked: seq<Asking>, now: World)
    requires Rely(steady, start, turn) && from < |asked| && IsIdleMoment(steady, turn, free, asked[|asked| - 1], now)
    ensures IsPrepared(steady, start, from, asked, [])
  {
    IdleSince(steady, start, turn, free, asked[|asked| - 1], now);
  }

  lemma PreparedStays(
      steady: bool, start: World, from: nat, asked: seq<Asking>, more: seq<Asking>, runs: seq<DatasetRun>)
    requires IsPrepared(steady, start, from, asked, []) && asked <= more && FirstRequest(runs, |more|) == |asked|
    ensures IsPrepared(steady, start, from, more, runs)
  {
  }

  /** What was done with the helpers. */
  ghost function StepsOf(runs: seq<DatasetRun>): seq<HelperStep> {
    if runs == [] then [] else StepsOf(runs[..|runs| - 1]) + runs[|runs| - 1].steps
  }

  /** How many of the runs ended with an exit of the helper with 0, when only the last one may not have. */
  ghost function CleanRuns(runs: seq<DatasetRun>): nat {
    if runs == [] then 0 else if IsClean(runs[|runs| - 1]) then |runs| else |runs| - 1
  }

  /** Everything done since `before` was done to one of the pinned processes. */
  ghost predicate TouchesAmong(before: seq<Asking>, after: seq<Asking>, pins: set<Identity>) {
    && before <= after
    && forall i | |before| <= i < |after| && after[i].effect.Some? :: after[i].effect.value.target in pins
  }

  lemma TouchesOneMore(a: seq<Asking>, b: seq<Asking>, c: seq<Asking>, runs: seq<DatasetRun>, run: DatasetRun)
    requires TouchesAmong(a, b, PinsOf(runs)) && OnlyTouches(b, c, run.pinned)
    ensures TouchesAmong(a, c, PinsOf(runs + [run]))
  {
    assert (runs + [run])[..|runs|] == runs;
    forall i | |a| <= i < |c| && c[i].effect.Some? ensures c[i].effect.value.target in PinsOf(runs + [run]) {
      if i < |b| {
        assert c[i] == b[i];
      }
    }
  }

  ghost predicate AllSound(saved: seq<Status>, plan: Plan, done: nat, checks: seq<Check>)
    requires done <= |plan.requested|
  {
    saved == [] || (AllSound(saved[..|saved| - 1], plan, done, checks) && Sound(saved[|saved| - 1], plan, done, checks))
  }

  /** What it means for every status. */
  lemma {:induction false} EachIsSound(saved: seq<Status>, plan: Plan, done: nat, checks: seq<Check>, i: nat)
    requires done <= |plan.requested| && AllSound(saved, plan, done, checks) && i < |saved|
    ensures Sound(saved[i], plan, done, checks)
  {
    if i < |saved| - 1 {
      EachIsSound(saved[..|saved| - 1], plan, done, checks, i);
    }
  }

  lemma {:induction false} SoundGrows(
      saved: seq<Status>, plan: Plan, done: nat, later: nat, checks: seq<Check>, more: seq<Check>)
    requires done <= later <= |plan.requested| && AllSound(saved, plan, done, checks) && checks <= more
    ensures AllSound(saved, plan, later, more)
  {
    if saved != [] {
      SoundGrows(saved[..|saved| - 1], plan, done, later, checks, more);
      EvidenceGrows(saved[|saved| - 1].verified, checks, more);
    }
  }

  lemma SaveIsSound(before: seq<Status>, s: Status, plan: Plan, done: nat, checks: seq<Check>)
    requires done <= |plan.requested| && AllSound(before, plan, done, checks) && Sound(s, plan, done, checks)
    ensures AllSound(before + [s], plan, done, checks)
  {
    assert (before + [s])[..|before|] == before;
  }

  lemma NamesNext(plan: Plan, k: nat)
    requires k < |plan.requested|
    ensures Names(plan, k + 1) == Names(plan, k) + {plan.requested[k]}
  {
    assert plan.requested[..k + 1] == plan.requested[..k] + [plan.requested[k]];
  }

  /** Statuses that show one of these two records are sound. */
  lemma {:induction false} DatasetStatusesAreSound(
      before: seq<Status>, saved: seq<Status>, plan: Plan, k: nat, done: nat, dataset: Option<string>,
      v: map<string, Batch>, w: map<string, Batch>, checks: seq<Check>)
    requires k <= done <= |plan.requested| && AllSound(before, plan, done, checks)
    requires OnlyThese(before, saved, Running, dataset, v, w)
    requires Evidence(v, checks) && Evidence(w, checks)
    requires v.Keys == Names(plan, k) && (w.Keys == Names(plan, k) || w.Keys == Names(plan, done))
    ensures AllSound(saved, plan, done, checks)
  {
    if |saved| == |before| {
      assert saved == before;
    } else {
      DatasetStatusesAreSound(before, saved[..|saved| - 1], plan, k, done, dataset, v, w, checks);
    }
  }

  /** Dataset k of the plan. Afterwards `done` of the requested datasets are verified. */
  method RunNext(m: Machine, job: Job, plan: Plan, k: nat)
    returns (r: Result<(), Failure>, ghost run: DatasetRun, ghost done: nat)
    requires m.Valid() && !m.Mine() && job.state.phase == Running && k < |plan.requested|
    requires Evidence(job.state.verified, m.checks) && AllSound(job.saved, plan, k, m.checks)
    requires job.state.verified.Keys == Names(plan, k)
    modifies m, job
    ensures m.Valid() && !m.Mine() && Rely(m.steady, old(m.w), m.w)
    ensures run.dataset == plan.requested[k] && run.first == |old(m.asked)| && run.entry == old(m.w) && run.end == m.w
    ensures IsWatchedRun(m.steady, plan.seconds, plan.mib, m.memory, m.asked, run)
    ensures m.helper == old(m.helper) + run.steps && OnlyTouches(old(m.asked), m.asked, run.pinned)
    ensures |job.saved| <= |old(job.saved)| + |run.polls| + 2 && (r.Ok? ==> |job.saved| == |old(job.saved)| + |run.polls| + 2)
    ensures old(m.checks) <= m.checks && Evidence(job.state.verified, m.checks)
    ensures IsNoted(old(m.notes), m.notes, done == k + 1)
    ensures k <= done <= (if IsClean(run) then k + 1 else k) && (r.Ok? ==> done == k + 1)
    ensures r.Err? ==> RunExplains(m.steady, r.error, m.asked, run, plan.wait, plan.seconds, plan.mib)
    ensures AllSound(job.saved, plan, done, m.checks) && job.state.phase == Running
    ensures job.state.verified.Keys == Names(plan, done)
    ensures m.faults >= old(m.faults) && (r.Err? && IsFault(r.error) ==> m.faults > old(m.faults))
  {
    r, run := RunDataset(m, job, plan.requested[k], plan.wait, plan.seconds, plan.mib);
    done := if r.Ok? || job.state.verified != old(job.state.verified) then k + 1 else k;
    DatasetIsRecorded(old(job.saved), job.saved, plan, k, done, Some(plan.requested[k]), old(job.state.verified),
      job.state.verified, old(m.checks), m.checks);
  }

  /** After dataset k ran, all statuses are sound, and k or k + 1 of the requested datasets are verified. */
  lemma DatasetIsRecorded(
      before: seq<Status>, saved: seq<Status>, plan: Plan, k: nat, done: nat, dataset: Option<string>,
      v: map<string, Batch>, w: map<string, Batch>, checks: seq<Check>, more: seq<Check>)
    requires k < |plan.requested| && AllSound(before, plan, k, checks) && checks <= more
    requires OnlyThese(before, saved, Running, dataset, v, w)
    requires Evidence(v, checks) && Evidence(w, more) && v.Keys == Names(plan, k)
    requires if done == k then w == v else done == k + 1 && Records(v, w, plan.requested[k])
    ensures AllSound(saved, plan, done, more) && w.Keys == Names(plan, done)
  {
    NamesNext(plan, k);
    assert done == k + 1 ==> w.Keys == v.Keys + {plan.requested[k]};
    SoundGrows(before, plan, k, done, checks, more);
    EvidenceGrows(v, checks, more);
    DatasetStatusesAreSound(before, saved, plan, k, done, dataset, v, w, more);
  }

  lemma WatchedAtOneMore(
      steady: bool, seconds: nat, mib: nat, memory: Memory, asked: seq<Asking>, more: seq<Asking>, runs: seq<DatasetRun>,
      run: DatasetRun, i: nat)
    requires asked <= more && run.first == |asked| && IsWatchedRun(steady, seconds, mib, memory, more, run) && i <= |runs|
    requires i < |runs| ==> WatchedAt(steady, seconds, mib, memory, asked, runs, i)
    ensures WatchedAt(steady, seconds, mib, memory, more, runs + [run], i)
  {
    if i < |runs| {
      var end := RequestsBy(runs, i, |asked|);
      assert RequestsBy(runs + [run], i, |more|) == end && more[..end] == asked[..end];
    } else {
      assert more[..|more|] == more;
    }
  }

  lemma TotalsOneMore(runs: seq<DatasetRun>, run: DatasetRun, all: nat)
    requires CleanRuns(runs) == |runs|
    ensures FirstRequest(runs + [run], all) == FirstRequest(runs, run.first)
    ensures StatusesOf(runs + [run]) == StatusesOf(runs) + |run.polls| + 2
    ensures StepsOf(runs + [run]) == StepsOf(runs) + run.steps
    ensures CleanRuns(runs + [run]) == |runs| + (if IsClean(run) then 1 else 0)
  {
    assert (runs + [run])[..|runs|] == runs;
  }

  lemma JobOneMore(
      steady: bool, plan: Plan, memory: Memory, asked: seq<Asking>, more: seq<Asking>, start: World,
      runs: seq<DatasetRun>, run: DatasetRun)
    requires JobWatched(steady, plan, memory, asked, start, runs, run.entry) && asked <= more && run.first == |asked|
    requires CleanRuns(runs) == |runs| < |plan.requested| && run.dataset == plan.requested[|runs|]
    requires IsWatchedRun(steady, plan.seconds, plan.mib, memory, more, run)
    ensures JobWatched(steady, plan, memory, more, start, runs + [run], run.end)
  {
    forall i | 0 <= i <= |runs + [run]| ensures IsInTurn(steady, plan, memory, more, start, runs + [run], run.end, i) {
      RunOneMore(steady, plan, memory, asked, more, start, runs, run, i);
    }
  }

  lemma RunOneMore(
      steady: bool, plan: Plan, memory: Memory, asked: seq<Asking>, more: seq<Asking>, start: World,
      runs: seq<DatasetRun>, run: DatasetRun, i: nat)
    requires JobWatched(steady, plan, memory, asked, start, runs, run.entry) && asked <= more && run.first == |asked|
    requires CleanRuns(runs) == |runs| < |plan.requested| && run.dataset == plan.requested[|runs|] && i <= |runs| + 1
    requires IsWatchedRun(steady, plan.seconds, plan.mib, memory, more, run)
    ensures IsInTurn(steady, plan, memory, more, start, runs + [run], run.end, i)
  {
    if i <= |runs| {
      assert IsInTurn(steady, plan, memory, asked, start, runs, run.entry, i);
      WatchedAtOneMore(steady, plan.seconds, plan.mib, memory, asked, more, runs, run, i);
    } else {
      RelyReflexive(steady, run.end);
    }
  }

  /** Dataset k, after those before it were run. */
  method RunAt(
      m: Machine, job: Job, plan: Plan, k: nat, ghost start: World, ghost before: seq<Asking>, ghost steps: seq<HelperStep>,
      ghost saved: nat, ghost runs: seq<DatasetRun>)
    returns (r: Result<(), Failure>, ghost more: seq<DatasetRun>, ghost done: nat)
    requires m.Valid() && !m.Mine() && job.state.phase == Running && Rely(m.steady, start, m.w)
    requires k == |runs| == CleanRuns(runs) < |plan.requested|
    requires TouchesAmong(before, m.asked, PinsOf(runs)) && m.helper == steps + StepsOf(runs)
    requires JobWatched(m.steady, plan, m.memory, m.asked, start, runs, m.w) && |job.saved| == saved + StatusesOf(runs)
    requires Evidence(job.state.verified, m.checks) && AllSound(job.saved, plan, k, m.checks)
    requires job.state.verified.Keys == Names(plan, k)
    modifies m, job
    ensures m.Valid() && !m.Mine() && job.state.phase == Running && Rely(m.steady, start, m.w)
    ensures TouchesAmong(before, m.asked, PinsOf(more)) && m.helper == steps + StepsOf(more)
    ensures JobWatched(m.steady, plan, m.memory, m.asked, start, more, m.w)
    ensures |job.saved| <= saved + StatusesOf(more) && (r.Ok? ==> |job.saved| == saved + StatusesOf(more))
    ensures |more| == k + 1 && done <= CleanRuns(more) <= k + 1 && (r.Ok? ==> done == k + 1)
    ensures FirstRequest(more, |m.asked|) == FirstRequest(runs, |old(m.asked)|)
    ensures r.Err? ==> RunExplains(m.steady, r.error, m.asked, more[k], plan.wait, plan.seconds, plan.mib)
    ensures IsNoted(old(m.notes), m.notes, done == k + 1) && k <= done
    ensures Evidence(job.state.verified, m.checks) && AllSound(job.saved, plan, done, m.checks)
    ensures job.state.verified.Keys == Names(plan, done)
    ensures m.faults >= old(m.faults) && (r.Err? && IsFault(r.error) ==> m.faults > old(m.faults))
  {
    ghost var run;
    r, run, done := RunNext(m, job, plan, k);
    RelyComposes(m.steady, start, old(m.w), m.w);
    TouchesOneMore(before, old(m.asked), m.asked, runs, run);
    JobOneMore(m.steady, plan, m.memory, old(m.asked), m.asked, start, runs, run);
    TotalsOneMore(runs, run, |m.asked|);
    Regrouped(steps, StepsOf(runs), run.steps);
    more := runs + [run];
  }

  /** The application was healthy so many times. */
  function AllHealthy(n: nat): seq<Note> {
    seq(n, _ => Healthy(true))
  }

  lemma HealthyOnceMore(before: seq<Note>, n: nat)
    ensures before + AllHealthy(n + 1) == before + AllHealthy(n) + [Healthy(true)]
  {
  }

  /** The datasets in order; it stops at the first that fails. */
  method RunAll(m: Machine, job: Job, plan: Plan) returns (r: Result<(), Failure>, ghost runs: seq<DatasetRun>, ghost done: nat)
    requires m.Valid() && !m.Mine() && job.state.phase == Running
    requires Evidence(job.state.verified, m.checks) && AllSound(job.saved, plan, 0, m.checks)
    requires job.state.verified.Keys == Names(plan, 0)
    modifies m, job
    ensures m.Valid() && !m.Mine() && Rely(m.steady, old(m.w), m.w)
    ensures TouchesAmong(old(m.asked), m.asked, PinsOf(runs)) && m.helper == old(m.helper) + StepsOf(runs)
    ensures JobWatched(m.steady, plan, m.memory, m.asked, old(m.w), runs, m.w)
    ensures |job.saved| <= |old(job.saved)| + StatusesOf(runs)
    ensures done <= CleanRuns(runs) <= |runs| <= |plan.requested| && FirstRequest(runs, |m.asked|) == |old(m.asked)|
    ensures r.Ok? ==> done == |plan.requested| && |job.saved| == |old(job.saved)| + StatusesOf(runs)
    ensures r.Err? ==> runs != [] && RunExplains(m.steady, r.error, m.asked, runs[|runs| - 1], plan.wait, plan.seconds, plan.mib)
    ensures IsNoted(old(m.notes) + AllHealthy(done), m.notes, false)
    ensures r.Ok? ==> m.notes == old(m.notes) + AllHealthy(done)
    ensures Evidence(job.state.verified, m.checks) && AllSound(job.saved, plan, done, m.checks)
    ensures job.state.verified.Keys == Names(plan, done) && job.state.phase == Running
    ensures m.faults >= old(m.faults) && (r.Err? && IsFault(r.error) ==> m.faults > old(m.faults))
  {
    RelyReflexive(m.steady, m.w);
    runs, done, r := [], 0, Ok(());
    var k := 0;
    while k < |plan.requested|
      invariant done == k == |runs| == CleanRuns(runs) <= |plan.requested|
      invariant m.Valid() && !m.Mine() && Rely(m.steady, old(m.w), m.w) && job.state.phase == Running
      invariant TouchesAmong(old(m.asked), m.asked, PinsOf(runs)) && m.helper == old(m.helper) + StepsOf(runs)
      invariant JobWatched(m.steady, plan, m.memory, m.asked, old(m.w), runs, m.w)
      invariant |job.saved| == |old(job.saved)| + StatusesOf(runs) && FirstRequest(runs, |m.asked|) == |old(m.asked)|
      invariant Evidence(job.state.verified, m.checks) && AllSound(job.saved, plan, k, m.checks)
      invariant job.state.verified.Keys == Names(plan, k) && r.Ok? && m.faults >= old(m.faults)
      invariant m.notes == old(m.notes) + AllHealthy(k)
    {
      HealthyOnceMore(old(m.notes), k);
      r, runs, done := RunAt(m, job, plan, k, old(m.w), old(m.asked), old(m.helper), |old(job.saved)|, runs);
      k := k + 1;
      if r.Err? {
        return;
      }
    }
  }

  /** Why the job ended with this error before it looked at a dataset; the one controller is another outside condition. */
  ghost predicate BeginExplains(
      steady: bool, error: Failure, faulted: bool, start: World, asked: seq<Asking>, now: World, plan: Plan)
  {
    || IsCallFailure(error) || error == JobError(DeployedCheckoutIsDirty)
    || (faulted && error == JobError(MaintenanceBusy))
    || (error == JobError(MaintenanceWaitExpired) && now.now >= start.now + plan.wait && NotIdle(steady, start, asked, now))
  }

  /** Why the job ended with this error before the first dataset. */
  ghost predicate PrepareExplains(
      steady: bool, error: Failure, faulted: bool, start: World, asked: seq<Asking>, now: World, plan: Plan)
  {
    || IsFault(error) || BeginExplains(steady, error, faulted, start, asked, now, plan)
    || (plan.external.Some? && CheckExplained(steady, error, start, now, plan.external.value))
  }

  /**
   Why the job ended with this error: before the first dataset, in the run of the last dataset it came to,
   or because a status could not be saved.
   */
  ghost predicate JobExplains(
      steady: bool, error: Failure, faulted: bool, start: World, asked: seq<Asking>, runs: seq<DatasetRun>, now: World,
      plan: Plan)
  {
    || IsSaveFailure(error)
    || (runs == [] && PrepareExplains(steady, error, faulted, start, asked, now, plan))
    || (runs != [] && RunExplains(steady, error, asked, runs[|runs| - 1], plan.wait, plan.seconds, plan.mib))
  }

  /** So a job that ends at a deadline ran a helper for as long as the plan allows. */
  lemma JobDeadlineIsTrue(
      steady: bool, error: Failure, faulted: bool, start: World, asked: seq<Asking>, runs: seq<DatasetRun>, now: World,
      plan: Plan)
    requires JobExplains(steady, error, faulted, start, asked, runs, now, plan)
    ensures error == JobError(DatasetExecutionDeadline) ==> runs != [] && RanOut(runs[|runs| - 1], plan.seconds)
    ensures error == JobError(DatasetHelperFailed) ==>
              && runs != []
              && var last := runs[|runs| - 1]; last.steps != [] && ExitedBadly(last.steps[1..], |last.polls|)
  {
    if error == JobError(DatasetExecutionDeadline) || error == JobError(DatasetHelperFailed) {
      DeadlineIsTrue(steady, error, asked, runs[|runs| - 1], plan.wait, plan.seconds, plan.mib);
    }
  }

  predicate NotCompleted(r: Result<(), Failure>) {
    r == Err(JobError(ExternalImportDidNotCompleteSuccessfully))
  }

  /** Checks the operation that imported the external dataset, and verifies that dataset. */
  method AdoptExternal(m: Machine, job: Job, plan: Plan) returns (r: Result<(), Failure>)
    requires m.Valid() && !m.Mine() && job.state == NEW_STATUS && AllSound(job.saved, plan, 0, m.checks)
    modifies m`w, m`checks, job`state, m`faults, m`slept, m`notes
    ensures m.Valid() && !m.Mine() && Rely(m.steady, old(m.w), m.w)
    ensures Evidence(job.state.verified, m.checks) && AllSound(job.saved, plan, 0, m.checks)
    ensures job.state.phase == Running
    ensures r.Ok? ==> job.state.verified.Keys == Names(plan, 0)
    ensures m.notes == old(m.notes) + (if plan.external.None? then [] else [ExternalCompleted(!NotCompleted(r))])
    ensures r.Err? ==> NotCompleted(r) || IsCheckFailure(r.error)
    ensures r.Err? ==>
              && job.state == NEW_STATUS
              && (IsFault(r.error)
                  || (plan.external.Some? && CheckExplained(m.steady, r.error, old(m.w), m.w, plan.external.value)))
    ensures old(m.checks) <= m.checks
    ensures r.Ok? && plan.external.Some? ==>
              && plan.external.value in job.state.verified
              && exists c :: m.checks == old(m.checks) + [c]
                             && Shows(c, plan.external.value, job.state.verified[plan.external.value])
    ensures m.faults >= old(m.faults) && (r.Err? && IsFault(r.error) ==> m.faults > old(m.faults))
  {
    RelyReflexive(m.steady, m.w);
    if plan.external.None? {
      return Ok(());
    }
    var completed := m.Learn(so => ExternalCompleted(so));
    if !completed {
      m.Fault();
      return Err(JobError(ExternalImportDidNotCompleteSuccessfully));
    }
    var verified := VerifyUnderLock(m, plan.external.value, false);
    SoundGrows(job.saved, plan, 0, 0, old(m.checks), m.checks);
    if verified.Err? {
      return Err(verified.error);
    }
    ghost var c :| m.checks == old(m.checks) + [c] && Shows(c, plan.external.value, verified.value);
    EvidenceExtends(map[], old(m.checks), c);
    job.state := job.state.(verified := map[plan.external.value := verified.value]);
    r := Ok(());
  }

  /** The lock of the controller, an idle moment, and the release. */
  method Begin(m: Machine, plan: Plan) returns (r: Result<(), Failure>)
    requires m.Valid() && !m.Mine()
    modifies m`w, m`asked, m`faults, m`slept, m`notes
    ensures m.Valid() && !m.Mine() && Rely(m.steady, old(m.w), m.w) && OnlyTouches(old(m.asked), m.asked, None)
    ensures r.Ok? ==>
              && IsPrepared(m.steady, old(m.w), |old(m.asked)|, m.asked, [])
              && m.notes == old(m.notes) + [OnlyController(true), CleanRelease(true)]
    ensures r == Err(JobError(MaintenanceBusy)) ==> m.notes == old(m.notes) + [OnlyController(false)]
    ensures r == Err(JobError(DeployedCheckoutIsDirty)) ==>
              m.notes == old(m.notes) + [OnlyController(true), CleanRelease(false)]
    ensures r.Err? ==> BeginExplains(m.steady, r.error, m.faults > old(m.faults), old(m.w), m.asked, m.w, plan)
    ensures m.faults >= old(m.faults) && (r.Err? && IsFault(r.error) ==> m.faults > old(m.faults))
  {
    m.Interfere();
    var alone := m.Learn(so => OnlyController(so));
    if !alone {
      m.Fault();
      return Err(JobError(MaintenanceBusy));
    }
    label wait:
    ghost var at, tries;
    r, at, tries := m.WaitIdle(plan.wait);
    RelyComposes(m.steady, old(m.w), old@wait(m.w), m.w);
    if r == Err(JobError(MaintenanceWaitExpired)) {
      NotIdleSince(m.steady, old(m.w), old@wait(m.w), at, m.asked, m.w);
    }
    if r.Err? {
      return;
    }
    WaitedUntilIdle(m.steady, old(m.w), old@wait(m.w), at, |old(m.asked)|, m.asked, m.w);
    var clean := m.Learn(so => CleanRelease(so));
    if !clean {
      m.Fault();
      r := Err(JobError(DeployedCheckoutIsDirty));
    }
  }

  /** What is learnt before the first dataset, when nothing speaks against going on. */
  function PreparedNotes(plan: Plan): seq<Note> {
    [OnlyController(true), CleanRelease(true)] + (if plan.external.None? then [] else [ExternalCompleted(true)])
  }

  lemma ExternalFails(
      steady: bool, error: Failure, faulted: bool, start: World, asked: seq<Asking>, turn: World, now: World, plan: Plan)
    requires Rely(steady, start, turn)
    requires IsFault(error) || (plan.external.Some? && CheckExplained(steady, error, turn, now, plan.external.value))
    ensures PrepareExplains(steady, error, faulted, start, asked, now, plan)
  {
    if !IsFault(error) {
      CheckExplainedSince(steady, error, start, turn, now, plan.external.value);
    }
  }

  /** What comes before the first dataset: the lock of the controller, an idle moment, the release, the external dataset. */
  method Prepare(m: Machine, job: Job, plan: Plan) returns (r: Result<(), Failure>)
    requires m.Valid() && !m.Mine() && job.state == NEW_STATUS && AllSound(job.saved, plan, 0, m.checks)
    modifies m`w, m`asked, m`checks, job`state, m`faults, m`slept, m`notes
    ensures m.Valid() && !m.Mine() && Rely(m.steady, old(m.w), m.w) && OnlyTouches(old(m.asked), m.asked, None)
    ensures Evidence(job.state.verified, m.checks) && AllSound(job.saved, plan, 0, m.checks)
    ensures job.state.phase == Running
    ensures r.Ok? ==> job.state.verified.Keys == Names(plan, 0)
    ensures r.Ok? ==>
              && IsPrepared(m.steady, old(m.w), |old(m.asked)|, m.asked, [])
              && m.notes == old(m.notes) + PreparedNotes(plan)
    ensures r == Err(JobError(DeployedCheckoutIsDirty)) ==>
              m.notes == old(m.notes) + [OnlyController(true), CleanRelease(false)]
    ensures r.Err? ==> job.state == NEW_STATUS && Sound(NEW_STATUS, plan, 0, m.checks)
    ensures r.Err? ==>
              PrepareExplains(m.steady, r.error, m.faults > old(m.faults), old(m.w), m.asked, m.w, plan)
    ensures m.faults >= old(m.faults) && (r.Err? && IsFault(r.error) ==> m.faults > old(m.faults))
  {
    r := Begin(m, plan);
    if r.Err? {
      return;
    }
    label external:
    r := AdoptExternal(m, job, plan);
    RelyComposes(m.steady, old(m.w), old@external(m.w), m.w);
    if r.Err? {
      ExternalFails(m.steady, r.error, m.faults > old(m.faults), old(m.w), m.asked, old@external(m.w), m.w, plan);
    }
  }

  predicate EndsWithSuccess(saved: seq<Status>) {
    saved != [] && saved[|saved| - 1].phase == Succeeded
  }

  lemma NothingRan(
      steady: bool, plan: Plan, memory: Memory, before: seq<Asking>, asked: seq<Asking>, start: World, w: World)
    requires OnlyTouches(before, asked, None) && Rely(steady, start, w)
    ensures TouchesAmong(before, asked, PinsOf([])) && JobWatched(steady, plan, memory, asked, start, [], w)
    ensures StepsOf([]) == [] && StatusesOf([]) == 0 && CleanRuns([]) == 0
  {
  }

  lemma StateIsSound(s: Status, plan: Plan, done: nat, later: nat, checks: seq<Check>)
    requires done <= later <= |plan.requested| && s.phase == Running
    requires Evidence(s.verified, checks) && s.verified.Keys == Names(plan, done)
    ensures Sound(s, plan, later, checks) && s == s.(phase := Running)
    ensures done == |plan.requested| ==> Sound(s.(phase := Succeeded), plan, later, checks)
  {
  }

  /** The last status of a job in which every dataset was recorded. */
  method SaveSuccess(m: Machine, job: Job, plan: Plan, ghost checks: seq<Check>) returns (r: Result<(), Failure>)
    requires AllSound(job.saved, plan, |plan.requested|, checks)
    requires Sound(job.state, plan, |plan.requested|, checks) && job.state == job.state.(phase := Running)
    requires Sound(job.state.(phase := Succeeded), plan, |plan.requested|, checks)
    modifies job, m`faults
    ensures AllSound(job.saved, plan, |plan.requested|, checks)
    ensures job.state.(phase := Running) == old(job.state) && |job.saved| == |old(job.saved)| + (if r.Ok? then 1 else 0)
    ensures r.Ok? ==> EndsWithSuccess(job.saved)
    ensures r.Err? ==> IsSaveFailure(r.error)
    ensures m.faults >= old(m.faults) && (r.Err? && IsFault(r.error) ==> m.faults > old(m.faults))
  {
    SaveIsSound(job.saved, job.state.(phase := Succeeded), plan, |plan.requested|, checks);
    job.state := job.state.(phase := Succeeded);
    r := job.SaveStatus(m);
  }

  lemma TouchesFromNothing(a: seq<Asking>, b: seq<Asking>, c: seq<Asking>, pins: set<Identity>)
    requires OnlyTouches(a, b, None) && TouchesAmong(b, c, pins)
    ensures TouchesAmong(a, c, pins)
  {
    assert forall i | |a| <= i < |b| :: c[i] == b[i];
  }

  /** The datasets, and the status that says that all of them succeeded. */
  method RunAndSucceed(m: Machine, job: Job, plan: Plan) returns (r: Result<(), Failure>, ghost runs: seq<DatasetRun>)
    requires m.Valid() && !m.Mine() && job.state.phase == Running
    requires Evidence(job.state.verified, m.checks) && AllSound(job.saved, plan, 0, m.checks)
    requires job.state.verified.Keys == Names(plan, 0)
    modifies m, job
    ensures m.Valid() && !m.Mine() && Rely(m.steady, old(m.w), m.w)
    ensures TouchesAmong(old(m.asked), m.asked, PinsOf(runs)) && m.helper == old(m.helper) + StepsOf(runs)
    ensures JobWatched(m.steady, plan, m.memory, m.asked, old(m.w), runs, m.w)
    ensures CleanRuns(runs) <= |runs| <= |plan.requested| && FirstRequest(runs, |m.asked|) == |old(m.asked)|
    ensures r.Err? ==>
              && |job.saved| <= |old(job.saved)| + StatusesOf(runs)
              && (IsSaveFailure(r.error)
                  || (runs != []
                      && RunExplains(m.steady, r.error, m.asked, runs[|runs| - 1], plan.wait, plan.seconds, plan.mib)))
    ensures r.Ok? ==> CleanRuns(runs) == |plan.requested| && |job.saved| == |old(job.saved)| + StatusesOf(runs) + 1
    ensures r.Ok? ==> m.notes == old(m.notes) + AllHealthy(|plan.requested|)
    ensures AllSound(job.saved, plan, CleanRuns(runs), m.checks)
    ensures Sound(job.state.(phase := Running), plan, CleanRuns(runs), m.checks)
    ensures r.Ok? ==> EndsWithSuccess(job.saved)
    ensures m.faults >= old(m.faults) && (r.Err? && IsFault(r.error) ==> m.faults > old(m.faults))
  {
    ghost var done;
    r, runs, done := RunAll(m, job, plan);
    SoundGrows(job.saved, plan, done, CleanRuns(runs), m.checks, m.checks);
    StateIsSound(job.state, plan, done, CleanRuns(runs), m.checks);
    if r.Ok? {
      r := SaveSuccess(m, job, plan, m.checks);
    }
  }

  /** The body of the try statement of Execute. */
  method Attempt(m: Machine, job: Job, plan: Plan) returns (r: Result<(), Failure>, ghost runs: seq<DatasetRun>)
    requires m.Valid() && !m.Mine() && job.state == NEW_STATUS && AllSound(job.saved, plan, 0, m.checks)
    modifies m, job
    ensures m.Valid() && !m.Mine() && Rely(m.steady, old(m.w), m.w)
    ensures TouchesAmong(old(m.asked), m.asked, PinsOf(runs)) && m.helper == old(m.helper) + StepsOf(runs)
    ensures JobWatched(m.steady, plan, m.memory, m.asked, old(m.w), runs, m.w)
    ensures CleanRuns(runs) <= |runs| <= |plan.requested|
    ensures r.Ok? || runs != [] ==> IsPrepared(m.steady, old(m.w), |old(m.asked)|, m.asked, runs)
    ensures r.Err? ==>
              && |job.saved| <= |old(job.saved)| + StatusesOf(runs)
              && JobExplains(m.steady, r.error, m.faults > old(m.faults), old(m.w), m.asked, runs, m.w, plan)
    ensures r.Ok? ==> CleanRuns(runs) == |plan.requested| && |job.saved| == |old(job.saved)| + StatusesOf(runs) + 1
    ensures r.Ok? ==> m.notes == old(m.notes) + PreparedNotes(plan) + AllHealthy(|plan.requested|)
    ensures AllSound(job.saved, plan, CleanRuns(runs), m.checks)
    ensures Sound(job.state.(phase := Running), plan, CleanRuns(runs), m.checks)
    ensures r.Ok? ==> EndsWithSuccess(job.saved)
    ensures m.faults >= old(m.faults) && (r.Err? && IsFault(r.error) ==> m.faults > old(m.faults))
  {
    runs := [];
    r := Prepare(m, job, plan);
    if r.Err? {
      assert job.state.(phase := Running) == NEW_STATUS;
      NothingRan(m.steady, plan, m.memory, old(m.asked), m.asked, old(m.w), m.w);
      return;
    }
    label prepared:
    r, runs := RunAndSucceed(m, job, plan);
    RelyComposes(m.steady, old(m.w), old@prepared(m.w), m.w);
    JobWatchedSince(m.steady, plan, m.memory, m.asked, old(m.w), old@prepared(m.w), runs, m.w);
    TouchesFromNothing(old(m.asked), old@prepared(m.asked), m.asked, PinsOf(runs));
    PreparedStays(m.steady, old(m.w), |old(m.asked)|, old@prepared(m.asked), m.asked, runs);
  }

  /** The try statement of Execute with its handler. */
  method RunJob(m: Machine, job: Job, plan: Plan)
    returns (r: Result<(), Failure>, ghost runs: seq<DatasetRun>, ghost unsaved: bool)
    requires m.Valid() && !m.Mine() && job.state == NEW_STATUS && AllSound(job.saved, plan, 0, m.checks)
    modifies m, job
    ensures m.Valid() && !m.Mine() && Rely(m.steady, old(m.w), m.w)
    ensures TouchesAmong(old(m.asked), m.asked, PinsOf(runs)) && m.helper == old(m.helper) + StepsOf(runs)
    ensures JobWatched(m.steady, plan, m.memory, m.asked, old(m.w), runs, m.w)
    ensures CleanRuns(runs) <= |runs| <= |plan.requested| && |job.saved| <= |old(job.saved)| + StatusesOf(runs) + 1
    ensures r.Ok? || runs != [] ==> IsPrepared(m.steady, old(m.w), |old(m.asked)|, m.asked, runs)
    ensures r.Ok? ==> m.notes == old(m.notes) + PreparedNotes(plan) + AllHealthy(|plan.requested|)
    ensures AllSound(job.saved, plan, CleanRuns(runs), m.checks)
    ensures r.Ok? ==>
              && CleanRuns(runs) == |plan.requested| && EndsWithSuccess(job.saved)
              && |job.saved| == |old(job.saved)| + StatusesOf(runs) + 1
    ensures r.Err? && r.error != OtherError && !unsaved ==>
              job.saved != [] && job.saved[|job.saved| - 1].phase == Failed(r.error)
    ensures unsaved ==> r.Err? && IsSaveFailure(r.error)
    ensures r.Err? ==> JobExplains(m.steady, r.error, m.faults > old(m.faults), old(m.w), m.asked, runs, m.w, plan)
    ensures r == Err(JobError(DatasetExecutionDeadline)) ==> runs != [] && RanOut(runs[|runs| - 1], plan.seconds)
    ensures m.faults >= old(m.faults) && (r.Err? && IsFault(r.error) ==> m.faults > old(m.faults))
  {
    r, runs := Attempt(m, job, plan);
    if r == Err(JobError(DatasetExecutionDeadline)) {
      JobDeadlineIsTrue(m.steady, r.error, m.faults > old(m.faults), old(m.w), m.asked, runs, m.w, plan);
    }
    r, unsaved := Finish(m, job, plan, r, CleanRuns(runs), m.checks);
  }

  /**
   The whole job. Every status it saves is sound, and shows no more datasets as verified than helpers
   exited with 0; it returns normally only after it saved that the job succeeded. It ends with one of
   its own errors, or an interrupt, only after it saved that error, unless that was the failure to save
   a status. In the container it touched at most one process for each requested dataset; the datasets
   were watched one after the other, each from an idle moment on, after one more idle moment before the
   first, and every status saved while a helper ran belongs to a turn of the watch with a guarded look
   of its own.
   */
  method Execute(m: Machine, job: Job, plan: Plan)
    returns (r: Result<(), Failure>, ghost runs: seq<DatasetRun>, ghost unsaved: bool)
    requires m.Valid() && !m.Mine() && job.state == NEW_STATUS && job.saved == []
    modifies m, job
    ensures m.Valid() && !m.Mine() && Rely(m.steady, old(m.w), m.w)
    ensures TouchesAmong(old(m.asked), m.asked, PinsOf(runs)) && m.helper == old(m.helper) + StepsOf(runs)
    ensures JobWatched(m.steady, plan, m.memory, m.asked, old(m.w), runs, m.w)
    ensures CleanRuns(runs) <= |runs| <= |plan.requested| && |job.saved| <= StatusesOf(runs) + 2
    ensures r.Ok? || runs != [] ==> IsPrepared(m.steady, old(m.w), |old(m.asked)|, m.asked, runs)
    ensures r.Ok? ==> m.notes == old(m.notes) + PreparedNotes(plan) + AllHealthy(|plan.requested|)
    ensures AllSound(job.saved, plan, CleanRuns(runs), m.checks)
    ensures r.Ok? ==>
              CleanRuns(runs) == |plan.requested| && |job.saved| == StatusesOf(runs) + 2 && EndsWithSuccess(job.saved)
    ensures r.Err? && r.error != OtherError && !unsaved ==>
              job.saved != [] && job.saved[|job.saved| - 1].phase == Failed(r.error)
    ensures unsaved ==> r.Err? && IsSaveFailure(r.error)
    ensures r.Err? ==> JobExplains(m.steady, r.error, m.faults > old(m.faults), old(m.w), m.asked, runs, m.w, plan)
    ensures r == Err(JobError(DatasetExecutionDeadline)) ==> runs != [] && RanOut(runs[|runs| - 1], plan.seconds)
    ensures m.faults >= old(m.faults) && (r.Err? && IsFault(r.error) ==> m.faults > old(m.faults))
  {
    r := SaveFirst(m, job, plan, m.checks);
    assert m.w == old(m.w) && m.asked == old(m.asked) && m.helper == old(m.helper) && m.notes == old(m.notes);
    runs, unsaved := [], true;
    NothingHappened(m.steady, plan, m.memory, m.asked, m.w);
    if r.Ok? {
      r, runs, unsaved := RunJob(m, job, plan);
    }
  }

  lemma NothingHappened(steady: bool, plan: Plan, memory: Memory, asked: seq<Asking>, w: World)
    ensures Rely(steady, w, w) && TouchesAmong(asked, asked, PinsOf([])) && JobWatched(steady, plan, memory, asked, w, [], w)
    ensures StepsOf([]) == [] && StatusesOf([]) == 0 && CleanRuns([]) == 0
  {
    RelyReflexive(steady, w);
    NothingRan(steady, plan, memory, asked, asked, w, w);
  }

  method SaveFirst(m: Machine, job: Job, plan: Plan, ghost checks: seq<Check>) returns (r: Result<(), Failure>)
    requires job.state == NEW_STATUS && job.saved == []
    modifies job`saved, m`faults
    ensures AllSound(job.saved, plan, 0, checks) && |job.saved| == (if r.Ok? then 1 else 0)
    ensures r.Err? ==> IsSaveFailure(r.error)
    ensures m.faults == old(m.faults) + if r.Err? then 1 else 0
  {
    SaveIsSound([], job.state, plan, 0, checks);
    r := job.SaveStatus(m);
  }

  lemma FailureIsSound(s: Status, plan: Plan, done: nat, checks: seq<Check>, error: Failure)
    requires done <= |plan.requested| && Sound(s.(phase := Running), plan, done, checks)
    ensures Sound(s.(phase := Failed(error)), plan, done, checks)
  {
  }

  method SaveFailed(m: Machine, job: Job, plan: Plan, error: Failure, ghost done: nat, ghost checks: seq<Check>)
    returns (r: Result<(), Failure>)
    requires done <= |plan.requested| && AllSound(job.saved, plan, done, checks)
    requires Sound(job.state.(phase := Running), plan, done, checks)
    modifies job, m`faults
    ensures AllSound(job.saved, plan, done, checks)
    ensures r.Ok? ==> job.saved == old(job.saved) + [old(job.state).(phase := Failed(error))]
    ensures r.Err? ==> job.saved == old(job.saved) && IsSaveFailure(r.error)
    ensures m.faults == old(m.faults) + if r.Err? then 1 else 0
  {
    FailureIsSound(job.state, plan, done, checks, error);
    SaveIsSound(job.saved, job.state.(phase := Failed(error)), plan, done, checks);
    job.state := job.state.(phase := Failed(error));
    r := job.SaveStatus(m);
  }

  /** Saves the error, if it is one of those that are caught; a failure to do so takes its place. */
  method Finish(m: Machine, job: Job, plan: Plan, outcome: Result<(), Failure>, ghost done: nat, ghost checks: seq<Check>)
    returns (r: Result<(), Failure>, ghost unsaved: bool)
    requires done <= |plan.requested| && AllSound(job.saved, plan, done, checks)
    requires Sound(job.state.(phase := Running), plan, done, checks)
    requires outcome.Ok? ==> EndsWithSuccess(job.saved)
    modifies job, m`faults
    ensures AllSound(job.saved, plan, done, checks) && r.Ok? == outcome.Ok?
    ensures r == outcome || (r.Err? && IsSaveFailure(r.error))
    ensures r.Ok? ==> job.saved == old(job.saved)
    ensures |job.saved| <= |old(job.saved)| + 1
    ensures r.Err? && r.error != OtherError && !unsaved ==>
              job.saved != [] && job.saved[|job.saved| - 1].phase == Failed(r.error)
    ensures unsaved ==> r.Err? && IsSaveFailure(r.error)
    ensures m.faults >= old(m.faults) && (r != outcome ==> m.faults > old(m.faults))
  {
    r, unsaved := outcome, false;
    if outcome.Err? {
      var caught: bool := *;
      if caught || outcome.error.JobError? || outcome.error.Interrupted? {
        var written := SaveFailed(m, job, plan, outcome.error, done, checks);
        if written.Err? {
          r, unsaved := written, true;
        }
      }
    }
  }

  /** So a job that saved success has verified every requested dataset and the external one. */
  lemma SuccessIsComplete(saved: seq<Status>, plan: Plan, done: nat, checks: seq<Check>)
    requires done <= |plan.requested| && AllSound(saved, plan, done, checks) && EndsWithSuccess(saved)
    ensures saved[|saved| - 1].verified.Keys == Names(plan, |plan.requested|) && done == |plan.requested|
  {
    EachIsSound(saved, plan, done, checks, |saved| - 1);
  }
}
