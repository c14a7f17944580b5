/**
 The machine the FCC controller runs on. The controller takes a step, and between any two of its
 steps the rest of the machine may take any number of steps of its own: processes start, exit and
 reuse pids, other operations take the maintenance lock and publish data, and time passes.
 */
module Host {
  import opened Basics
  import opened ImportProcess

  datatype LockHolder = Free | Controller | Another

  datatype Batch = Batch(digest: string, detail: string)

  /** What is published for one dataset: current database batches, success marker, archive digest. */
  datatype Published = Published(batches: seq<Batch>, marker: Option<string>, archive: Option<string>)

  /** `born` holds every identity a process ever had; an identity is never given out twice. */
  datatype World = World(now: int, live: Table, born: set<Identity>, lock: LockHolder, store: map<string, Published>)

  ghost predicate WellFormed(w: World) {
    forall pid | pid in w.live :: Identity(pid, w.live[pid].start) in w.born
  }

  // ---------------------------------------------------------------------------------------------
  // Steps of the environment
  // ---------------------------------------------------------------------------------------------

  datatype Event =
    | Spawn(pid: nat, start: nat, args: seq<string>, vm: nat, soft: Bound, hard: Bound, nice: int)
    | Exit(pid: nat)
    | Execute(pid: nat, args: seq<string>)
    | Adjust(pid: nat, vm: nat, soft: Bound, hard: Bound, nice: int)
    | Pass(ms: nat)
    | TakeLock
    | DropLock
    | Publish(dataset: string, content: Published)

  /**
   One step. A process may lower its hard limit and priority but not raise them; data is published
   only by a holder of the maintenance lock; in a `steady` environment no import turns into another
   program. An event that is not possible changes nothing.
   */
  function Step(steady: bool, w: World, e: Event): World {
    match e {
      case Spawn(pid, start, args, vm, soft, hard, nice) =>
        if pid in w.live || Identity(pid, start) in w.born then w
        else w.(live := w.live[pid := Started(start, args, vm, soft, hard, nice)], born := w.born + {Identity(pid, start)})
      case Exit(pid) => w.(live := w.live - {pid})
      case Execute(pid, args) =>
        if pid !in w.live || (steady && w.live[pid].image.Import?) then w
        else w.(live := w.live[pid := w.live[pid].(image := Classify(args))])
      case Adjust(pid, vm, soft, hard, nice) =>
        if pid !in w.live || !AtMost(hard, w.live[pid].hard) || nice < w.live[pid].nice then w
        else w.(live := w.live[pid := w.live[pid].(vmBytes := vm, soft := soft, hard := hard, nice := nice)])
      case Pass(ms) => w.(now := w.now + ms)
      case TakeLock => if w.lock == Free then w.(lock := Another) else w
      case DropLock => if w.lock == Another then w.(lock := Free) else w
      case Publish(dataset, content) =>
        if w.lock == Another then w.(store := w.store[dataset := content]) else w
    }
  }

  /** What the later of two worlds keeps of an identity that was already known. */
  predicate Kept(steady: bool, w: World, v: World, id: Identity) {
    Alive(v.live, id) ==>
      && Alive(w.live, id)
      && AtMost(v.live[id.pid].hard, w.live[id.pid].hard)
      && v.live[id.pid].nice >= w.live[id.pid].nice
      && (steady && w.live[id.pid].image.Import? ==> v.live[id.pid].image == w.live[id.pid].image)
  }

  /** What the controller can rely on between two of its steps, however many others happen. */
  ghost predicate Rely(steady: bool, w: World, v: World) {
    && w.now <= v.now
    && w.born <= v.born
    && (forall id | id in w.born :: Kept(steady, w, v, id))
    && (w.lock == Controller ==> v.lock == Controller && v.store == w.store)
  }

  function Run(steady: bool, w: World, events: seq<Event>): World
    decreases |events|
  {
    if events == [] then w else Step(steady, Run(steady, w, events[..|events| - 1]), events[|events| - 1])
  }

  lemma StepKeepsRely(steady: bool, w: World, e: Event)
    requires WellFormed(w)
    ensures WellFormed(Step(steady, w, e)) && Rely(steady, w, Step(steady, w, e))
    ensures (Step(steady, w, e).lock == Controller) == (w.lock == Controller)
  {
  }

  lemma RelyComposes(steady: bool, u: World, v: World, w: World)
    requires Rely(steady, u, v) && Rely(steady, v, w)
    ensures Rely(steady, u, w)
  {
    forall id | id in u.born ensures Kept(steady, u, w, id) {
      assert Kept(steady, u, v, id) && Kept(steady, v, w, id);
    }
  }

  /**
   Every finite run of the environment keeps the reliance: a process that is gone never comes back,
   no hard limit grows, and nothing is published while the controller holds the lock.
   */
  lemma {:induction false} EveryRunKeepsRely(steady: bool, w: World, events: seq<Event>)
    requires WellFormed(w)
    ensures WellFormed(Run(steady, w, events)) && Rely(steady, w, Run(steady, w, events))
    ensures (Run(steady, w, events).lock == Controller) == (w.lock == Controller)
    decreases |events|
  {
    if events != [] {
      var before := events[..|events| - 1];
      EveryRunKeepsRely(steady, w, before);
      StepKeepsRely(steady, Run(steady, w, before), events[|events| - 1]);
      RelyComposes(steady, w, Run(steady, w, before), Run(steady, w, events));
    }
  }

  /** No process that should be watched is running. */
  ghost predicate Quiet(table: Table) {
    forall pid | pid in table :: table[pid].image.Unrelated?
  }

  lemma {:induction false} NothingFoundMeansQuiet(table: Table, order: seq<nat>)
    requires forall pid | pid in order :: pid in table
    requires Matches(table, order, None) == [] && Unknowns(table, order) == 0
    ensures forall pid | pid in order :: table[pid].image.Unrelated?
  {
    if order != [] {
      assert order == [order[0]] + order[1..];
      NothingFoundMeansQuiet(table, order[1..]);
    }
  }

  predicate IsDigest(s: string) {
    |s| == 64 && forall i | 0 <= i < 64 :: '0' <= s[i] <= '9' || 'a' <= s[i] <= 'f'
  }

  /** A SHA-256 digest, as it is written in lower case. */
  ghost predicate IsHexText(s: string) {
    |s| == 64 && forall c | c in s :: c in "0123456789abcdef"
  }

  lemma DigestIsHexText(s: string)
    ensures IsDigest(s) <==> IsHexText(s)
  {
    var hex := "0123456789abcdef";
    assert forall c: char :: c in hex <==> '0' <= c <= '9' || 'a' <= c <= 'f' by {
      assert forall c: char | c in hex :: '0' <= c <= '9' || 'a' <= c <= 'f';
      forall c: char | '0' <= c <= '9' || 'a' <= c <= 'f' ensures c in hex {
        assert hex[if c <= '9' then c as int - 48 else c as int - 87] == c;
      }
    }
    if IsHexText(s) {
      assert forall i | 0 <= i < 64 :: s[i] in s;
    }
  }

  /** The three places agree on one digest. */
  ghost predicate Agrees(content: Published, batch: Batch) {
    content == Published([batch], Some(batch.digest), Some(batch.digest)) && IsHexText(batch.digest)
  }

  /** A verification can raise these. */
  predicate IsVerifyFailure(f: Failure) {
    || f == JobError(DatasetDigestMismatch) || f == JobError(DatasetVerificationMissingOrAmbiguous)
    || f == JobError(CommandFailed) || !f.JobError?
  }

  /** There is not exactly one current batch, or no marker, or no archive. */
  ghost predicate IsIncomplete(store: map<string, Published>, dataset: string) {
    dataset !in store || |store[dataset].batches| != 1 || store[dataset].marker == None || store[dataset].archive == None
  }

  /** The error codes of the controller; each is written in lower case, with a line under between its words. */
  datatype Code =
    | ApplicationHealthCheckFailed | CommandFailed | DatasetDigestMismatch | DatasetExecutionDeadline
    | DatasetHelperFailed | DatasetVerificationMissingOrAmbiguous | DeployedCheckoutIsDirty
    | ExternalImportDidNotCompleteSuccessfully | ImportIdentityChanged | ImportIdentityConflict
    | ImportMemoryGuardFailed | MaintenanceBusy | MaintenanceWaitExpired | RedirectedStateDirectory
    | StateDirectoryPermissions | TimeoutExpired

  /** What can be raised: an error of the controller, an interrupt, or another exception. */
  datatype Failure = JobError(code: Code) | Interrupted | OtherError

  /** What is raised only when a command fails, or is interrupted, or an outside condition is not met. */
  predicate IsFault(f: Failure) {
    || !f.JobError? || f.code.CommandFailed? || f.code.TimeoutExpired?
    || f.code.RedirectedStateDirectory? || f.code.StateDirectoryPermissions?
    || f.code.ApplicationHealthCheckFailed? || f.code.DeployedCheckoutIsDirty?
    || f.code.ExternalImportDidNotCompleteSuccessfully?
  }

  /** While it lives, the process keeps its hard limit within the budget. */
  predicate HardAtMost(table: Table, id: Identity, budget: nat) {
    Alive(table, id) ==> AtMost(table[id.pid].hard, Finite(budget))
  }

  lemma HardStaysAtMost(steady: bool, w: World, v: World, id: Identity, budget: nat)
    requires Rely(steady, w, v) && WellFormed(w) && id in w.born && HardAtMost(w.live, id, budget)
    ensures HardAtMost(v.live, id, budget)
  {
    assert Kept(steady, w, v, id);
  }

  /** What a request may do: a probe nothing, any other only to the process it expects. */
  predicate AllowedBy(request: Request, e: Effect) {
    request.mode != Probe && (request.expected.Some? ==> e.target == request.expected.value)
  }

  /**
   The answer against the world the program ran in: it lists live imports of the dataset only; in a
   steady environment it lists all of them, and an empty answer means that nothing is running.
   */
  ghost predicate AnswersTruly(steady: bool, w: World, request: Request, answer: Answer) {
    && (forall o | o in answer.processes ::
          o.id in w.born && (request.dataset.Some? ==> Imports(w.live, o.id, request.dataset.value)))
    && (steady && request.dataset.Some? ==>
          forall id | Imports(w.live, id, request.dataset.value) :: Listed(answer, id))
    && (steady && request.dataset.None? && answer.processes == [] && answer.unknown == 0 ==> Quiet(w.live))
  }

  /** A stop answers an error exactly if it sent no signal; if it found the import, only the kernel's refusal explains that. */
  predicate StoppedAs(steady: bool, a: Asking)
    requires a.request.expected.Some? && a.answer.Ok?
  {
    && (!a.answer.value.error <==> a.effect == Some(Signalled(a.request.expected.value, a.request.force)))
    && (steady && a.request.dataset.Some? && Imports(a.seen.live, a.request.expected.value, a.request.dataset.value) ==>
          (a.answer.value.error <==> a.refused == KillRefused))
  }

  /**
   A limit request succeeds only for a live import with room left under an allowed budget, and when the
   kernel refused nothing. In a steady environment it fails only if one of these is missing, or a live
   import is unaccounted for.
   */
  ghost predicate LimitedAs(steady: bool, memory: Memory, a: Asking)
    requires a.request.expected.Some? && a.answer.Ok?
  {
    var id := a.request.expected.value;
    var fits :=
      && Alive(a.seen.live, id) && a.seen.live[id.pid].image.Import?
      && (a.request.dataset.Some? ==> a.seen.live[id.pid].image.dataset == a.request.dataset.value)
      && 256 <= a.request.mib <= 4096 && a.seen.live[id.pid].vmBytes < Allowed(a.request.mib, memory)
      && a.refused != LimitRefused && a.refused != PriorityRefused;
    && (!a.answer.value.error ==> fits)
    && (steady && fits && a.answer.value.error ==> exists pid | pid in a.seen.live :: a.seen.live[pid].image == UnknownImport)
  }

  /**
   The lock was free at a moment after `start`; the controller took it, and under it a probe found
   nothing; then it gave it back. In a steady environment no process was an import at that moment.
   */
  ghost predicate IsIdleMoment(steady: bool, start: World, free: World, a: Asking, now: World) {
    && FoundNothing(a) && WellFormed(a.seen) && a.seen.lock == Controller
    && TakenAt(steady, start, free, a.seen) && Rely(steady, a.seen.(lock := Free), now)
    && (steady ==> Quiet(a.seen.live))
  }

  predicate Listed(answer: Answer, id: Identity) {
    exists o :: o in answer.processes && o.id == id
  }

  /** A verification that was recorded: the dataset, its batch, and the world at the moment of its last reading. */
  datatype Check = Check(dataset: string, batch: Batch, at: World)

  /** At that moment the controller held the lock, and the three places agreed on the batch. */
  ghost predicate Proves(c: Check) {
    c.at.lock == Controller && c.dataset in c.at.store && Agrees(c.at.store[c.dataset], c.batch)
  }

  /**
   One request for a run of the program, in the order of asking: the world it ran in, what the kernel
   refused, what it did, and what came back. A request that is lost on the way did nothing.
   */
  datatype Asking = Asking(
    request: Request, seen: World, refused: Refusal, effect: Option<Effect>, answer: Result<Answer, Failure>)

  /** The outcome is one of a run of the program in this world, for some readable processes. */
  ghost predicate IsRun(steady: bool, memory: Memory, request: Request, w: World, refused: Refusal, outcome: Outcome) {
    exists order: seq<nat> ::
      && (forall pid | pid in order :: pid in w.live)
      && (forall i, j | 0 <= i < j < |order| :: order[i] != order[j])
      && (steady ==> forall pid | pid in w.live :: pid in order)
      && outcome == RunProgram(w.live, order, request, memory, refused)
  }

  const IDLE_PROBE := Request(Probe, None, None, false, 4096)

  /** A probe that found no import at all. */
  predicate FoundNothing(a: Asking) {
    a.request == IDLE_PROBE && a.answer.Ok? && a.answer.value.processes == [] && a.answer.value.unknown == 0
  }

  /** Everything asked since `before` touched the pinned process only; nothing was touched if none is pinned. */
  predicate OnlyTouches(before: seq<Asking>, after: seq<Asking>, pinned: Option<Identity>) {
    && before <= after
    && forall i | |before| <= i < |after| && after[i].effect.Some? :: pinned == Some(after[i].effect.value.target)
  }

  /** The world at a moment between two others when the lock was not free. */
  ghost predicate WasBusy(steady: bool, start: World, at: World, now: World) {
    Rely(steady, start, at) && Rely(steady, at, now) && at.lock != Free
  }

  /** A call of the program can raise these. */
  predicate IsCallFailure(f: Failure) {
    f == Interrupted || f == JobError(CommandFailed) || f == JobError(TimeoutExpired)
  }

  /** A wait for an idle moment can raise these: the wait is over, or the program did not answer, or an interrupt. */
  predicate IsWaitFailure(f: Failure) {
    f == JobError(MaintenanceWaitExpired) || IsCallFailure(f)
  }

  /**
   At its last turn the wait found no idle moment: another operation held the lock, or the probe
   under the lock found an import.
   */
  ghost predicate WasNotIdle(steady: bool, start: World, at: World, asked: seq<Asking>, now: World) {
    || WasBusy(steady, start, at, now)
    || (asked != [] && var a := asked[|asked| - 1];
        a.request == IDLE_PROBE && a.answer.Ok? && (a.answer.value.processes != [] || a.answer.value.unknown > 0)
        && Rely(steady, start, a.seen))
  }

  /** The world at a moment between two others when the lock was free, and was taken by the controller. */
  ghost predicate TakenAt(steady: bool, start: World, free: World, held: World) {
    WellFormed(free) && Rely(steady, start, free) && free.lock == Free && Rely(steady, free.(lock := Controller), held)
  }

  /** The asking is a run of the program in the world it names; the answer of the run may be lost on its way back. */
  ghost predicate IsGenuine(steady: bool, memory: Memory, a: Asking) {
    exists outcome :: IsRun(steady, memory, a.request, a.seen, a.refused, outcome)
                      && a.effect == outcome.effect && (a.answer.Ok? ==> a.answer.value == outcome.answer)
  }

  /** The request did not arrive. */
  predicate IsLost(a: Asking) {
    a.answer.Err? && a.effect.None?
  }

  ghost predicate GenuineAt(steady: bool, memory: Memory, asked: seq<Asking>, i: nat)
    requires i < |asked|
  {
    IsGenuine(steady, memory, asked[i]) || IsLost(asked[i])
  }

  /** Every asking is genuine or lost. */
  ghost predicate AllGenuine(steady: bool, memory: Memory, asked: seq<Asking>) {
    forall i | 0 <= i < |asked| :: GenuineAt(steady, memory, asked, i)
  }

  /** The asking is a run of the program, what the run did to the processes was done by now, or it was lost. */
  ghost predicate RanBefore(steady: bool, memory: Memory, a: Asking, now: World) {
    || IsLost(a)
    || exists outcome :: IsRun(steady, memory, a.request, a.seen, a.refused, outcome)
                         && a.effect == outcome.effect && (a.answer.Ok? ==> a.answer.value == outcome.answer)
                         && Rely(steady, a.seen.(live := outcome.table), now)
  }

  /** What the controller does with a helper: it starts it, asks for its exit code, and signals its process group. */
  datatype HelperStep =
    | Launched(dataset: string, at: World)
    | Polled(code: Option<int>, time: int)
    | GroupSignal(force: bool, time: int)

  /**
   What the controller was told outside of the container: whether it is the only controller, whether the
   checkout is the release, whether the log says that the external import completed, and whether the
   application is healthy.
   */
  datatype Note = OnlyController(so: bool) | CleanRelease(so: bool) | ExternalCompleted(so: bool) | Healthy(so: bool)

  // ---------------------------------------------------------------------------------------------
  // The controller's view of the machine
  // ---------------------------------------------------------------------------------------------

  class Machine {
    var w: World
    const steady: bool
    const memory: Memory
    ghost var asked: seq<Asking>
    ghost var checks: seq<Check>
    ghost var helper: seq<HelperStep>

    /** How many faults there were. */
    ghost var faults: nat

    /** For how long the controller has slept. */
    ghost var slept: nat
    ghost var notes: seq<Note>

    ghost predicate Valid()
      reads this
    {
      WellFormed(w) && AllGenuine(steady, memory, asked)
    }

    ghost predicate Mine()
      reads this
    {
      w.lock == Controller
    }

    constructor (world: World, steady: bool, memory: Memory)
      requires WellFormed(world)
      ensures Valid() && w == world && asked == [] && checks == [] && helper == [] && faults == 0 && slept == 0 && notes == []
      ensures this.steady == steady && this.memory == memory
    {
      w, asked, checks, helper, faults, slept, notes := world, [], [], [], 0, 0, [];
      this.steady, this.memory := steady, memory;
    }

    /** Any number of steps of the environment. */
    method Interfere()
      requires Valid()
      modifies this`w
      ensures Valid() && Rely(steady, old(w), w) && Mine() == old(Mine())
    {
      var steps: nat := *;
      while steps > 0
        invariant Valid() && Rely(steady, old(w), w) && Mine() == old(Mine())
      {
        var e: Event := *;
        StepKeepsRely(steady, w, e);
        RelyComposes(steady, old(w), w, Step(steady, w, e));
        w := Step(steady, w, e);
        steps := steps - 1;
      }
    }

    method Sleep(ms: nat)
      requires Valid()
      modifies this`w, this`slept
      ensures Valid() && Rely(steady, old(w), w) && Mine() == old(Mine())
      ensures w.now >= old(w.now) + ms && slept == old(slept) + ms
    {
      w, slept := w.(now := w.now + ms), slept + ms;
      assert Rely(steady, old(w), w);
      label slept:
      Interfere();
      RelyComposes(steady, old(w), old@slept(w), w);
    }

    /** The process directories that could be read: in a steady environment, all of them. */
    method ReadableProcesses() returns (order: seq<nat>)
      ensures forall pid | pid in order :: pid in w.live
      ensures forall i, j | 0 <= i < j < |order| :: order[i] != order[j]
      ensures steady ==> forall pid | pid in w.live :: pid in order
    {
      order := [];
      var left := w.live.Keys;
      while left != {}
        invariant left <= w.live.Keys
        invariant forall pid | pid in order :: pid in w.live && pid !in left
        invariant forall i, j | 0 <= i < j < |order| :: order[i] != order[j]
        invariant steady ==> forall pid | pid in w.live :: pid in order || pid in left
        decreases left
      {
        var pid :| pid in left;
        left := left - {pid};
        var readable: bool := *;
        if steady || readable {
          order := order + [pid];
        }
      }
    }

    /** One run of the program in the container: a single atomic step, which changes the process table only. */
    method Perform(request: Request) returns (answer: Answer, ghost refused: Refusal, ghost outcome: Outcome)
      requires Valid()
      modifies this`w
      ensures IsRun(steady, memory, request, old(w), refused, outcome)
      ensures w == old(w).(live := outcome.table) && answer == outcome.answer
    {
      var order := ReadableProcesses();
      var matches, unknown := Scan(w.live, order, request.dataset);
      var refusal: Refusal := *;
      var result := Act(w.live, matches, unknown, request, memory, refusal);
      assert result == RunProgram(w.live, order, request, memory, refusal);
      w := w.(live := result.table);
      answer, refused, outcome := result.answer, refusal, result;
    }

    /** Something goes wrong. */
    ghost method Fault()
      modifies this`faults
      ensures faults == old(faults) + 1
    {
      faults := faults + 1;
    }

    /** What the answer to one of these four questions is. */
    method Learn(question: bool -> Note) returns (so: bool)
      modifies this`notes
      ensures notes == old(notes) + [question(so)]
    {
      so := *;
      notes := notes + [question(so)];
    }

    /** Asks for a run of the program. The call can fail before the program runs, or after it did. */
    method Ask(request: Request) returns (r: Result<Answer, Failure>, ghost a: Asking)
      requires Valid()
      modifies this`w, this`asked, this`faults
      ensures Valid() && Rely(steady, old(w), w) && Mine() == old(Mine())
      ensures asked == old(asked) + [a] && a.request == request && a.answer == r
      ensures Rely(steady, old(w), a.seen) && Rely(steady, a.seen, w) && WellFormed(a.seen)
      ensures (a.seen.lock == Controller) == old(Mine())
      ensures RanBefore(steady, memory, a, w)
      ensures a.effect.Some? ==> AllowedBy(request, a.effect.value)
      ensures r.Ok? ==> AnswersTruly(steady, a.seen, request, r.value)
      ensures r.Ok? && request.mode == Limit && request.expected.Some? && !r.value.error ==>
                256 <= request.mib && HardAtMost(w.live, request.expected.value, Budget(request.mib, memory))
      ensures r.Ok? && request.mode == Stop && request.expected.Some? ==> StoppedAs(steady, a)
      ensures r.Ok? && request.mode == Limit && request.expected.Some? ==> LimitedAs(steady, memory, a)
      ensures r.Err? ==> IsCallFailure(r.error)
      ensures faults >= old(faults) && (r.Err? && IsFault(r.error) ==> faults > old(faults))
    {
      Interfere();
      ghost var seen := w;
      RelyReflexive(steady, w);
      var interrupt: bool := *;
      var lost: bool := *;
      if lost {
        r := Err(if interrupt then Interrupted else JobError(CommandFailed));
        a := Asking(request, seen, Nothing, None, r);
        GenuineGrows(steady, memory, asked, a, w);
        asked := asked + [a];
        Fault();
        return;
      }
      ghost var refused, outcome;
      var answer;
      answer, refused, outcome := Perform(request);
      RunFacts(steady, memory, request, seen, refused, outcome);
      StopFacts(steady, memory, request, seen, refused, outcome);
      LimitFacts(steady, memory, request, seen, refused, outcome);
      RelyComposes(steady, old(w), seen, w);
      label acted:
      Interfere();
      RelyComposes(steady, old(w), old@acted(w), w);
      RelyComposes(steady, seen, old@acted(w), w);
      if request.mode == Limit && request.expected.Some? && !answer.error {
        HardStaysAtMost(steady, old@acted(w), w, request.expected.value, Budget(request.mib, memory));
      }
      var answered: bool := *;
      r := if answered then Ok(answer) else Err(if interrupt then Interrupted else JobError(TimeoutExpired));
      a := Asking(request, seen, refused, outcome.effect, r);
      GenuineGrows(steady, memory, asked, a, w);
      asked := asked + [a];
      if !answered {
        Fault();
      }
    }

    // -------------------------------------------------------------------------------------------
    // The maintenance lock
    // -------------------------------------------------------------------------------------------

    /**
     Takes the lock, trying again until `wait` has passed. It succeeds exactly when it returns with
     the lock held, which it took at a moment when it was free; it gives up only after the wait is
     over, at a moment when the lock was not free; its sleeps never add up to more, and none is longer
     than 15 seconds.
     */
    method FileLock(wait: nat) returns (r: Result<(), Failure>, ghost free: World, ghost tries: nat)
      requires Valid() && !Mine()
      modifies this`w, this`faults, this`slept
      ensures Valid() && Rely(steady, old(w), w)
      ensures r.Ok? == Mine()
      ensures r.Ok? ==> TakenAt(steady, old(w), free, w) && w == free.(lock := Controller)
      ensures r.Err? ==> r.error in {Interrupted, JobError(MaintenanceBusy)}
      ensures r == Err(JobError(MaintenanceBusy)) ==> w.now >= old(w.now) + wait && WasBusy(steady, old(w), free, w)
      ensures old(slept) <= slept <= old(slept) + wait && w.now - old(w.now) >= slept - old(slept)
      ensures slept <= old(slept) + 15000 * (tries - 1)
      ensures faults >= old(faults) && (r.Err? && IsFault(r.error) ==> faults > old(faults))
    {
      RelyReflexive(steady, w);
      var end := w.now + wait;
      tries, free := 0, w;
      while true
        invariant Valid() && !Mine() && Rely(steady, old(w), w)
        invariant w.now - old(w.now) >= slept - old(slept) && slept <= old(slept) + wait && faults == old(faults)
        invariant old(slept) <= slept <= old(slept) + 15000 * tries
        decreases Max(0, end - w.now)
      {
        label turn:
        Interfere();
        RelyComposes(steady, old(w), old@turn(w), w);
        tries := tries + 1;
        if w.lock == Free {
          free := w;
          w := w.(lock := Controller);
          RelyReflexive(steady, w);
          return Ok(()), free, tries;
        }
        var interrupt: bool := *;
        if interrupt {
          Fault();
          return Err(Interrupted), free, tries;
        }
        if w.now >= end {
          free := w;
          RelyReflexive(steady, w);
          return Err(JobError(MaintenanceBusy)), free, tries;
        }
        label clock:
        Interfere();
        RelyComposes(steady, old(w), old@clock(w), w);
        var nap := Min(15000, Max(0, end - w.now));
        label nap:
        Sleep(nap);
        RelyComposes(steady, old(w), old@nap(w), w);
      }
    }

    method Unlock()
      requires Valid() && Mine()
      modifies this`w
      ensures Valid() && w == old(w).(lock := Free)
    {
      w := w.(lock := Free);
    }

    /** One turn of the wait for an idle moment: it takes the lock if it is free, probes under it, and gives it back. */
    method ProbeUnderLock() returns (r: Result<bool, Failure>, ghost free: World)
      requires Valid() && !Mine()
      modifies this`w, this`asked, this`faults, this`slept
      ensures slept == old(slept)
      ensures Valid() && !Mine() && Rely(steady, old(w), w) && OnlyTouches(old(asked), asked, None)
      ensures r == Ok(true) ==>
                && |asked| == |old(asked)| + 1
                && IsIdleMoment(steady, old(w), free, asked[|asked| - 1], w)
      ensures r == Ok(false) ==> WasNotIdle(steady, old(w), free, asked, w)
      ensures r.Err? ==> IsWaitFailure(r.error) && r.error != JobError(MaintenanceWaitExpired)
      ensures faults >= old(faults) && (r.Err? && IsFault(r.error) ==> faults > old(faults))
    {
      RelyReflexive(steady, w);
      var locked, taken, _ := FileLock(0);
      free := taken;
      if locked.Err? {
        return if locked.error == JobError(MaintenanceBusy) then Ok(false) else Err(locked.error), free;
      }
      label held:
      var answer, a := Ask(IDLE_PROBE);
      RelyComposes(steady, old(w), old@held(w), w);
      RelyComposes(steady, old(w), old@held(w), a.seen);
      Released(steady, a.seen, w);
      Released(steady, old(w), w);
      Unlock();
      if answer.Err? {
        return Err(answer.error), free;
      }
      r := Ok(answer.value.processes == [] && answer.value.unknown == 0);
    }

    /**
     Waits until, at one moment under the lock, no import was found. The lock is given back before
     it returns. The last request was the probe of that moment; it sleeps 15 seconds between two tries,
     and less than the wait and 15 seconds in all. It gives up only when the wait is over and its last
     try was not idle.
     */
    method WaitIdle(wait: nat) returns (r: Result<(), Failure>, ghost free: World, ghost tries: nat)
      requires Valid() && !Mine()
      modifies this`w, this`asked, this`faults, this`slept
      ensures Valid() && !Mine() && Rely(steady, old(w), w) && OnlyTouches(old(asked), asked, None)
      ensures r.Ok? ==> |asked| > |old(asked)| && IsIdleMoment(steady, old(w), free, asked[|asked| - 1], w)
      ensures slept < old(slept) + wait + 15000 && w.now - old(w.now) >= slept - old(slept)
      ensures slept == old(slept) + 15000 * (tries - 1) || (r == Err(Interrupted) && slept == old(slept) + 15000 * tries)
      ensures r.Err? ==> IsWaitFailure(r.error)
      ensures r == Err(JobError(MaintenanceWaitExpired)) ==>
                w.now >= old(w.now) + wait && WasNotIdle(steady, old(w), free, asked, w)
      ensures faults >= old(faults) && (r.Err? && IsFault(r.error) ==> faults > old(faults))
    {
      RelyReflexive(steady, w);
      var end := w.now + wait;
      tries := 0;
      while true
        invariant Valid() && !Mine() && Rely(steady, old(w), w) && OnlyTouches(old(asked), asked, None)
        invariant w.now - old(w.now) >= slept - old(slept) && slept < old(slept) + wait + 15000 && faults >= old(faults)
        invariant slept == old(slept) + 15000 * tries
        decreases Max(0, end - w.now)
      {
        label turn:
        var idle, taken := ProbeUnderLock();
        free, tries := taken, tries + 1;
        RelyComposes(steady, old(w), old@turn(w), w);
        TouchesCompose(old(asked), old@turn(asked), asked, None, None);
        if idle.Err? {
          return Err(idle.error), free, tries;
        }
        if idle.value {
          IdleSince(steady, old(w), old@turn(w), free, asked[|asked| - 1], w);
          return Ok(()), free, tries;
        }
        if w.now >= end {
          NotIdleSince(steady, old(w), old@turn(w), free, asked, w);
          return Err(JobError(MaintenanceWaitExpired)), free, tries;
        }
        label nap:
        Sleep(15000);
        RelyComposes(steady, old(w), old@nap(w), w);
        var interrupt: bool := *;
        if interrupt {
          Fault();
          return Err(Interrupted), free, tries;
        }
      }
    }

    // -------------------------------------------------------------------------------------------
    // Verification of a published dataset
    // -------------------------------------------------------------------------------------------

    /**
     Reads the database, the marker and the archive one after the other. Under the lock the three
     readings belong to one state of the store, so a success means that the store agrees now, and
     each of the two refusals that it does not.
     */
    method VerifyDataset(dataset: string) returns (r: Result<Batch, Failure>)
      requires Valid() && Mine()
      modifies this`w, this`checks, this`faults
      ensures Valid() && Mine() && Rely(steady, old(w), w)
      ensures r.Ok? ==> dataset in w.store && Agrees(w.store[dataset], r.value)
      ensures r.Ok? ==> checks == old(checks) + [Check(dataset, r.value, w)]
      ensures r.Err? ==> checks == old(checks)
      ensures r == Err(JobError(DatasetDigestMismatch)) ==>
                !IsIncomplete(w.store, dataset) && forall b :: !Agrees(w.store[dataset], b)
      ensures r == Err(JobError(DatasetVerificationMissingOrAmbiguous)) ==> IsIncomplete(w.store, dataset)
      ensures r.Err? ==> IsVerifyFailure(r.error)
      ensures faults >= old(faults) && (r.Err? && IsFault(r.error) ==> faults > old(faults))
    {
      Interfere();
      var lost: bool := *;
      if lost {
        Fault();
        var interrupt: bool := *;
        return Err(if interrupt then Interrupted else JobError(CommandFailed));
      }
      if dataset !in w.store {
        return Err(JobError(DatasetVerificationMissingOrAmbiguous));
      }
      var batches := w.store[dataset].batches;
      label queried:
      Interfere();
      RelyComposes(steady, old(w), old@queried(w), w);
      var marker := w.store[dataset].marker;
      if |batches| != 1 || w.store[dataset].archive.None? || marker.None? {
        return Err(JobError(DatasetVerificationMissingOrAmbiguous));
      }
      var digest := marker.value;
      label marked:
      Interfere();
      RelyComposes(steady, old(w), old@marked(w), w);
      var unreadable: bool := *;
      if unreadable {
        Fault();
        return Err(OtherError);
      }
      var actual := w.store[dataset].archive.value;
      DigestIsHexText(digest);
      if !IsDigest(digest) || batches[0].digest != digest || actual != digest {
        return Err(JobError(DatasetDigestMismatch));
      }
      checks := checks + [Check(dataset, batches[0], w)];
      r := Ok(batches[0]);
    }
  }

  lemma GenuineGrows(steady: bool, memory: Memory, asked: seq<Asking>, a: Asking, now: World)
    requires AllGenuine(steady, memory, asked) && RanBefore(steady, memory, a, now)
    ensures AllGenuine(steady, memory, asked + [a])
  {
    forall i | 0 <= i < |asked + [a]| ensures GenuineAt(steady, memory, asked + [a], i) {
      assert i < |asked| ==> GenuineAt(steady, memory, asked, i);
    }
  }

  lemma RelyReflexive(steady: bool, w: World)
    ensures Rely(steady, w, w)
  {
  }

  /** Giving the lock back keeps what was relied on since a moment when it was not needed. */
  lemma Released(steady: bool, u: World, w: World)
    requires Rely(steady, u, w)
    ensures Rely(steady, u.(lock := Free), w.(lock := Free))
    ensures u.lock != Controller ==> Rely(steady, u, w.(lock := Free))
  {
    forall id | id in u.born
      ensures Kept(steady, u.(lock := Free), w.(lock := Free), id) && Kept(steady, u, w.(lock := Free), id)
    {
      assert Kept(steady, u, w, id);
    }
  }

  lemma IdleSince(steady: bool, start: World, turn: World, free: World, a: Asking, now: World)
    requires Rely(steady, start, turn) && IsIdleMoment(steady, turn, free, a, now)
    ensures IsIdleMoment(steady, start, free, a, now)
  {
    RelyComposes(steady, start, turn, free);
  }

  lemma NotIdleSince(steady: bool, start: World, turn: World, at: World, asked: seq<Asking>, now: World)
    requires Rely(steady, start, turn) && WasNotIdle(steady, turn, at, asked, now)
    ensures WasNotIdle(steady, start, at, asked, now)
  {
    if WasBusy(steady, turn, at, now) {
      RelyComposes(steady, start, turn, at);
    } else {
      RelyComposes(steady, start, turn, asked[|asked| - 1].seen);
    }
  }

  lemma TouchesCompose(a: seq<Asking>, b: seq<Asking>, c: seq<Asking>, pinned: Option<Identity>, later: Option<Identity>)
    requires OnlyTouches(a, b, pinned) && OnlyTouches(b, c, later) && (pinned.Some? ==> later == pinned)
    ensures OnlyTouches(a, c, later)
  {
    forall i | |a| <= i < |c| && c[i].effect.Some? ensures later == Some(c[i].effect.value.target) {
      if i < |b| {
        assert c[i] == b[i];
      }
    }
  }

  lemma OutcomeFacts(table: Table, order: seq<nat>, request: Request, memory: Memory, refused: Refusal)
    requires forall pid | pid in order :: pid in table
    ensures var r := RunProgram(table, order, request, memory, refused);
            && r.table.Keys == table.Keys
            && (forall pid | pid in table ::
                  && r.table[pid].start == table[pid].start && r.table[pid].image == table[pid].image
                  && AtMost(r.table[pid].hard, table[pid].hard) && r.table[pid].nice >= table[pid].nice)
            && (request.mode == Probe ==> r.effect.None?)
            && (r.effect.Some? && request.expected.Some? ==> r.effect.value.target == request.expected.value)
  {
    OnlyTheExpectedImportIsTouched(table, order, request, memory, refused);
    var chosen := Selected(Matches(table, order, request.dataset), request.expected);
    if |chosen| == 1 {
      assert chosen[0] in chosen;
    }
  }

  /** What the world after a run, and its answer, have to do with the world before it. */
  lemma RunFacts(steady: bool, memory: Memory, request: Request, w: World, refused: Refusal, outcome: Outcome)
    requires WellFormed(w) && IsRun(steady, memory, request, w, refused, outcome)
    ensures var v := w.(live := outcome.table);
            && WellFormed(v) && Rely(steady, w, v) && AnswersTruly(steady, w, request, outcome.answer)
            && (outcome.effect.Some? ==> AllowedBy(request, outcome.effect.value))
  {
    var order := TheOrder(steady, memory, request, w, refused, outcome);
    OutcomeFacts(w.live, order, request, memory, refused);
    OutcomeAnswers(steady, w, order, request, memory, refused);
  }

  lemma TheOrder(steady: bool, memory: Memory, request: Request, w: World, refused: Refusal, outcome: Outcome)
    returns (order: seq<nat>)
    requires IsRun(steady, memory, request, w, refused, outcome)
    ensures (forall pid | pid in order :: pid in w.live) && forall i, j | 0 <= i < j < |order| :: order[i] != order[j]
    ensures steady ==> forall pid | pid in w.live :: pid in order
    ensures outcome == RunProgram(w.live, order, request, memory, refused)
  {
    order :|
      && (forall pid | pid in order :: pid in w.live)
      && (forall i, j | 0 <= i < j < |order| :: order[i] != order[j])
      && (steady ==> forall pid | pid in w.live :: pid in order)
      && outcome == RunProgram(w.live, order, request, memory, refused);
  }

  lemma StopFacts(steady: bool, memory: Memory, request: Request, w: World, refused: Refusal, outcome: Outcome)
    requires IsRun(steady, memory, request, w, refused, outcome)
    ensures request.mode == Stop && request.expected.Some? ==>
              StoppedAs(steady, Asking(request, w, refused, outcome.effect, Ok(outcome.answer)))
  {
    if request.mode == Stop && request.expected.Some? {
      var order := TheOrder(steady, memory, request, w, refused, outcome);
      StopFailsExactly(w.live, order, request, memory, refused);
    }
  }

  lemma LimitFacts(steady: bool, memory: Memory, request: Request, w: World, refused: Refusal, outcome: Outcome)
    requires WellFormed(w) && IsRun(steady, memory, request, w, refused, outcome)
    ensures request.mode == Limit && request.expected.Some? ==>
              LimitedAs(steady, memory, Asking(request, w, refused, outcome.effect, Ok(outcome.answer)))
    ensures request.mode == Limit && request.expected.Some? && !outcome.answer.error ==>
              && 256 <= request.mib && request.expected.value in w.born
              && HardAtMost(outcome.table, request.expected.value, Budget(request.mib, memory))
  {
    if request.mode == Limit && request.expected.Some? {
      var order := TheOrder(steady, memory, request, w, refused, outcome);
      LimitFailsExactly(w.live, order, request, memory, refused);
      if !outcome.answer.error {
        LimitedMeansWithinBudget(w.live, order, request, memory, refused);
      }
    }
  }

  lemma OutcomeAnswers(steady: bool, w: World, order: seq<nat>, request: Request, memory: Memory, refused: Refusal)
    requires WellFormed(w) && forall pid | pid in order :: pid in w.live
    requires steady ==> forall pid | pid in w.live :: pid in order
    ensures AnswersTruly(steady, w, request, RunProgram(w.live, order, request, memory, refused).answer)
  {
    var answer := RunProgram(w.live, order, request, memory, refused).answer;
    forall o | o in answer.processes
      ensures o.id in w.born && (request.dataset.Some? ==> Imports(w.live, o.id, request.dataset.value))
    {
      AnswersAreLiveImports(w.live, order, request, memory, refused, o);
    }
    if steady && request.dataset.Some? {
      forall id | Imports(w.live, id, request.dataset.value) ensures Listed(answer, id) {
        EveryReadImportIsListed(w.live, order, request, memory, refused, id);
      }
    }
    if steady && request.dataset.None? && answer.processes == [] && answer.unknown == 0 {
      NoAnswerNoMatches(w.live, order, request, memory, refused);
      NothingFoundMeansQuiet(w.live, order);
    }
  }

  lemma NoAnswerNoMatches(table: Table, order: seq<nat>, request: Request, memory: Memory, refused: Refusal)
    requires forall pid | pid in order :: pid in table
    requires RunProgram(table, order, request, memory, refused).answer.processes == []
    ensures Matches(table, order, request.dataset) == []
  {
  }
}
