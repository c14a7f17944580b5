/**
 Running one script on the virtual machine through a managed command: the controller looks up the
 machine, submits the command once, polls it until it has ended or a deadline passes, and removes it
 only after it was seen to succeed. The service works on commands between any two requests.
 */
module Transport {
  import opened Basics

  // ---------------------------------------------------------------------------------------------
  // The reading of a command
  // ---------------------------------------------------------------------------------------------

  datatype State = Succeeded | Failed | TimedOut | Canceled | OtherState

  datatype Instance = Instance(state: Option<State>, exitCode: Option<int>)

  datatype Provisioning = ProvisioningFailed | ProvisioningCanceled | OtherProvisioning

  datatype Resource = Resource(instance: Option<Instance>, provisioning: Option<Provisioning>)

  /** Whether the command succeeded; nothing while that is not known. */
  function ExecutionResult(resource: Resource): Option<bool> {
    var instance := if resource.instance.Some? then resource.instance.value else Instance(None, None);
    if instance.state.Some? && !instance.state.value.OtherState? then
      Some(instance.state.value.Succeeded? && instance.exitCode == Some(0))
    else if resource.provisioning == Some(ProvisioningFailed) || resource.provisioning == Some(ProvisioningCanceled) then
      Some(false)
    else None
  }

  /** The state of the execution, if the service tells one. */
  ghost function StateOf(r: Resource): Option<State> {
    if r.instance.None? then None else r.instance.value.state
  }

  /**
   Every reading: success is the state of that name with exit code 0; a failure is one of the three other
   final states, or that name with another exit code or none, or, without a final state, a provisioning
   that failed or was canceled. All else is undecided.
   */
  lemma ExecutionExactly(r: Resource)
    ensures ExecutionResult(r) == Some(true) <==> StateOf(r) == Some(Succeeded) && r.instance.value.exitCode == Some(0)
    ensures ExecutionResult(r) == Some(false) <==>
            || StateOf(r) == Some(Failed) || StateOf(r) == Some(TimedOut) || StateOf(r) == Some(Canceled)
            || (StateOf(r) == Some(Succeeded) && r.instance.value.exitCode != Some(0))
            || ((StateOf(r) == None || StateOf(r) == Some(OtherState))
                && (r.provisioning == Some(ProvisioningFailed) || r.provisioning == Some(ProvisioningCanceled)))
  {
  }

  /** What the service says about provisioning can neither prove a success nor take one back. */
  lemma ProvisioningProvesNoSuccess(r: Resource, provisioning: Option<Provisioning>)
    ensures ExecutionResult(r) == Some(true) <==> ExecutionResult(r.(provisioning := provisioning)) == Some(true)
    ensures ExecutionResult(r) == Some(true) ==> r.instance.Some? && r.instance.value.exitCode == Some(0)
  {
  }

  // ---------------------------------------------------------------------------------------------
  // The requests of one execution
  // ---------------------------------------------------------------------------------------------

  /** A request with what came back: no location, not accepted, no reading, or not removed if it failed. */
  datatype Exchange =
    | Located(found: bool)
    | Submitted(accepted: bool)
    | Polled(reading: Option<Resource>)
    | Removed(done: bool)

  datatype Phase = Ready | HasMachine | Polling | Proven | Closed | Broken | Illegal

  predicate Proves(e: Exchange) {
    e.Polled? && e.reading.Some? && ExecutionResult(e.reading.value) == Some(true)
  }

  predicate Disproves(e: Exchange) {
    e.Polled? && e.reading.Some? && ExecutionResult(e.reading.value) == Some(false)
  }

  /** The request failed, and its failure is not ignored. */
  predicate IsLost(e: Exchange) {
    e == Located(false) || e == Submitted(false) || e == Polled(None)
  }

  predicate Undecided(e: Exchange) {
    e.Polled? && e.reading.Some? && ExecutionResult(e.reading.value).None?
  }

  function Next(phase: Phase, e: Exchange): Phase {
    match (phase, e)
    case (Ready, Located(found)) => if found then HasMachine else Broken
    case (HasMachine, Submitted(accepted)) => if accepted then Polling else Broken
    case (Polling, Polled(_)) => if Undecided(e) then Polling else if Proves(e) then Proven else Broken
    case (Proven, Removed(_)) => Closed
    case _ => Illegal
  }

  function From(phase: Phase, trace: seq<Exchange>): Phase {
    if trace == [] then phase else Next(From(phase, trace[..|trace| - 1]), trace[|trace| - 1])
  }

  function After(trace: seq<Exchange>): Phase {
    From(Ready, trace)
  }

  lemma FromOne(phase: Phase, trace: seq<Exchange>, e: Exchange)
    ensures From(phase, trace + [e]) == Next(From(phase, trace), e)
  {
    assert (trace + [e])[..|trace|] == trace;
  }

  lemma {:induction false} FromBoth(phase: Phase, a: seq<Exchange>, b: seq<Exchange>)
    ensures From(phase, a + b) == From(From(phase, a), b)
  {
    if b == [] {
      assert a + b == a;
    } else {
      var front := b[..|b| - 1];
      FromBoth(phase, a, front);
      assert a + b == (a + front) + [b[|b| - 1]];
      FromOne(phase, a + front, b[|b| - 1]);
    }
  }

  /** What may stand at place i, and what may follow there. */
  predicate FitsAt(t: seq<Exchange>, i: nat)
    requires i < |t|
  {
    && (i == 0 <==> t[i].Located?)
    && (i == 1 <==> t[i].Submitted?)
    && (t[i].Removed? ==> i == |t| - 1 && i >= 3 && Proves(t[i - 1]))
    && (i < |t| - 1 ==> t[i] == Located(true) || t[i] == Submitted(true) || Undecided(t[i]) || (Proves(t[i]) && t[i + 1].Removed?))
  }

  predicate Fits(t: seq<Exchange>) {
    forall i | 0 <= i < |t| :: FitsAt(t, i)
  }

  /**
   The legal traces, place by place: the machine is looked up first, the command is submitted second
   and never again, then come polls, and a removal can only be the last request, right after a poll
   that proved a success. No request follows a failed one.
   */
  lemma {:induction false} LegalTracesExactly(t: seq<Exchange>)
    ensures After(t) != Illegal <==> Fits(t)
    ensures After(t) == Closed <==> Fits(t) && t != [] && t[|t| - 1].Removed?
    ensures After(t) == Proven <==> Fits(t) && t != [] && Proves(t[|t| - 1])
    ensures After(t) == Ready <==> t == []
    ensures After(t) == HasMachine <==> t == [Located(true)]
    ensures After(t) == Polling ==> |t| >= 2 && (t[|t| - 1] == Submitted(true) || Undecided(t[|t| - 1]))
    ensures Fits(t) && |t| >= 2 && (t[|t| - 1] == Submitted(true) || Undecided(t[|t| - 1])) ==> After(t) == Polling
  {
    if t != [] {
      var front, e := t[..|t| - 1], t[|t| - 1];
      LegalTracesExactly(front);
      assert forall i | 0 <= i < |front| :: front[i] == t[i];
      assert front + [e] == t;
      if After(t) != Illegal {
        LastFits(front, e);
      }
      if Fits(t) {
        FrontFits(t);
        assert FitsAt(t, |t| - 1) && (|t| > 1 ==> FitsAt(t, |t| - 2));
      }
    }
  }

  lemma FrontFits(t: seq<Exchange>)
    requires t != [] && Fits(t)
    ensures Fits(t[..|t| - 1])
  {
    var front := t[..|t| - 1];
    forall i | 0 <= i < |front| ensures FitsAt(front, i) {
      assert FitsAt(t, i);
    }
  }

  lemma LastFits(front: seq<Exchange>, e: Exchange)
    requires Fits(front) && Next(After(front), e) != Illegal
    requires After(front) == Ready <==> front == []
    requires After(front) == HasMachine <==> front == [Located(true)]
    requires After(front) == Proven ==> front != [] && Proves(front[|front| - 1])
    requires After(front) == Polling ==>
             |front| >= 2 && (front[|front| - 1] == Submitted(true) || Undecided(front[|front| - 1]))
    ensures Fits(front + [e])
  {
    var t := front + [e];
    forall i | 0 <= i < |t| ensures FitsAt(t, i) {
      if i < |front| {
        assert FitsAt(front, i);
      } else if |front| > 0 {
        assert FitsAt(front, |front| - 1);
      }
    }
  }

  // ---------------------------------------------------------------------------------------------
  // Identifiers
  // ---------------------------------------------------------------------------------------------

  predicate IsNumber(s: string) {
    s != "" && forall i | 0 <= i < |s| :: '0' <= s[i] <= '9'
  }

  /** A run number and an attempt number, joined by a hyphen: decimal digits around it, at least one on each side. */
  ghost predicate IsRunId(run: string) {
    exists k :: 0 < k < |run| - 1 && run[k] == '-' && OnlyDigitsBut(run, k)
  }

  ghost predicate OnlyDigitsBut(run: string, k: nat) {
    forall i | 0 <= i < |run| && i != k :: run[i] in "0123456789"
  }

  lemma DigitIs(c: char)
    ensures c in "0123456789" <==> '0' <= c <= '9'
  {
    if '0' <= c <= '9' {
      assert "0123456789"[c as int - 48] == c;
    }
  }

  lemma RunIdAt(run: string, k: nat)
    requires k < |run| && run[k] == '-'
    ensures 0 < k < |run| - 1 && OnlyDigitsBut(run, k) <==> IsNumber(run[..k]) && IsNumber(run[k + 1..])
  {
    forall i | 0 <= i < |run| ensures run[i] in "0123456789" <==> '0' <= run[i] <= '9' {
      DigitIs(run[i]);
    }
    if IsNumber(run[..k]) && IsNumber(run[k + 1..]) {
      assert forall i | 0 <= i < k :: run[i] == run[..k][i];
      assert forall i | k < i < |run| :: run[i] == run[k + 1..][i - k - 1];
    }
  }

  /** Digits up to the first hyphen, then digits to the end. */
  method MatchesRunId(run: string) returns (ok: bool)
    ensures ok == IsRunId(run)
  {
    var k := 0;
    while k < |run| && '0' <= run[k] <= '9'
      invariant k <= |run| && forall i | 0 <= i < k :: '0' <= run[i] <= '9'
    {
      k := k + 1;
    }
    ok := k < |run| && run[k] == '-' && IsNumber(run[..k]) && IsNumber(run[k + 1..]);
    if k < |run| && run[k] == '-' {
      RunIdAt(run, k);
    }
    if IsRunId(run) {
      var j :| 0 < j < |run| - 1 && run[j] == '-' && OnlyDigitsBut(run, j);
      RunIdAt(run, j);
      assert forall i | 0 <= i < j :: run[i] == run[..j][i];
      assert j == k;
    }
  }

  datatype Prefix = Deployment | Synchronization

  /** The names of the commands; a prefix other than these two is refused. */
  datatype Name = Name(prefix: Prefix, run: string)

  function Spelled(name: Name): string {
    (if name.prefix.Deployment? then "ict-deploy" else "ict-fcc") + "-" + name.run
  }

  lemma NamesAre(run: string)
    ensures Spelled(Name(Deployment, run)) == "ict-deploy-" + run
    ensures Spelled(Name(Synchronization, run)) == "ict-fcc-" + run
  {
  }

  /** Two executions use the same command only if they agree on the operation, the run and the attempt. */
  lemma NamesDiffer(a: Name, b: Name)
    requires Spelled(a) == Spelled(b)
    ensures a == b
  {
    var s, t := Spelled(a), Spelled(b);
    assert s[4] == if a.prefix.Deployment? then 'd' else 'f';
    assert t[4] == if b.prefix.Deployment? then 'd' else 'f';
    assert a.run == s[(if a.prefix.Deployment? then 11 else 8)..];
    assert b.run == t[(if b.prefix.Deployment? then 11 else 8)..];
  }

  // ---------------------------------------------------------------------------------------------
  // The service
  // ---------------------------------------------------------------------------------------------

  datatype Command = Working | Ended(success: bool)

  type Commands = map<Name, Command>

  datatype Event = Begin(name: Name) | End(name: Name, success: bool)

  /** Nobody else uses the name `mine`, and a command that has ended stays as it is. */
  function Step(mine: Name, commands: Commands, e: Event): Commands {
    match e
    case Begin(name) => if name == mine || name in commands then commands else commands[name := Working]
    case End(name, success) =>
      if name in commands && commands[name].Working? then commands[name := Ended(success)] else commands
  }

  /** The service can start any other command at any time, and let a command end either way. */
  lemma EventsHappen(mine: Name, commands: Commands, name: Name, success: bool)
    ensures name != mine && name !in commands ==> Step(mine, commands, Begin(name)) == commands[name := Working]
    ensures name in commands && commands[name] == Working ==>
              Step(mine, commands, End(name, success)) == commands[name := Ended(success)]
  {
  }

  predicate Kept(a: Commands, b: Commands, name: Name) {
    name in a ==> name in b && (a[name].Ended? ==> b[name] == a[name])
  }

  ghost predicate Later(mine: Name, a: Commands, b: Commands) {
    (mine !in a ==> mine !in b) && forall name | name in a :: Kept(a, b, name)
  }

  lemma StepIsLater(mine: Name, a: Commands, b: Commands, e: Event)
    requires Later(mine, a, b)
    ensures Later(mine, a, Step(mine, b, e))
  {
    forall name | name in a ensures Kept(a, Step(mine, b, e), name) {
      assert Kept(a, b, name);
    }
  }

  /** The other commands are still there, and those that had ended ended the same way. */
  ghost predicate OthersKept(mine: Name, a: Commands, b: Commands) {
    forall name | name in a && name != mine :: Kept(a, b, name)
  }

  lemma OthersStayKept(mine: Name, a: Commands, b: Commands, c: Commands)
    requires OthersKept(mine, a, b) && OthersKept(mine, b, c)
    ensures OthersKept(mine, a, c)
  {
    forall name | name in a && name != mine ensures Kept(a, c, name) {
      assert Kept(a, b, name) && Kept(b, c, name);
    }
  }

  predicate Truthful(commands: Commands, name: Name, resource: Resource) {
    ExecutionResult(resource).Some? ==>
      name in commands && commands[name] == Ended(ExecutionResult(resource).value)
  }

  predicate IsSubmitted(own: seq<Exchange>) {
    |own| >= 2 && own[1] == Submitted(true)
  }

  /** What an execution leaves behind, given whether the command was accepted. */
  ghost predicate Outcome(mine: Name, r: Result<(), Failure>, submitted: bool, before: Commands, after: Commands,
                          removed: seq<(Name, Command)>, removedAfter: seq<(Name, Command)>) {
    && OthersKept(mine, before, after)
    && (r.Err? ==> removedAfter == removed)
    && (r.Err? && submitted ==> mine in after)
    && (r == Err(ExecutionFailed) ==> mine in after && after[mine] == Ended(false))
    && (r.Ok? ==>
          if mine in after then after[mine] == Ended(true) && removedAfter == removed
          else removedAfter == removed + [(mine, Ended(true))])
  }

  /** The last request shows how the execution ended: with a removal, a failed request, or a failed command. */
  predicate IsVerdict(r: Result<(), Failure>, own: seq<Exchange>)
    requires own != []
  {
    var last := own[|own| - 1];
    match r
    case Ok(_) => |own| >= 2 && Proves(own[|own| - 2]) && last.Removed?
    case Err(failure) => (failure == RequestFailed && IsLost(last)) || (failure == ExecutionFailed && Disproves(last))
  }

  lemma OneEnds(phase: Phase, e: Exchange)
    ensures From(phase, [e]) == Next(phase, e)
  {
    assert [e][..0] == [];
  }

  lemma TwoEnd(phase: Phase, e: Exchange, f: Exchange)
    ensures From(phase, [e, f]) == Next(Next(phase, e), f)
  {
    OneEnds(phase, e);
    assert [e, f][..1] == [e];
  }

  lemma VerdictEnds(more: seq<Exchange>, r: Result<(), Failure>)
    requires 1 <= |more| <= 2 && IsVerdict(r, more) && more[0].Polled? && (|more| == 2 ==> r.Ok?)
    ensures From(Polling, more) == if r.Ok? then Closed else Broken
  {
    if |more| == 1 {
      OneEnds(Polling, more[0]);
      assert more == [more[0]];
    } else {
      TwoEnd(Polling, more[0], more[1]);
      assert more == [more[0], more[1]];
    }
  }

  lemma VerdictStays(polls: seq<Exchange>, more: seq<Exchange>, r: Result<(), Failure>)
    requires 1 <= |more| <= 2 && IsVerdict(r, more)
    ensures IsVerdict(r, polls + more)
  {
    var all := polls + more;
    assert all[|all| - 1] == more[|more| - 1];
    assert |more| == 2 ==> all[|all| - 2] == more[0];
  }

  /** One more turn of the polling. */
  lemma TurnEnds(polls: seq<Exchange>, more: seq<Exchange>, verdict: Option<Result<(), Failure>>)
    requires From(Polling, polls) == Polling && 1 <= |more| <= 2 && more[0].Polled? && (|more| == 2 ==> verdict == Some(Ok(())))
    requires if verdict.Some? then IsVerdict(verdict.value, more) else |more| == 1 && Undecided(more[0])
    ensures From(Polling, polls + more) == if verdict.None? then Polling else if verdict.value.Ok? then Closed else Broken
    ensures verdict.Some? ==> IsVerdict(verdict.value, polls + more)
  {
    FromBoth(Polling, polls, more);
    if verdict.Some? {
      VerdictEnds(more, verdict.value);
      VerdictStays(polls, more, verdict.value);
    } else {
      OneEnds(Polling, more[0]);
      assert more == [more[0]];
    }
  }

  const CALL: nat := 120000
  const NAP: nat := 15000

  datatype Failure = InvalidIdentifier | RequestFailed | ExecutionFailed | ResultTimedOut

  class Azure {
    var now: int
    var commands: Commands
    ghost var trace: seq<Exchange>
    ghost var removals: seq<(Name, Command)>

    constructor (now: int, commands: Commands)
      ensures this.now == now && this.commands == commands && trace == [] && removals == []
    {
      this.now, this.commands, trace, removals := now, commands, [], [];
    }

    /** The service goes on by itself for at most this long. */
    method Elapse(mine: Name, limit: nat)
      modifies this`now, this`commands
      ensures old(now) <= now <= old(now) + limit
      ensures Later(mine, old(commands), commands) && OthersKept(mine, old(commands), commands)
    {
      var steps: nat := *;
      while steps > 0
        invariant now == old(now) && Later(mine, old(commands), commands)
      {
        var e: Event := *;
        StepIsLater(mine, old(commands), commands, e);
        commands := Step(mine, commands, e);
        steps := steps - 1;
      }
      var ms: int := *;
      now := now + Max(0, Min(ms, limit));
    }

    method Locate(mine: Name) returns (found: bool)
      modifies this`now, this`commands, this`trace
      ensures trace == old(trace) + [Located(found)]
      ensures old(now) <= now <= old(now) + 120000 && OthersKept(mine, old(commands), commands)
    {
      Elapse(mine, CALL);
      found := *;
      trace := trace + [Located(found)];
    }

    /** A submission that fails may still have been carried out. */
    method Submit(mine: Name) returns (accepted: bool)
      modifies this`now, this`commands, this`trace
      ensures trace == old(trace) + [Submitted(accepted)] && (accepted ==> mine in commands)
      ensures old(now) <= now <= old(now) + 120000 && OthersKept(mine, old(commands), commands)
    {
      var done: bool := *;
      if done {
        commands := commands[mine := Working];
      }
      label begun:
      Elapse(mine, CALL);
      OthersStayKept(mine, old(commands), old@begun(commands), commands);
      assert done ==> Kept(old@begun(commands), commands, mine);
      accepted := *;
      accepted := accepted && done;
      trace := trace + [Submitted(accepted)];
    }

    method Poll(mine: Name) returns (reading: Option<Resource>)
      modifies this`now, this`commands, this`trace
      ensures trace == old(trace) + [Polled(reading)] && (reading.Some? ==> Truthful(commands, mine, reading.value))
      ensures old(now) <= now <= old(now) + 120000
      ensures OthersKept(mine, old(commands), commands) && Later(mine, old(commands), commands)
    {
      Elapse(mine, CALL);
      reading := *;
      if reading.Some? && !Truthful(commands, mine, reading.value) {
        reading := None;
      }
      trace := trace + [Polled(reading)];
    }

    /** A removal that fails may still have been carried out. */
    method Remove(mine: Name) returns (done: bool)
      modifies this`now, this`commands, this`trace, this`removals
      ensures trace == old(trace) + [Removed(done)] && old(now) <= now <= old(now) + 120000
      ensures OthersKept(mine, old(commands), commands)
      ensures mine in commands ==> removals == old(removals) && Kept(old(commands), commands, mine)
      ensures mine in old(commands) && old(commands)[mine].Ended? && mine !in commands ==>
                removals == old(removals) + [(mine, old(commands)[mine])]
    {
      var effective: bool := *;
      Elapse(mine, CALL);
      if effective && mine in commands {
        removals := removals + [(mine, commands[mine])];
        commands := commands - {mine};
      }
      done := *;
      trace := trace + [Removed(done)];
    }

    method Sleep(mine: Name)
      modifies this`now, this`commands
      ensures now == old(now) + 15000
      ensures Later(mine, old(commands), commands) && OthersKept(mine, old(commands), commands)
    {
      Elapse(mine, 0);
      now := now + NAP;
    }

    /** One poll, and the removal if it proved the success; without a result the controller polls on. */
    method PollOnce(mine: Name) returns (r: Option<Result<(), Failure>>, ghost more: seq<Exchange>)
      requires mine in commands
      modifies this
      ensures trace == old(trace) + more && 1 <= |more| <= 2 && more[0].Polled? && (|more| == 2 ==> r == Some(Ok(())))
      ensures r.None? ==> |more| == 1 && Undecided(more[0]) && mine in commands && removals == old(removals)
      ensures r.Some? ==> IsVerdict(r.value, more) && Outcome(mine, r.value, true, old(commands), commands, old(removals), removals)
      ensures OthersKept(mine, old(commands), commands)
      ensures old(now) <= now <= old(now) + 120000 * |more|
    {
      var reading := Poll(mine);
      more := [Polled(reading)];
      if reading.None? {
        return Some(Err(RequestFailed)), more;
      }
      var result := ExecutionResult(reading.value);
      if result.None? {
        return None, more;
      }
      if result == Some(false) {
        return Some(Err(ExecutionFailed)), more;
      }
      label proven:
      var done := Remove(mine);
      OthersStayKept(mine, old(commands), old@proven(commands), commands);
      more := more + [Removed(done)];
      r := Some(Ok(()));
    }

    /** One more poll behind those before it. */
    method PollAgain(mine: Name, ghost first: Commands, ghost log: seq<Exchange>, ghost before: seq<Exchange>)
      returns (r: Option<Result<(), Failure>>, ghost polls: seq<Exchange>)
      requires mine in commands && OthersKept(mine, first, commands)
      requires trace == log + before && From(Polling, before) == Polling
      modifies this
      ensures trace == log + polls && OthersKept(mine, first, commands)
      ensures r.None? ==>
                && |polls| == |before| + 1 && From(Polling, polls) == Polling && now <= old(now) + 120000
                && mine in commands && removals == old(removals)
      ensures r.Some? ==>
                && polls != [] && IsVerdict(r.value, polls)
                && From(Polling, polls) == (if r.value.Ok? then Closed else Broken)
                && Outcome(mine, r.value, true, first, commands, old(removals), removals)
      ensures |polls| <= |before| + 2 && old(now) <= now <= old(now) + 240000
    {
      ghost var more;
      r, more := PollOnce(mine);
      OthersStayKept(mine, first, old(commands), commands);
      Regrouped(log, before, more);
      TurnEnds(before, more, r);
      polls := before + more;
    }

    /** Polls until the result is known, a poll fails or the wait is over. `polls` holds the requests made. */
    method AwaitResult(mine: Name, wait: nat) returns (r: Result<(), Failure>, ghost polls: seq<Exchange>)
      requires mine in commands
      modifies this
      ensures trace == old(trace) + polls
      ensures if r == Err(ResultTimedOut) then From(Polling, polls) == Polling && now >= old(now) + wait
              else polls != [] && IsVerdict(r, polls)
      ensures From(Polling, polls) == if r.Ok? then Closed else if r == Err(ResultTimedOut) then Polling else Broken
      ensures r != Err(InvalidIdentifier) && Outcome(mine, r, true, old(commands), commands, old(removals), removals)
      ensures old(now) <= now <= old(now) + 240000 + wait && 15000 * |polls| <= wait + 30000
    {
      polls := [];
      var deadline := now + wait;
      while now < deadline
        invariant trace == old(trace) + polls && From(Polling, polls) == Polling
        invariant removals == old(removals) && mine in commands && OthersKept(mine, old(commands), commands)
        invariant old(now) + 15000 * |polls| <= now && now <= deadline + 135000 && 15000 * |polls| <= wait + 15000
        decreases Max(0, deadline - now)
      {
        var verdict;
        verdict, polls := PollAgain(mine, old(commands), old(trace), polls);
        if verdict.Some? {
          return verdict.value, polls;
        }
        label undecided:
        Sleep(mine);
        OthersStayKept(mine, old(commands), old@undecided(commands), commands);
      }
      r := Err(ResultTimedOut);
    }

    /**
     Looks up the machine, submits the command, and polls it. It succeeds exactly when a poll proved
     the success of the command; only then is the command removed, and a command that was removed had
     ended in success. A failed execution, a failed request and a timeout leave it where it is, and the
     last request shows which of the three it was.
     `own` holds the requests of this execution.
     */
    method ExecuteScript(prefix: Option<Prefix>, run: string, wait: nat)
      returns (r: Result<(), Failure>, ghost own: seq<Exchange>)
      modifies this
      ensures trace == old(trace) + own && After(own) in {Ready, Broken, Polling, Closed}
      ensures r.Ok? <==> After(own) == Closed
      ensures r == Err(ResultTimedOut) <==> After(own) == Polling
      ensures r == Err(ResultTimedOut) ==> now >= old(now) + wait
      ensures r != Err(InvalidIdentifier) && r != Err(ResultTimedOut) ==> own != [] && IsVerdict(r, own)
      ensures After(own) == Ready <==> r == Err(InvalidIdentifier)
      ensures r == Err(InvalidIdentifier) <==> prefix.None? || !IsRunId(run)
      ensures r == Err(InvalidIdentifier) ==> commands == old(commands) && now == old(now)
      ensures r.Err? ==> removals == old(removals)
      ensures prefix.Some? ==> Outcome(Name(prefix.value, run), r, IsSubmitted(own), old(commands), commands, old(removals), removals)
      ensures now <= old(now) + 480000 + wait && 15000 * |own| <= wait + 60000
    {
      own := [];
      var matches := MatchesRunId(run);
      if prefix.None? || !matches {
        return Err(InvalidIdentifier), own;
      }
      var mine := Name(prefix.value, run);
      var found := Locate(mine);
      own := [Located(found)];
      FromOne(Ready, [], Located(found));
      if !found {
        return Err(RequestFailed), own;
      }
      label located:
      var accepted := Submit(mine);
      OthersStayKept(mine, old(commands), old@located(commands), commands);
      FromOne(Ready, own, Submitted(accepted));
      own := own + [Submitted(accepted)];
      if !accepted {
        return Err(RequestFailed), own;
      }
      label submitted:
      var result, polls := AwaitResult(mine, wait);
      OthersStayKept(mine, old(commands), old@submitted(commands), commands);
      FromBoth(Ready, own, polls);
      own, r := own + polls, result;
    }
  }
}
