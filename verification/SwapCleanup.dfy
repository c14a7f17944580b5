/**
 Removing the temporary swap file of an import once nothing uses it: wait for the maintenance lock and
 an idle moment, check the file, switch the swap off, check the file again, and remove it. Between any
 two steps of the cleanup the machine may change. Times are milliseconds.
 */
module SwapCleanup {
  import opened Basics

  datatype Meta = Meta(dev: nat, ino: nat, regular: bool, links: nat, uid: nat, mode: nat, size: nat)

  /** What is found under the path of the target; `meta` follows a symbolic link. */
  datatype Place = Place(symlink: bool, inside: bool, meta: Option<Meta>)

  datatype Holder = Free | Cleanup | Another

  /** `swap` is the use of the target as swap, and `available` the available memory, both in KiB. */
  datatype World = World(now: int, lock: Holder, importing: bool, place: Place, swap: Option<nat>, available: nat)

  datatype Failure =
    | Refused(reason: Refusal) | StillBusy | LowMemory | StillActive | CommandFailed

  datatype Refusal = UntrustedRecord | PersistentSwap | PathRefused | NameRefused | MetadataRefused | IdentityChanged

  // ---------------------------------------------------------------------------------------------
  // The check of the target
  // ---------------------------------------------------------------------------------------------

  const EXPECTED_BYTES: nat := 32 * 1024 * 1024 * 1024
  const EXPECTED_MODE: nat := 384
  const RESERVE: nat := 524288

  predicate IsSwapName(name: string) {
    |name| == 24 && name[..11] == "fcc-import-" && name[19..] == ".swap" && forall i | 11 <= i < 19 :: '0' <= name[i] <= '9'
  }

  predicate MetadataFits(m: Meta) {
    m.regular && m.links == 1 && m.uid == 0 && m.mode == EXPECTED_MODE && m.size == EXPECTED_BYTES
  }

  function ValidateTarget(name: string, place: Place): Result<Meta, Failure> {
    if place.symlink || !place.inside then Err(Refused(PathRefused))
    else if !IsSwapName(name) then Err(Refused(NameRefused))
    else if place.meta.None? then Err(CommandFailed)
    else if !MetadataFits(place.meta.value) then Err(Refused(MetadataRefused))
    else Ok(place.meta.value)
  }

  /** The fixed words of the name, with eight decimal digits between them. */
  ghost predicate IsNamed(name: string) {
    exists digits | |digits| == 8 && OnlyDigits(digits) :: name == "fcc-import-" + digits + ".swap"
  }

  ghost predicate OnlyDigits(s: string) {
    forall i | 0 <= i < |s| :: s[i] in "0123456789"
  }

  lemma DigitIs(c: char)
    ensures c in "0123456789" <==> '0' <= c <= '9'
  {
    if '0' <= c <= '9' {
      assert "0123456789"[c as int - 48] == c;
    }
  }

  lemma NamedExactly(name: string)
    ensures IsSwapName(name) <==> IsNamed(name)
  {
    if IsSwapName(name) {
      var digits := name[11..19];
      forall i | 0 <= i < 8 ensures digits[i] in "0123456789" {
        assert digits[i] == name[11 + i];
        DigitIs(digits[i]);
      }
      assert name == name[..11] + digits + name[19..];
    }
    if IsNamed(name) {
      var digits :| |digits| == 8 && OnlyDigits(digits) && name == "fcc-import-" + digits + ".swap";
      forall i | 11 <= i < 19 ensures '0' <= name[i] <= '9' {
        assert name[i] == digits[i - 11];
        DigitIs(digits[i - 11]);
      }
    }
  }

  /** A file of its own, of root, that only root can read and write, of 32 GiB. */
  ghost predicate IsOwnSwapFile(m: Meta) {
    m.regular && m.links == 1 && m.uid == 0 && m.mode == 6 * 64 && m.size == 34359738368
  }

  /** The target is accepted only as it should be; each refusal says what is the first thing wrong with it. */
  lemma ValidatedExactly(name: string, place: Place)
    ensures ValidateTarget(name, place) ==
            if place.symlink || !place.inside then Err(Refused(PathRefused))
            else if !IsNamed(name) then Err(Refused(NameRefused))
            else match place.meta
                 case None => Err(CommandFailed)
                 case Some(m) => if IsOwnSwapFile(m) then Ok(m) else Err(Refused(MetadataRefused))
  {
    NamedExactly(name);
  }

  predicate SameFile(a: Meta, b: Meta) {
    a.dev == b.dev && a.ino == b.ino
  }

  // ---------------------------------------------------------------------------------------------
  // The machine
  // ---------------------------------------------------------------------------------------------

  datatype Event =
    | Pass(ms: nat) | TakeLock | DropLock
    | Importing(now: bool) | Replace(place: Place) | Swapped(swap: Option<nat>) | Memory(available: nat)

  /** In a `steady` machine only a holder of the lock starts an import, or touches the target or its swap. */
  function Step(steady: bool, w: World, e: Event): World {
    match e
    case Pass(ms) => w.(now := w.now + ms)
    case TakeLock => if w.lock == Free then w.(lock := Another) else w
    case DropLock => if w.lock == Another then w.(lock := Free) else w
    case Importing(now) => if steady && now && w.lock != Another then w else w.(importing := now)
    case Replace(place) => if steady && w.lock != Another then w else w.(place := place)
    case Swapped(swap) => if steady && w.lock != Another then w else w.(swap := swap)
    case Memory(available) => w.(available := available)
  }

  /** What the rest of the machine can do at any time, and in a steady machine what only a holder of the lock can do. */
  lemma EventsHappen(steady: bool, w: World, ms: nat, importing: bool, place: Place, swap: Option<nat>, available: nat)
    ensures Step(steady, w, Pass(ms)).now == w.now + ms && Step(steady, w, Memory(available)).available == available
    ensures Step(steady, w, TakeLock).lock == (if w.lock == Free then Another else w.lock)
    ensures Step(steady, w, DropLock).lock == (if w.lock == Another then Free else w.lock)
    ensures !steady || w.lock == Another ==>
              && Step(steady, w, Importing(importing)).importing == importing && Step(steady, w, Replace(place)).place == place
              && Step(steady, w, Swapped(swap)).swap == swap
    ensures !Step(steady, w, Importing(false)).importing
  {
  }

  /** What holds from one world to a later one while the cleanup does nothing. */
  predicate Rely(steady: bool, w: World, v: World) {
    && w.now <= v.now && (v.lock == Cleanup <==> w.lock == Cleanup)
    && (steady && w.lock == Cleanup ==> v.place == w.place && v.swap == w.swap && (v.importing ==> w.importing))
  }

  function Run(steady: bool, w: World, events: seq<Event>): World {
    if events == [] then w else Step(steady, Run(steady, w, events[..|events| - 1]), events[|events| - 1])
  }

  lemma StepKeepsRely(steady: bool, v: World, w: World, e: Event)
    requires Rely(steady, v, w)
    ensures Rely(steady, v, Step(steady, w, e))
  {
  }

  lemma {:induction false} EveryRunKeepsRely(steady: bool, w: World, events: seq<Event>)
    ensures Rely(steady, w, Run(steady, w, events))
  {
    if events != [] {
      EveryRunKeepsRely(steady, w, events[..|events| - 1]);
    }
  }

  /** The record of the temporary resource, and what the table of file systems says about the target. */
  datatype Record = Record(symlink: bool, uid: nat, mode: nat, fstabModified: bool, listed: bool)

  function CheckRecord(record: Option<Record>): Result<(), Failure> {
    match record
    case None => Err(CommandFailed)
    case Some(r) =>
      if r.symlink || r.uid != 0 || r.mode % 64 != 0 then Err(Refused(UntrustedRecord))
      else if r.fstabModified || r.listed then Err(Refused(PersistentSwap))
      else Ok(())
  }

  /** A record is trusted if it is no link, belongs to root, and nobody else may read, write or execute it. */
  lemma RecordExactly(record: Option<Record>)
    ensures CheckRecord(record).Ok? <==>
            && record.Some? && !record.value.symlink && record.value.uid == 0
            && (exists owner: nat :: record.value.mode == 64 * owner)
            && !record.value.fstabModified && !record.value.listed
    ensures CheckRecord(record) == Err(CommandFailed) <==> record.None?
    ensures CheckRecord(record) == Err(Refused(PersistentSwap)) <==>
            && record.Some? && !record.value.symlink && record.value.uid == 0
            && (exists owner: nat :: record.value.mode == 64 * owner)
            && (record.value.fstabModified || record.value.listed)
    ensures CheckRecord(record).Err? && CheckRecord(record) != Err(CommandFailed) ==>
              CheckRecord(record).error in {Refused(UntrustedRecord), Refused(PersistentSwap)}
  {
    if record.Some? {
      var mode := record.value.mode;
      assert mode == 64 * (mode / 64) + mode % 64;
      assert forall owner: nat :: mode == 64 * owner ==> mode % 64 == 0;
    }
  }

  lemma RelyComposes(steady: bool, u: World, v: World, w: World)
    requires Rely(steady, u, v) && Rely(steady, v, w)
    ensures Rely(steady, u, w)
  {
  }

  // ---------------------------------------------------------------------------------------------
  // What the cleanup does
  // ---------------------------------------------------------------------------------------------

  /** A step of the cleanup, with the world it was taken in. */
  datatype Happening =
    | SawTarget(at: World)
    | Took(at: World)
    | FoundLocked(at: World)
    | SawImports(at: World, seen: bool)
    | GaveBack(at: World)
    | Validated(at: World)
    | ReadSwaps(at: World)
    | ReadMemory(at: World)
    | SwitchedOff(at: World, done: bool, reported: bool)
    | Unlinked(at: World, done: bool)
    | Recorded(at: World, done: bool)

  /** The world right after the step. */
  function After(h: Happening): World {
    match h
    case Took(w) => w.(lock := Cleanup)
    case GaveBack(w) => w.(lock := Free)
    case SwitchedOff(w, done, _) => if done then w.(swap := None) else w
    case Unlinked(w, done) => if done then w.(place := w.place.(symlink := false, meta := None)) else w
    case _ => h.at
  }

  /** The step is one the machine allows in that world. */
  predicate IsAllowed(steady: bool, h: Happening) {
    match h
    case Took(w) => w.lock == Free
    case FoundLocked(w) => w.lock == Another
    case SawImports(w, seen) => (seen ==> w.importing) && (steady ==> seen == w.importing)
    case GaveBack(w) => w.lock == Cleanup
    case Unlinked(w, done) => done ==> w.place.meta.Some?
    case _ => true
  }

  /** The steps happened one after the other between the two worlds, with the rest of the machine at work in between. */
  predicate Happened(steady: bool, start: World, log: seq<Happening>, w: World) {
    if log == [] then Rely(steady, start, w)
    else
      var last := log[|log| - 1];
      Happened(steady, start, log[..|log| - 1], last.at) && IsAllowed(steady, last) && Rely(steady, After(last), w)
  }

  lemma HappenedOn(steady: bool, start: World, log: seq<Happening>, w: World, v: World)
    requires Happened(steady, start, log, w) && Rely(steady, w, v)
    ensures Happened(steady, start, log, v)
  {
    RelyComposes(steady, if log == [] then start else After(log[|log| - 1]), w, v);
  }

  lemma {:induction false} HappenedBoth(
      steady: bool, start: World, a: seq<Happening>, middle: World, b: seq<Happening>, w: World)
    requires Happened(steady, start, a, middle) && Happened(steady, middle, b, w)
    ensures Happened(steady, start, a + b, w)
  {
    if b == [] {
      assert a + b == a;
      HappenedOn(steady, start, a, middle, w);
    } else {
      var front, last := b[..|b| - 1], b[|b| - 1];
      HappenedBoth(steady, start, a, middle, front, last.at);
      assert (a + b)[..|a + b| - 1] == a + front;
    }
  }

  // ---------------------------------------------------------------------------------------------
  // The order of the steps
  // ---------------------------------------------------------------------------------------------

  /** Attempts that each found the lock taken, or took it, saw an import, and gave it back. */
  predicate IsWaiting(own: seq<Happening>) {
    forall i | 0 <= i < |own| :: WaitsAt(own, i)
  }

  predicate WaitsAt(own: seq<Happening>, i: nat)
    requires i < |own|
  {
    match own[i]
    case FoundLocked(_) => true
    case Took(_) => i + 2 < |own| && own[i + 1].SawImports? && own[i + 1].seen && own[i + 2].GaveBack?
    case SawImports(_, _) => i >= 1 && own[i - 1].Took?
    case GaveBack(_) => i >= 2 && own[i - 2].Took?
    case _ => false
  }

  /** How many attempts these are: each ends with the lock found taken or given back. */
  function Attempts(own: seq<Happening>): nat {
    if own == [] then 0
    else Attempts(own[..|own| - 1]) + (if own[|own| - 1].FoundLocked? || own[|own| - 1].GaveBack? then 1 else 0)
  }

  lemma {:induction false} AttemptsAdd(a: seq<Happening>, b: seq<Happening>)
    ensures Attempts(a + b) == Attempts(a) + Attempts(b)
  {
    if b == [] {
      assert a + b == a;
    } else {
      assert (a + b)[..|a + b| - 1] == a + b[..|b| - 1];
      AttemptsAdd(a, b[..|b| - 1]);
    }
  }

  lemma ThreeAreOne(a: Happening, b: Happening, c: Happening)
    requires a.Took? && b.SawImports? && c.GaveBack?
    ensures Attempts([a, b, c]) == 1
  {
    assert [a][..0] == [] && Attempts([a]) == 0;
    assert [a, b][..1] == [a] && Attempts([a, b]) == 0;
    assert [a, b, c][..2] == [a, b];
  }

  /** The moment a hold of the lock begins with: no import is seen. */
  predicate IsIdleMoment(own: seq<Happening>) {
    |own| == 2 && own[0].Took? && own[1].SawImports? && !own[1].seen
  }

  type Results = set<Result<(), Failure>>

  function Only(own: seq<Happening>, n: nat, r: Result<(), Failure>): Results {
    if |own| == n then {r} else {}
  }

  /** What these first steps of a removal find: the file to remove, when they come to the second look at the swap. */
  function FirstHalf(name: string, own: seq<Happening>): Option<Meta> {
    if |own| < 2 || !own[0].Validated? || ValidateTarget(name, own[0].at.place).Err? || !own[1].ReadSwaps? then None
    else
      var first := Some(ValidateTarget(name, own[0].at.place).value);
      if own[1].at.swap.None? then (if |own| == 2 then first else None)
      else if |own| == 4 && own[2].ReadMemory? && own[2].at.available > own[1].at.swap.value + 524288
              && own[3].SwitchedOff? && own[3].reported then first
      else None
  }

  /** The results of a removal that ends with its first steps. */
  function Refusals(name: string, own: seq<Happening>): Results {
    if own == [] || !own[0].Validated? then {}
    else if ValidateTarget(name, own[0].at.place).Err? then Only(own, 1, Err(ValidateTarget(name, own[0].at.place).error))
    else if |own| < 3 || !own[1].ReadSwaps? || own[1].at.swap.None? || !own[2].ReadMemory? then {}
    else if own[2].at.available <= own[1].at.swap.value + 524288 then Only(own, 3, Err(LowMemory))
    else if |own| == 4 && own[3].SwitchedOff? && !own[3].reported then {Err(CommandFailed)}
    else {}
  }

  /** The results of the steps from the second look at the swap on, given the file of the first check. */
  function SecondHalf(name: string, first: Meta, own: seq<Happening>): Results {
    if own == [] || !own[0].ReadSwaps? then {}
    else if own[0].at.swap.Some? then Only(own, 1, Err(StillActive))
    else if |own| < 2 || !own[1].Validated? then {}
    else
      var second := ValidateTarget(name, own[1].at.place);
      if second.Err? then Only(own, 2, Err(second.error))
      else if first.dev != second.value.dev || first.ino != second.value.ino then Only(own, 2, Err(Refused(IdentityChanged)))
      else if |own| < 3 || !own[2].Unlinked? then {}
      else if !own[2].done then Only(own, 3, Err(CommandFailed))
      else if |own| == 4 && own[3].Recorded? then {if own[3].done then Ok(()) else Err(CommandFailed)}
      else {}
  }

  /** The swap was seen inactive, and the same valid file was found again. */
  predicate IsSecondCheck(name: string, first: Meta, own: seq<Happening>) {
    && |own| == 2 && own[0].ReadSwaps? && own[0].at.swap.None? && own[1].Validated?
    && ValidateTarget(name, own[1].at.place).Ok? && SameFile(first, ValidateTarget(name, own[1].at.place).value)
  }

  function Outcomes(name: string, half: seq<Happening>, rest: seq<Happening>): Results {
    if rest == [] then Refusals(name, half)
    else if FirstHalf(name, half).None? then {}
    else SecondHalf(name, FirstHalf(name, half).value, rest)
  }

  /** The checks and the removal, in two halves, and giving back the lock. */
  predicate IsRemoval(name: string, own: seq<Happening>, half: seq<Happening>, rest: seq<Happening>, r: Result<(), Failure>) {
    && |own| == |half| + |rest| + 1 && own[..|own| - 1] == half + rest && own[|own| - 1].GaveBack?
    && r in Outcomes(name, half, rest)
  }

  /** The parts of a cleanup: the wait, the idle moment, and the rest of the hold in its two halves. */
  datatype Parts = Parts(
    waiting: seq<Happening>, moment: seq<Happening>, held: seq<Happening>, half: seq<Happening>, rest: seq<Happening>)

  function StepsOf(c: Parts): seq<Happening> {
    c.waiting + c.moment + c.held
  }

  lemma NothingHeld(waiting: seq<Happening>, moment: seq<Happening>)
    ensures StepsOf(Parts(waiting, moment, [], [], [])) == waiting + moment
  {
  }

  predicate IsWaitAndHold(name: string, c: Parts, r: Result<(), Failure>) {
    && IsWaiting(c.waiting)
    && if c.held == [] then c.waiting != [] && c.moment == [] && r == Err(StillBusy)
       else IsIdleMoment(c.moment) && IsRemoval(name, c.held, c.half, c.rest, r)
  }

  /** The whole cleanup: a look at the target, the check of the record, the wait, and the hold of the lock. */
  predicate IsCleanup(name: string, record: Option<Record>, own: seq<Happening>, c: Parts, r: Result<(), Failure>) {
    && own != [] && own[0].SawTarget?
    && if own[0].at.place.meta.None? then |own| == 1 && r.Ok?
       else if CheckRecord(record).Err? then |own| == 1 && r == CheckRecord(record)
       else own == [own[0]] + StepsOf(c) && IsWaitAndHold(name, c, r)
  }

  class Machine {
    var w: World
    const steady: bool
    const name: string
    ghost var log: seq<Happening>

    constructor (world: World, steady: bool, name: string)
      ensures w == world && this.steady == steady && this.name == name && log == []
    {
      w, log := world, [];
      this.steady, this.name := steady, name;
    }

    /** Any number of steps of the rest of the machine. */
    method Interfere()
      modifies this`w
      ensures Rely(steady, old(w), w)
    {
      var steps: nat := *;
      while steps > 0
        invariant Rely(steady, old(w), w)
      {
        var e: Event := *;
        StepKeepsRely(steady, old(w), w, e);
        w := Step(steady, w, e);
        steps := steps - 1;
      }
    }

    /** One step, after which the rest of the machine goes on; `own` are the steps of the caller so far. */
    method Do(ghost start: World, ghost own: seq<Happening>, h: Happening) returns (ghost more: seq<Happening>)
      requires h.at == w && IsAllowed(steady, h) && Happened(steady, start, own, w)
      modifies this
      ensures log == old(log) + [h] && more == own + [h]
      ensures Happened(steady, start, more, w) && Rely(steady, After(h), w)
    {
      log, more := log + [h], own + [h];
      assert more[..|own|] == own;
      w := After(h);
      Interfere();
    }

    method Sleep(ms: nat)
      modifies this`w
      ensures Happened(steady, old(w), [], w) && w.now >= old(w.now) + ms
    {
      w := w.(now := w.now + ms);
      Interfere();
    }

    /** Whether an import is seen; one that cannot be read is overlooked, except in a steady machine. */
    method SeesImport() returns (seen: bool)
      ensures (seen ==> w.importing) && (steady ==> seen == w.importing)
    {
      var overlooked: bool := *;
      seen := w.importing && (steady || !overlooked);
    }

    /** One attempt: it ends with the lock held if an idle moment was seen under it. */
    method TryIdle() returns (idle: bool, ghost own: seq<Happening>)
      requires w.lock != Cleanup
      modifies this
      ensures log == old(log) + own && Happened(steady, old(w), own, w) && old(w.now) <= w.now && idle == (w.lock == Cleanup)
      ensures if idle then IsIdleMoment(own) else IsWaiting(own) && own != [] && Attempts(own) == 1
    {
      if w.lock != Free {
        own := Do(old(w), [], FoundLocked(w));
        idle := false;
        assert own[..0] == [];
      } else {
        idle, own := TakeAndLook();
        if !idle {
          ghost var took, saw := own[0], own[1];
          ThreeAreOne(took, saw, GaveBack(w));
          assert own + [GaveBack(w)] == [took, saw, GaveBack(w)];
          own := Do(old(w), own, GaveBack(w));
        }
      }
    }

    /** Takes the lock, which is free, and looks for imports under it. */
    method TakeAndLook() returns (idle: bool, ghost own: seq<Happening>)
      requires w.lock == Free
      modifies this
      ensures log == old(log) + own && Happened(steady, old(w), own, w) && old(w.now) <= w.now && w.lock == Cleanup
      ensures |own| == 2 && own[0].Took? && own[1].SawImports? && own[1].seen == !idle
    {
      own := Do(old(w), [], Took(w));
      var seen := SeesImport();
      own := Do(old(w), own, SawImports(w, seen));
      idle := !seen;
    }

    /**
     Takes the lock at a moment when no import is seen, or gives up when the wait is over. The sleeps
     add up to less than the wait and half a minute.
     */
    method WaitForIdle(wait: int)
      returns (r: Result<(), Failure>, ghost waiting: seq<Happening>, ghost moment: seq<Happening>, ghost slept: nat)
      requires w.lock != Cleanup
      modifies this
      ensures log == old(log) + (waiting + moment) && Happened(steady, old(w), waiting + moment, w)
              && (r.Ok? <==> w.lock == Cleanup)
      ensures IsWaiting(waiting) && if r.Ok? then IsIdleMoment(moment) else moment == [] && waiting != [] && r == Err(StillBusy)
      ensures r.Err? ==> w.now >= old(w.now) + wait
      ensures slept < Max(0, wait) + 30000 && old(w.now) + slept <= w.now
      ensures slept == 30000 * (Attempts(waiting) - if r.Ok? then 0 else 1)
    {
      slept, waiting, moment := 0, [], [];
      var end := w.now + wait;
      while true
        invariant w.lock != Cleanup && old(w.now) + slept <= w.now && slept < Max(0, wait) + 30000
        invariant log == old(log) + waiting && Happened(steady, old(w), waiting, w) && IsWaiting(waiting) && moment == []
        invariant slept == 30000 * Attempts(waiting)
        decreases Max(0, end - w.now)
      {
        var idle;
        idle, waiting, moment := TryAgain(old(w), old(log), waiting);
        if idle {
          return Ok(()), waiting, moment, slept;
        }
        assert waiting + moment == waiting;
        if w.now >= end {
          return Err(StillBusy), waiting, moment, slept;
        }
        label nap:
        Sleep(30000);
        HappenedOn(steady, old(w), waiting, old@nap(w), w);
        slept := slept + 30000;
      }
    }

    /** One more attempt after those of `waiting`. */
    method TryAgain(ghost start: World, ghost before: seq<Happening>, ghost waiting: seq<Happening>)
      returns (idle: bool, ghost longer: seq<Happening>, ghost moment: seq<Happening>)
      requires w.lock != Cleanup && log == before + waiting && Happened(steady, start, waiting, w) && IsWaiting(waiting)
      modifies this
      ensures log == before + (longer + moment) && Happened(steady, start, longer + moment, w) && IsWaiting(longer)
      ensures old(w.now) <= w.now && idle == (w.lock == Cleanup)
      ensures if idle then IsIdleMoment(moment) else moment == [] && longer != []
      ensures Attempts(longer) == Attempts(waiting) + if idle then 0 else 1
    {
      ghost var own;
      idle, own := TryIdle();
      HappenedBoth(steady, start, waiting, old(w), own, w);
      assert before + waiting + own == before + (waiting + own);
      if idle {
        longer, moment := waiting, own;
      } else {
        WaitingLonger(waiting, own);
        AttemptsAdd(waiting, own);
        longer, moment := waiting + own, [];
        assert longer + moment == waiting + own;
      }
    }

    /** The checks up to the moment when the swap was switched off, if it was on. */
    method SwitchOff() returns (r: Result<Meta, Failure>, ghost own: seq<Happening>)
      requires w.lock == Cleanup
      modifies this
      ensures w.lock == Cleanup && old(w.now) <= w.now && log == old(log) + own && Happened(steady, old(w), own, w)
      ensures if r.Err? then Err(r.error) in Refusals(name, own) else FirstHalf(name, own) == Some(r.value)
    {
      r := ValidateTarget(name, w.place);
      own := Do(w, [], Validated(w));
      if r.Err? {
        return;
      }
      var swap := w.swap;
      own := Do(old(w), own, ReadSwaps(w));
      if swap.Some? {
        var available := w.available;
        own := Do(old(w), own, ReadMemory(w));
        if available <= swap.value + RESERVE {
          return Err(LowMemory), own;
        }
        var done: bool := *;
        var reported: bool := *;
        own := Do(old(w), own, SwitchedOff(w, done, reported));
        if !reported {
          return Err(CommandFailed), own;
        }
      }
    }

    /** The second look at the swap and the second check. */
    method CheckAgain(first: Meta) returns (r: Result<(), Failure>, ghost own: seq<Happening>)
      requires w.lock == Cleanup
      modifies this
      ensures w.lock == Cleanup && old(w.now) <= w.now && log == old(log) + own && Happened(steady, old(w), own, w)
      ensures own != [] && if r.Err? then r in SecondHalf(name, first, own) else IsSecondCheck(name, first, own)
    {
      var swap := w.swap;
      own := Do(w, [], ReadSwaps(w));
      if swap.Some? {
        return Err(StillActive), own;
      }
      var second := ValidateTarget(name, w.place);
      ghost var seen := own;
      var check := Validated(w);
      own := Do(old(w), seen, check);
      Regrouped(old(log), seen, [check]);
      r :=
        if second.Err? then Err(second.error)
        else if !SameFile(first, second.value) then Err(Refused(IdentityChanged))
        else Ok(());
    }

    /** The second look at the swap, the second check, and the removal. */
    method Remove(first: Meta) returns (r: Result<(), Failure>, ghost own: seq<Happening>)
      requires w.lock == Cleanup
      modifies this
      ensures w.lock == Cleanup && old(w.now) <= w.now && log == old(log) + own && Happened(steady, old(w), own, w)
      ensures r in SecondHalf(name, first, own) && own != []
    {
      r, own := CheckAgain(first);
      if r.Err? {
        return;
      }
      var removed: bool := *;
      removed := removed && w.place.meta.Some?;
      own := Do(old(w), own, Unlinked(w, removed));
      if !removed {
        return Err(CommandFailed), own;
      }
      var recorded: bool := *;
      own := Do(old(w), own, Recorded(w, recorded));
      r := if recorded then Ok(()) else Err(CommandFailed);
    }

    /** The checks and the removal under the lock, which is given back. */
    method RemoveHeld()
      returns (r: Result<(), Failure>, ghost own: seq<Happening>, ghost half: seq<Happening>, ghost rest: seq<Happening>)
      requires w.lock == Cleanup
      modifies this
      ensures w.lock != Cleanup && old(w.now) <= w.now && log == old(log) + own && Happened(steady, old(w), own, w)
      ensures IsRemoval(name, own, half, rest, r)
    {
      var off;
      off, half := SwitchOff();
      rest := [];
      r := if off.Err? then Err(off.error) else Ok(());
      own := half + rest;
      assert own == half;
      if off.Ok? {
        label middle:
        r, rest := Remove(off.value);
        HappenedBoth(steady, old(w), half, old@middle(w), rest, w);
        own := half + rest;
        assert old(log) + half + rest == old(log) + own;
      }
      own := Do(old(w), own, GaveBack(w));
    }

    /**
     The whole cleanup, step by step: nothing is done without a target, the record is checked before
     the lock is taken, and the target is removed only in a hold of the lock that began with an idle
     moment, after all checks in their order. The lock is never kept, and the wait is never cut short.
     */
    method RemoveWhenIdle(record: Option<Record>, wait: int)
      returns (r: Result<(), Failure>, ghost own: seq<Happening>, ghost c: Parts, ghost slept: nat)
      requires w.lock != Cleanup
      modifies this
      ensures w.lock != Cleanup && log == old(log) + own && Happened(steady, old(w), own, w)
      ensures IsCleanup(name, record, own, c, r)
      ensures r == Err(StillBusy) ==> w.now >= old(w.now) + wait
      ensures slept < Max(0, wait) + 30000 && old(w.now) + slept <= w.now
      ensures slept == 30000 * (Attempts(c.waiting) - if r == Err(StillBusy) then 1 else 0)
    {
      slept, c := 0, Parts([], [], [], [], []);
      Interfere();
      var present := w.place.meta.Some?;
      own := Do(old(w), [], SawTarget(w));
      if !present {
        return Ok(()), own, c, slept;
      }
      r := CheckRecord(record);
      if r.Err? {
        return;
      }
      label waiting:
      r, c, slept := WaitAndRemove(wait);
      HappenedBoth(steady, old(w), own, old@waiting(w), StepsOf(c), w);
      own := own + StepsOf(c);
    }

    /** The wait and the hold of the lock. */
    method WaitAndRemove(wait: int) returns (r: Result<(), Failure>, ghost c: Parts, ghost slept: nat)
      requires w.lock != Cleanup
      modifies this
      ensures w.lock != Cleanup && log == old(log) + StepsOf(c) && Happened(steady, old(w), StepsOf(c), w)
      ensures IsWaitAndHold(name, c, r)
      ensures r == Err(StillBusy) ==> w.now >= old(w.now) + wait
      ensures slept < Max(0, wait) + 30000 && old(w.now) + slept <= w.now
      ensures slept == 30000 * (Attempts(c.waiting) - if r == Err(StillBusy) then 1 else 0)
    {
      ghost var waiting, moment;
      r, waiting, moment, slept := WaitForIdle(wait);
      c := Parts(waiting, moment, [], [], []);
      NothingHeld(waiting, moment);
      if r.Err? {
        return;
      }
      label held:
      ghost var held, half, rest;
      r, held, half, rest := RemoveHeld();
      HappenedBoth(steady, old(w), waiting + moment, old@held(w), held, w);
      Regrouped(old(log), waiting + moment, held);
      c := Parts(waiting, moment, held, half, rest);
    }
  }

  lemma WaitingLonger(a: seq<Happening>, b: seq<Happening>)
    requires IsWaiting(a) && IsWaiting(b)
    ensures IsWaiting(a + b)
  {
    forall i | 0 <= i < |a + b| ensures WaitsAt(a + b, i) {
      if i < |a| {
        assert WaitsAt(a, i);
      } else {
        assert WaitsAt(b, i - |a|);
      }
    }
  }

  // ---------------------------------------------------------------------------------------------
  // What a removal rests on
  // ---------------------------------------------------------------------------------------------

  lemma {:induction false} StepHappened(steady: bool, start: World, log: seq<Happening>, w: World, j: nat)
    requires Happened(steady, start, log, w) && j < |log|
    ensures Happened(steady, start, log[..j], log[j].at) && IsAllowed(steady, log[j])
    ensures j > 0 ==> Rely(steady, After(log[j - 1]), log[j].at)
  {
    var front := log[..|log| - 1];
    if j < |log| - 1 {
      StepHappened(steady, start, front, log[|log| - 1].at, j);
      assert front[..j] == log[..j];
    } else if j > 0 {
      assert log[..j][j - 1] == log[j - 1];
    }
  }

  lemma {:induction false} HappenedAfter(steady: bool, start: World, a: seq<Happening>, b: seq<Happening>, w: World)
    returns (middle: World)
    requires Happened(steady, start, a + b, w)
    ensures Happened(steady, start, a, middle) && Happened(steady, middle, b, w)
  {
    if b == [] {
      assert a + b == a;
      middle := w;
    } else {
      var front, last := b[..|b| - 1], b[|b| - 1];
      assert (a + b)[..|a + b| - 1] == a + front;
      middle := HappenedAfter(steady, start, a, front, last.at);
    }
  }

  /** Neither the lock nor the target changes hands by this step. */
  predicate KeepsHold(h: Happening) {
    h.SawImports? || h.Validated? || h.ReadSwaps? || h.ReadMemory? || h.SwitchedOff?
  }

  /** What holds from one world of a hold of the lock to a later one. */
  predicate HeldOn(steady: bool, a: World, b: World) {
    && a.lock == Cleanup && b.lock == Cleanup && a.now <= b.now
    && (steady ==> b.place == a.place && (b.importing ==> a.importing) && (a.swap.None? ==> b.swap.None?))
  }

  lemma {:induction false} HoldIsKept(steady: bool, start: World, log: seq<Happening>, w: World, i: nat, j: nat)
    requires Happened(steady, start, log, w) && i < j < |log| && After(log[i]).lock == Cleanup
    requires forall k | i < k < j :: KeepsHold(log[k])
    ensures HeldOn(steady, After(log[i]), log[j].at)
    decreases j
  {
    StepHappened(steady, start, log, w, j);
    if i < j - 1 {
      HoldIsKept(steady, start, log, w, i, j - 1);
    }
  }

  /** The moments a removal rests on are those of one hold of the lock, and every check succeeded. */
  predicate IsJustified(steady: bool, name: string, idle: World, before: World, inactive: World, after: World, removal: World) {
    && HeldOn(steady, idle, before) && HeldOn(steady, before, inactive) && HeldOn(steady, inactive, after)
      && HeldOn(steady, after, removal)
    && inactive.swap.None?
    && ValidateTarget(name, before.place).Ok? && ValidateTarget(name, after.place).Ok?
    && ValidateTarget(name, before.place).value.dev == ValidateTarget(name, after.place).value.dev
    && ValidateTarget(name, before.place).value.ino == ValidateTarget(name, after.place).value.ino
    && (steady ==> !idle.importing)
  }

  lemma MomentsOfAHold(
      s: seq<Happening>, moment: seq<Happening>, held: seq<Happening>, half: seq<Happening>, rest: seq<Happening>,
      name: string, r: Result<(), Failure>)
    requires s == moment + held && IsIdleMoment(moment) && IsRemoval(name, held, half, rest, r) && |rest| >= 3
    ensures var n := |half|;
            && (n == 2 || n == 4) && |s| == n + |rest| + 3
            && s[0].Took? && s[1] == moment[1] && s[2] == half[0] && s[n + 2] == rest[0] && s[n + 3] == rest[1]
              && s[n + 4] == rest[2]
            && forall k | 1 <= k < n + 4 :: KeepsHold(s[k])
  {
    var n := |half|;
    assert FirstHalf(name, half).Some?;
    assert forall k | 0 <= k < n + 3 :: held[k] == (half + rest)[k];
    assert forall k | 2 <= k < n + 2 :: s[k] == half[k - 2];
  }

  /** Whenever the target was removed, the removal was justified by the moments of its hold of the lock. */
  lemma RemovalIsJustified(steady: bool, name: string, start: World, c: Parts, r: Result<(), Failure>, w: World)
    requires Happened(steady, start, c.moment + c.held, w)
    requires IsIdleMoment(c.moment) && IsRemoval(name, c.held, c.half, c.rest, r) && |c.rest| >= 3
    ensures IsJustified(steady, name, c.moment[1].at, c.half[0].at, c.rest[0].at, c.rest[1].at, c.rest[2].at)
            && c.rest[2].Unlinked?
  {
    var s, n := c.moment + c.held, |c.half|;
    MomentsOfAHold(s, c.moment, c.held, c.half, c.rest, name, r);
    StepHappened(steady, start, s, w, 1);
    HoldIsKept(steady, start, s, w, 1, 2);
    HoldIsKept(steady, start, s, w, 2, n + 2);
    HoldIsKept(steady, start, s, w, n + 2, n + 3);
    HoldIsKept(steady, start, s, w, n + 3, n + 4);
  }

  /** A cleanup that returns normally with a target to remove has removed it with this justification. */
  lemma SuccessIsJustified(
      steady: bool, name: string, record: Option<Record>, start: World, own: seq<Happening>, c: Parts, w: World)
    requires Happened(steady, start, own, w) && IsCleanup(name, record, own, c, Ok(())) && own[0].at.place.meta.Some?
    ensures |c.moment| == 2 && c.half != [] && |c.rest| == 4 && c.rest[2].Unlinked? && c.rest[2].done && c.rest[3].done
    ensures IsJustified(steady, name, c.moment[1].at, c.half[0].at, c.rest[0].at, c.rest[1].at, c.rest[2].at)
  {
    assert own == ([own[0]] + c.waiting) + (c.moment + c.held);
    var middle := HappenedAfter(steady, start, [own[0]] + c.waiting, c.moment + c.held, w);
    RemovalIsJustified(steady, name, middle, c, Ok(()), w);
  }

  // ---------------------------------------------------------------------------------------------
  // Which file is removed
  // ---------------------------------------------------------------------------------------------

  /** What was put under the path of the target last, if anything was. */
  function LastPlace(events: seq<Event>): Option<Place> {
    if events == [] then None
    else if events[|events| - 1].Replace? then Some(events[|events| - 1].place)
    else LastPlace(events[..|events| - 1])
  }

  predicate IsAnother(place: Place, file: Meta) {
    place.meta.Some? && !SameFile(place.meta.value, file)
  }

  lemma {:induction false} PlaceAfter(steady: bool, w: World, events: seq<Event>)
    requires w.lock == Cleanup
    ensures Run(steady, w, events).lock == Cleanup
    ensures Run(steady, w, events).place == if steady || LastPlace(events).None? then w.place else LastPlace(events).value
  {
    if events != [] {
      PlaceAfter(steady, w, events[..|events| - 1]);
    }
  }

  /**
   The removal goes by the path. It hits another file than the one that was checked exactly when the
   machine is not steady and the last thing put under the path since the second check is another file.
   */
  lemma AnotherFileExactly(steady: bool, after: World, file: Meta, events: seq<Event>)
    requires after.lock == Cleanup && after.place.meta == Some(file)
    ensures IsAnother(Run(steady, after, events).place, file) <==>
            !steady && LastPlace(events).Some? && IsAnother(LastPlace(events).value, file)
  {
    PlaceAfter(steady, after, events);
  }

  lemma Once(start: World, h: Happening)
    requires Rely(false, start, h.at) && IsAllowed(false, h)
    ensures Happened(false, start, [h], After(h))
  {
    assert [h][..0] == [];
  }

  lemma Twice(start: World, g: Happening, h: Happening)
    requires Rely(false, start, g.at) && IsAllowed(false, g) && Rely(false, After(g), h.at) && IsAllowed(false, h)
    ensures Happened(false, start, [g, h], After(h))
  {
    Once(start, g);
    Once(After(g), h);
    HappenedBoth(false, start, [g], After(g), [h], After(h));
    assert [g] + [h] == [g, h];
  }

  /** The steps of a removal in which the machine puts another file in place after the second check. */
  function FirstChecks(held: World): seq<Happening> {
    [Validated(held), ReadSwaps(held)]
  }

  function SecondChecks(held: World, replaced: World): seq<Happening> {
    [ReadSwaps(held), Validated(held)] + [Unlinked(replaced, true), Recorded(After(Unlinked(replaced, true)), true)]
  }

  function Hold(held: World, replaced: World): Parts {
    var end := After(Unlinked(replaced, true));
    var half, rest := FirstChecks(held), SecondChecks(held, replaced);
    Parts([], [Took(held.(lock := Free)), SawImports(held, false)], half + rest + [GaveBack(end)], half, rest)
  }

  lemma HoldHappened(held: World, replaced: World)
    requires held.lock == Cleanup && Rely(false, held, replaced) && replaced.place.meta.Some?
    ensures Happened(false, held.(lock := Free), StepsOf(Hold(held, replaced)), After(GaveBack(After(Unlinked(replaced, true)))))
  {
    var free, end, c := held.(lock := Free), After(Unlinked(replaced, true)), Hold(held, replaced);
    Twice(free, Took(free), SawImports(held, false));
    Twice(held, Validated(held), ReadSwaps(held));
    Twice(held, ReadSwaps(held), Validated(held));
    Twice(held, Unlinked(replaced, true), Recorded(end, true));
    Once(end, GaveBack(end));
    HappenedBoth(false, held, [ReadSwaps(held), Validated(held)], held, [Unlinked(replaced, true), Recorded(end, true)], end);
    HappenedBoth(false, held, c.half, held, c.rest, end);
    HappenedBoth(false, held, c.half + c.rest, end, [GaveBack(end)], After(GaveBack(end)));
    HappenedBoth(false, free, c.moment, held, c.held, After(GaveBack(end)));
    assert StepsOf(c) == c.moment + c.held;
  }

  lemma HoldIsRemoval(name: string, held: World, replaced: World)
    requires held.lock == Cleanup && held.swap.None? && ValidateTarget(name, held.place).Ok?
    ensures IsWaitAndHold(name, Hold(held, replaced), Ok(()))
  {
    var c := Hold(held, replaced);
    assert c.held[..|c.held| - 1] == c.half + c.rest;
  }

  /**
   A whole cleanup that removes another file: the checked file is replaced, by one step of the machine,
   between the second check and the removal.
   */
  lemma AnotherFileIsRemoved(name: string, record: Option<Record>, held: World, other: Place)
    requires held.lock == Cleanup && !held.importing && held.swap.None? && other.meta.Some?
    requires ValidateTarget(name, held.place).Ok? && CheckRecord(record).Ok?
    ensures var replaced := Run(false, held, [Replace(other)]);
            var c := Hold(held, replaced);
            var own := [SawTarget(held.(lock := Free))] + StepsOf(c);
            && replaced.place == other
            && Happened(false, held.(lock := Free), own, After(GaveBack(After(Unlinked(replaced, true)))))
            && IsCleanup(name, record, own, c, Ok(()))
            && c.half[0].at.place == held.place && c.rest[2] == Unlinked(replaced, true)
  {
    var free, event := held.(lock := Free), Replace(other);
    var replaced := Run(false, held, [event]);
    assert [event][..0] == [] && Run(false, held, []) == held && replaced == Step(false, held, event);
    HoldHappened(held, replaced);
    HoldIsRemoval(name, held, replaced);
    Once(free, SawTarget(free));
    HappenedBoth(false, free, [SawTarget(free)], free, StepsOf(Hold(held, replaced)), After(GaveBack(After(Unlinked(replaced, true)))));
  }
}
