/**
 The program that the FCC controller runs inside the backend container. One run scans the process
 table, picks out the import processes, and may then signal one of them or tighten its limits.
 */
module ImportProcess {
  import opened Basics

  // ---------------------------------------------------------------------------------------------
  // Recognising an import process by its command line
  // ---------------------------------------------------------------------------------------------

  /** What a command line says about its process. */
  datatype Image = Unrelated | UnknownImport | Import(dataset: string)

  const ARCHIVE_NAMES: map<string, string> :=
    map["asr" := "r_tower.zip", "uls_commercial" := "l_LMcomm.zip", "uls_private" := "l_LMpriv.zip"]

  /** The components of a POSIX path: empty and "." components are dropped, as PurePosixPath does. */
  function Components(path: string): (parts: seq<string>)
    ensures forall part | part in parts :: part != "" && part != "." && '/' !in part
  {
    ComponentsFrom(path, "")
  }

  function ComponentsFrom(path: string, part: string): (parts: seq<string>)
    requires '/' !in part
    ensures forall p | p in parts :: p != "" && p != "." && '/' !in p
    decreases |path|
  {
    if path == [] then KeptPart(part)
    else if path[0] == '/' then KeptPart(part) + ComponentsFrom(path[1..], "")
    else ComponentsFrom(path[1..], part + [path[0]])
  }

  function KeptPart(part: string): seq<string> {
    if part == "" || part == "." then [] else [part]
  }

  /** The last component; the empty text for a path without one. */
  function Name(path: string): string {
    var parts := Components(path);
    if parts == [] then "" else parts[|parts| - 1]
  }

  predicate IsAlphanumeric(c: char) {
    '0' <= c <= '9' || 'A' <= c <= 'Z' || 'a' <= c <= 'z'
  }

  const PRIVATE_PREFIX := "/tmp/ict-fcc-"

  /** The private operation directory: the fixed prefix and exactly eight letters or digits. */
  predicate IsPrivateDirectory(directory: string) {
    && |directory| == |PRIVATE_PREFIX| + 8
    && PRIVATE_PREFIX <= directory
    && forall i | |PRIVATE_PREFIX| <= i < |directory| :: IsAlphanumeric(directory[i])
  }

  /**
   Whether the parent of `path`, written out again, is `directory`. It is asked only together with
   IsPrivateDirectory, and such a directory is an absolute path written in its shortest form, so it
   is the parent exactly when the path is absolute (one leading slash, or at least three) and has
   the directory's components followed by one more.
   */
  predicate HasParent(path: string, directory: string) {
    var parts := Components(path);
    && "/" <= path
    && !("//" <= path && !("///" <= path))
    && parts != []
    && parts[..|parts| - 1] == Components(directory)
  }

  function IndexOf(args: seq<string>, wanted: string): (i: nat)
    requires wanted in args
    ensures i < |args| && args[i] == wanted
    ensures wanted !in args[..i]
  {
    if args[0] == wanted then 0 else 1 + IndexOf(args[1..], wanted)
  }

  predicate RunsImport(args: seq<string>)
    requires |args| >= 4
  {
    "python" <= Name(args[0]) && Name(args[1]) == "manage.py" && args[2] == "import_fcc_archive"
  }

  /** Whether the archive is the dataset's own, inside the private directory. */
  predicate OwnArchive(archive: string, dataset: string, directory: string) {
    && dataset in ARCHIVE_NAMES && Name(archive) == ARCHIVE_NAMES[dataset]
    && HasParent(archive, directory) && IsPrivateDirectory(directory)
  }

  /** The classification of one command line, in the order the program tests it. */
  function Classify(args: seq<string>): Image {
    if |args| < 4 || !RunsImport(args) then Unrelated
    else if "--dataset" !in args || "--work-dir" !in args then UnknownImport
    else
      var d := IndexOf(args, "--dataset") + 1;
      var w := IndexOf(args, "--work-dir") + 1;
      // A flag that ends the command line raises IndexError, and the process is passed over.
      if d >= |args| || w >= |args| then Unrelated
      else if OwnArchive(args[3], args[d], args[w]) then Import(args[d]) else UnknownImport
  }

  // ---------------------------------------------------------------------------------------------
  // The process table and the scan
  // ---------------------------------------------------------------------------------------------

  /** A resource limit; Infinity is above every number. */
  datatype Bound = Finite(bytes: nat) | Infinity

  predicate AtMost(a: Bound, b: Bound) {
    b.Infinity? || (a.Finite? && a.bytes <= b.bytes)
  }

  function Tighter(a: Bound, limit: nat): (r: nat)
    ensures r <= limit && AtMost(Finite(r), a)
    ensures Finite(r) == a || r == limit
  {
    if a.Finite? && a.bytes < limit then a.bytes else limit
  }

  /**
   What /proc shows of a process. `image` is the classification of its command line; a process gets
   one from `Started` and may get another one when it executes a different program.
   */
  datatype Process = Process(start: nat, image: Image, vmBytes: nat, soft: Bound, hard: Bound, nice: int)

  function Started(start: nat, args: seq<string>, vmBytes: nat, soft: Bound, hard: Bound, nice: int): Process {
    Process(start, Classify(args), vmBytes, soft, hard, nice)
  }

  /** A process is known by its pid together with its start time. */
  datatype Identity = Identity(pid: nat, start: nat)

  type Table = map<nat, Process>

  predicate Alive(table: Table, id: Identity) {
    id.pid in table && table[id.pid].start == id.start
  }

  predicate Imports(table: Table, id: Identity, dataset: string) {
    Alive(table, id) && table[id.pid].image == Import(dataset)
  }

  /** One entry of the answer; `limit` is filled in by a successful limit request. */
  datatype Observation = Observation(id: Identity, dataset: string, limit: Option<nat>)

  predicate Wanted(p: Process, wanted: Option<string>) {
    p.image.Import? && (wanted.Some? ==> p.image.dataset == wanted.value)
  }

  function Entry(pid: nat, p: Process, wanted: Option<string>): seq<Observation> {
    if Wanted(p, wanted) then [Observation(Identity(pid, p.start), p.image.dataset, None)] else []
  }

  /** The entries for the processes read in `order`; a process that could not be read is not in it. */
  function Matches(table: Table, order: seq<nat>, wanted: Option<string>): (found: seq<Observation>)
    requires forall pid | pid in order :: pid in table
    ensures forall o | o in found :: Imports(table, o.id, o.dataset) && (wanted.Some? ==> o.dataset == wanted.value)
  {
    if order == [] then []
    else
      assert order[0] in order;
      Entry(order[0], table[order[0]], wanted) + Matches(table, order[1..], wanted)
  }

  function Unknowns(table: Table, order: seq<nat>): nat
    requires forall pid | pid in order :: pid in table
  {
    if order == [] then 0
    else (if table[order[0]].image == UnknownImport then 1 else 0) + Unknowns(table, order[1..])
  }

  lemma {:induction false} MatchesAppend(table: Table, order: seq<nat>, pid: nat, wanted: Option<string>)
    requires pid in table && forall p | p in order :: p in table
    ensures Matches(table, order + [pid], wanted) == Matches(table, order, wanted) + Entry(pid, table[pid], wanted)
  {
    if order == [] {
      assert [] + [pid] == [pid];
    } else {
      assert (order + [pid])[1..] == order[1..] + [pid];
      MatchesAppend(table, order[1..], pid, wanted);
    }
  }

  lemma {:induction false} UnknownsAppend(table: Table, order: seq<nat>, pid: nat)
    requires pid in table && forall p | p in order :: p in table
    ensures Unknowns(table, order + [pid]) == Unknowns(table, order) + Unknowns(table, [pid])
  {
    if order == [] {
      assert [] + [pid] == [pid];
    } else {
      assert (order + [pid])[1..] == order[1..] + [pid];
      UnknownsAppend(table, order[1..], pid);
    }
  }

  lemma {:induction false} ReadProcessIsFound(table: Table, order: seq<nat>, wanted: Option<string>, pid: nat)
    requires (forall p | p in order :: p in table) && pid in order && Wanted(table[pid], wanted)
    ensures Observation(Identity(pid, table[pid].start), table[pid].image.dataset, None) in Matches(table, order, wanted)
  {
    if order[0] != pid {
      ReadProcessIsFound(table, order[1..], wanted, pid);
    }
  }

  /** The scan loop: it collects the matches and counts the imports it cannot account for. */
  method Scan(table: Table, order: seq<nat>, wanted: Option<string>)
    returns (matches: seq<Observation>, unknown: nat)
    requires forall pid | pid in order :: pid in table
    ensures matches == Matches(table, order, wanted)
    ensures unknown == Unknowns(table, order)
  {
    matches, unknown := [], 0;
    for i := 0 to |order|
      invariant matches == Matches(table, order[..i], wanted)
      invariant unknown == Unknowns(table, order[..i])
    {
      var pid := order[i];
      assert order[..i + 1] == order[..i] + [pid];
      MatchesAppend(table, order[..i], pid, wanted);
      UnknownsAppend(table, order[..i], pid);
      match table[pid].image {
        case Unrelated =>
        case UnknownImport => unknown := unknown + 1;
        case Import(dataset) =>
          if wanted.None? || dataset == wanted.value {
            matches := matches + [Observation(Identity(pid, table[pid].start), dataset, None)];
          }
      }
    }
    assert order[..|order|] == order;
  }

  // ---------------------------------------------------------------------------------------------
  // The request
  // ---------------------------------------------------------------------------------------------

  datatype Mode = Probe | Limit | Stop

  datatype Request = Request(mode: Mode, dataset: Option<string>, expected: Option<Identity>, force: bool, mib: int)

  /** Memory of the machine, and of the control group when it sets a number. */
  datatype Memory = Memory(physical: nat, cgroup: Option<nat>)

  /** A system call that the kernel refuses during this run. */
  datatype Refusal = Nothing | KillRefused | LimitRefused | PriorityRefused

  datatype Answer = Answer(processes: seq<Observation>, unknown: nat, error: bool)

  /** What a run did to a process, if anything. */
  datatype Effect =
    | Signalled(target: Identity, force: bool)
    | Limited(target: Identity, before: Process, after: Process)

  const MIB := 1024 * 1024

  function Budget(mib: nat, memory: Memory): nat {
    Min(mib * MIB, (if memory.cgroup.Some? then Min(memory.physical, memory.cgroup.value) else memory.physical) / 2)
  }

  /** The new limits and priority; `reniced` is false when the kernel refused the last call. */
  function Restrict(p: Process, limit: nat, reniced: bool): Process {
    var hard := Tighter(p.hard, limit);
    p.(hard := Finite(hard), soft := Finite(Tighter(p.soft, hard)), nice := if reniced then Max(10, p.nice) else p.nice)
  }

  predicate Chosen(o: Observation, expected: Option<Identity>) {
    expected.None? || o.id == expected.value
  }

  function Selected(matches: seq<Observation>, expected: Option<Identity>): (chosen: seq<Observation>)
    ensures forall o | o in chosen :: o in matches && Chosen(o, expected)
    ensures forall o | o in matches && Chosen(o, expected) :: o in chosen
  {
    if matches == [] then []
    else (if Chosen(matches[0], expected) then [matches[0]] else []) + Selected(matches[1..], expected)
  }

  function WithLimit(matches: seq<Observation>, id: Identity, limit: nat): (marked: seq<Observation>)
    ensures |marked| == |matches|
    ensures forall i | 0 <= i < |marked| :: marked[i].id == matches[i].id && marked[i].dataset == matches[i].dataset
  {
    if matches == [] then []
    else [if matches[0].id == id then matches[0].(limit := Some(limit)) else matches[0]] + WithLimit(matches[1..], id, limit)
  }

  datatype Outcome = Outcome(table: Table, answer: Answer, effect: Option<Effect>)

  /** The part of the program after the scan, given what the scan found. */
  function Act(
      table: Table, matches: seq<Observation>, unknown: nat, request: Request, memory: Memory, refused: Refusal): Outcome
    requires forall o | o in matches :: Alive(table, o.id)
  {
    var chosen := Selected(matches, request.expected);
    var failed := Outcome(table, Answer(matches, unknown, true), None);
    if request.mode == Probe then Outcome(table, Answer(matches, unknown, false), None)
    else if |chosen| != 1 || (unknown > 0 && !(request.mode == Stop && request.expected.Some?)) then failed
    else
      var id := chosen[0].id;
      assert chosen[0] in chosen;
      assert Alive(table, id);
      var p := table[id.pid];
      if request.mode == Stop then
        if refused == KillRefused then failed
        else Outcome(table, Answer(matches, unknown, false), Some(Signalled(id, request.force)))
      else if !(256 <= request.mib <= 4096) then failed
      else
        var limit := Budget(request.mib, memory);
        if p.vmBytes >= limit || refused == LimitRefused then failed
        else
          var q := Restrict(p, limit, refused != PriorityRefused);
          var done := Some(Limited(id, p, q));
          if refused == PriorityRefused then Outcome(table[id.pid := q], Answer(matches, unknown, true), done)
          else Outcome(table[id.pid := q], Answer(WithLimit(matches, id, q.hard.bytes), unknown, false), done)
  }

  /** A whole run is one atomic step on the table. */
  function RunProgram(table: Table, order: seq<nat>, request: Request, memory: Memory, refused: Refusal): Outcome
    requires forall pid | pid in order :: pid in table
  {
    Act(table, Matches(table, order, request.dataset), Unknowns(table, order), request, memory, refused)
  }

  // ---------------------------------------------------------------------------------------------
  // What a run can and cannot do
  // ---------------------------------------------------------------------------------------------

  /**
   Whatever the request, a run changes at most one process. That process was alive, was recognised
   as an import of the requested dataset, and is the expected one when the request names one; only
   its limits and priority can change, and a probe changes nothing.
   */
  lemma OnlyTheExpectedImportIsTouched(table: Table, order: seq<nat>, request: Request, memory: Memory, refused: Refusal)
    requires forall pid | pid in order :: pid in table
    ensures var r := RunProgram(table, order, request, memory, refused);
            && r.table.Keys == table.Keys
            && (r.effect.None? ==> r.table == table)
            && (request.mode == Probe ==> r.effect.None?)
            && (r.effect.Some? ==>
                  var id := r.effect.value.target;
                  && (request.expected.Some? ==> id == request.expected.value)
                  && Alive(table, id) && Alive(r.table, id)
                  && table[id.pid].image.Import?
                  && (request.dataset.Some? ==> Imports(table, id, request.dataset.value))
                  && r.table == table[id.pid := r.table[id.pid]]
                  && r.table[id.pid].image == table[id.pid].image)
  {
    var matches := Matches(table, order, request.dataset);
    var chosen := Selected(matches, request.expected);
    if |chosen| == 1 {
      assert chosen[0] in chosen;
    }
  }

  /** A process is found whenever it is read and runs an import of the requested dataset. */
  lemma EveryReadImportIsListed(table: Table, order: seq<nat>, request: Request, memory: Memory, refused: Refusal, id: Identity)
    requires forall pid | pid in order :: pid in table
    requires id.pid in order && request.dataset.Some? && Imports(table, id, request.dataset.value)
    ensures exists o :: o in RunProgram(table, order, request, memory, refused).answer.processes && o.id == id
  {
    var matches := Matches(table, order, request.dataset);
    var o := Observation(id, request.dataset.value, None);
    ReadProcessIsFound(table, order, request.dataset, id.pid);
    var i :| 0 <= i < |matches| && matches[i] == o;
    var answer := RunProgram(table, order, request, memory, refused).answer.processes;
    assert answer[i].id == id;
    assert answer[i] in answer;
  }

  /** The answer lists only live imports, all of the requested dataset when one is named. */
  lemma AnswersAreLiveImports(table: Table, order: seq<nat>, request: Request, memory: Memory, refused: Refusal, o: Observation)
    requires forall pid | pid in order :: pid in table
    requires o in RunProgram(table, order, request, memory, refused).answer.processes
    ensures Imports(table, o.id, o.dataset)
    ensures request.dataset.Some? ==> o.dataset == request.dataset.value
  {
    var matches := Matches(table, order, request.dataset);
    var answer := RunProgram(table, order, request, memory, refused).answer.processes;
    var i :| 0 <= i < |answer| && answer[i] == o;
    assert matches[i] in matches;
  }

  predicate DistinctIds(found: seq<Observation>) {
    forall i, j | 0 <= i < j < |found| :: found[i].id != found[j].id
  }

  lemma {:induction false} SelectedOne(matches: seq<Observation>, id: Identity)
    requires DistinctIds(matches)
    ensures |Selected(matches, Some(id))| <= 1
    ensures (exists o :: o in matches && o.id == id) ==> |Selected(matches, Some(id))| == 1
  {
    if matches != [] {
      SelectedOne(matches[1..], id);
      assert matches == [matches[0]] + matches[1..];
      var rest := Selected(matches[1..], Some(id));
      assert rest != [] ==> rest[0] in rest && rest[0] in matches[1..];
      assert forall o | o in matches[1..] :: o.id != matches[0].id;
    }
  }

  lemma OneMoreDistinct(o: Observation, rest: seq<Observation>)
    requires DistinctIds(rest) && forall x | x in rest :: x.id != o.id
    ensures DistinctIds([o] + rest)
  {
    var all := [o] + rest;
    forall i, j | 0 <= i < j < |all| ensures all[i].id != all[j].id {
      assert all[j] == rest[j - 1] && rest[j - 1] in rest && (i > 0 ==> all[i] == rest[i - 1]);
    }
  }

  lemma {:induction false} MatchesAreDistinct(table: Table, order: seq<nat>, wanted: Option<string>)
    requires (forall pid | pid in order :: pid in table) && forall i, j | 0 <= i < j < |order| :: order[i] != order[j]
    ensures forall o | o in Matches(table, order, wanted) :: o.id.pid in order
    ensures DistinctIds(Matches(table, order, wanted))
  {
    if order != [] {
      var pid, rest := order[0], Matches(table, order[1..], wanted);
      MatchesAreDistinct(table, order[1..], wanted);
      assert order == [pid] + order[1..] && pid !in order[1..];
      assert forall o | o in rest :: o.id.pid != pid;
      if Wanted(table[pid], wanted) {
        OneMoreDistinct(Entry(pid, table[pid], wanted)[0], rest);
      } else {
        assert [] + rest == rest;
      }
    }
  }

  /**
   A stop of an expected import answers an error exactly if it sends no signal. If the import is found
   by the scan, that happens exactly when the kernel refuses the signal.
   */
  lemma StopFailsExactly(table: Table, order: seq<nat>, request: Request, memory: Memory, refused: Refusal)
    requires (forall pid | pid in order :: pid in table) && forall i, j | 0 <= i < j < |order| :: order[i] != order[j]
    requires request.mode == Stop && request.expected.Some?
    ensures var r := RunProgram(table, order, request, memory, refused);
            var id := request.expected.value;
            && (!r.answer.error <==> r.effect == Some(Signalled(id, request.force)))
            && (request.dataset.Some? && id.pid in order && Imports(table, id, request.dataset.value) ==>
                  (r.answer.error <==> refused == KillRefused))
  {
    var id := request.expected.value;
    var matches := Matches(table, order, request.dataset);
    MatchesAreDistinct(table, order, request.dataset);
    SelectedOne(matches, id);
    var chosen := Selected(matches, request.expected);
    assert |chosen| == 1 ==> chosen[0] in chosen;
    if request.dataset.Some? && id.pid in order && Imports(table, id, request.dataset.value) {
      ReadProcessIsFound(table, order, request.dataset, id.pid);
    }
  }

  /** The scan read a process with this identity, and it runs an import of the requested dataset, if one is named. */
  ghost predicate ReadAsImport(table: Table, order: seq<nat>, wanted: Option<string>, id: Identity) {
    && id.pid in order && Alive(table, id) && table[id.pid].image.Import?
    && (wanted.Some? ==> table[id.pid].image.dataset == wanted.value)
  }

  lemma {:induction false} SomeUnknown(table: Table, order: seq<nat>)
    requires forall pid | pid in order :: pid in table
    ensures Unknowns(table, order) > 0 <==> exists pid | pid in order :: table[pid].image == UnknownImport
  {
    if order != [] {
      SomeUnknown(table, order[1..]);
      assert order == [order[0]] + order[1..];
    }
  }

  /** The one import that is chosen when one is expected. */
  lemma ChosenExactly(table: Table, order: seq<nat>, wanted: Option<string>, id: Identity)
    requires (forall pid | pid in order :: pid in table) && forall i, j | 0 <= i < j < |order| :: order[i] != order[j]
    ensures var chosen := Selected(Matches(table, order, wanted), Some(id));
            if ReadAsImport(table, order, wanted, id)
            then chosen == [Observation(id, table[id.pid].image.dataset, None)] else chosen == []
  {
    var matches := Matches(table, order, wanted);
    var chosen := Selected(matches, Some(id));
    MatchesAreDistinct(table, order, wanted);
    SelectedOne(matches, id);
    assert chosen != [] ==> chosen[0] in chosen;
    if ReadAsImport(table, order, wanted, id) {
      ReadProcessIsFound(table, order, wanted, id.pid);
      var o := Observation(id, table[id.pid].image.dataset, None);
      assert o in matches && Chosen(o, Some(id));
      assert o in chosen;
    }
    MatchesAreUnmarked(table, order, wanted);
  }

  lemma {:induction false} MatchesAreUnmarked(table: Table, order: seq<nat>, wanted: Option<string>)
    requires forall pid | pid in order :: pid in table
    ensures forall o | o in Matches(table, order, wanted) :: o.limit == None
  {
    if order != [] {
      MatchesAreUnmarked(table, order[1..], wanted);
    }
  }

  lemma {:induction false} OnlyTheOneIsMarked(matches: seq<Observation>, id: Identity, limit: nat)
    ensures forall i | 0 <= i < |matches| ::
              WithLimit(matches, id, limit)[i].limit == if matches[i].id == id then Some(limit) else matches[i].limit
  {
    if matches != [] {
      OnlyTheOneIsMarked(matches[1..], id, limit);
    }
  }

  /** The bytes a limit request allows: the MiB it names, but at most half of the memory. */
  ghost function Allowed(mib: nat, memory: Memory): nat {
    var all := if memory.cgroup.Some? && memory.cgroup.value < memory.physical then memory.cgroup.value else memory.physical;
    if mib * 1048576 < all / 2 then mib * 1048576 else all / 2
  }

  /** A number as a bound, tightened by another one. */
  ghost function Lower(bound: Bound, limit: nat): Bound {
    if bound.Finite? && bound.bytes <= limit then bound else Finite(limit)
  }

  /** The request can be met: one known import is the expected one, the budget is allowed, and there is room left. */
  ghost predicate CanLimit(table: Table, order: seq<nat>, request: Request, memory: Memory)
    requires request.expected.Some? && forall pid | pid in order :: pid in table
  {
    && ReadAsImport(table, order, request.dataset, request.expected.value)
    && (forall pid | pid in order :: table[pid].image != UnknownImport)
    && 256 <= request.mib <= 4096
    && table[request.expected.value.pid].vmBytes < Allowed(request.mib, memory)
  }

  /**
   A limit request for an expected import fails exactly when that import was not read, or another one
   is unaccounted for, or the MiB are outside the policy, or the import has already reached its budget,
   or the kernel refused. Otherwise the import has the tighter limits and a priority of at least 10, and
   its entry, no other, carries the new hard limit. When only the priority is refused the limits stand.
   */
  lemma LimitFailsExactly(table: Table, order: seq<nat>, request: Request, memory: Memory, refused: Refusal)
    requires (forall pid | pid in order :: pid in table) && forall i, j | 0 <= i < j < |order| :: order[i] != order[j]
    requires request.mode == Limit && request.expected.Some?
    ensures var r, can := RunProgram(table, order, request, memory, refused), CanLimit(table, order, request, memory);
            && (!r.answer.error <==> can && refused != LimitRefused && refused != PriorityRefused)
            && (!can || refused == LimitRefused ==> r.table == table && r.effect == None)
            && (can && refused != LimitRefused ==>
                  var id := request.expected.value;
                  var p, q := table[id.pid], r.table[id.pid];
                  && r.table == table[id.pid := q] && r.effect == Some(Limited(id, p, q))
                  && q.start == p.start && q.image == p.image && q.vmBytes == p.vmBytes
                  && q.hard == Lower(p.hard, Allowed(request.mib, memory)) && q.soft == Lower(p.soft, q.hard.bytes)
                  && q.nice == (if refused == PriorityRefused || p.nice >= 10 then p.nice else 10))
            && (forall i | 0 <= i < |r.answer.processes| ::
                  r.answer.processes[i].limit ==
                  if r.answer.error || r.answer.processes[i].id != request.expected.value then None
                  else Some(r.table[request.expected.value.pid].hard.bytes))
  {
    var id := request.expected.value;
    var matches := Matches(table, order, request.dataset);
    ChosenExactly(table, order, request.dataset, id);
    SomeUnknown(table, order);
    MatchesAreUnmarked(table, order, request.dataset);
    var r := RunProgram(table, order, request, memory, refused);
    if CanLimit(table, order, request, memory) && refused != LimitRefused {
      assert Budget(request.mib, memory) == Allowed(request.mib, memory);
      OnlyTheOneIsMarked(matches, id, r.table[id.pid].hard.bytes);
    }
    forall i | 0 <= i < |r.answer.processes|
      ensures r.answer.processes[i].limit
              == if r.answer.error || r.answer.processes[i].id != id then None else Some(r.table[id.pid].hard.bytes)
    {
      assert matches[i] in matches;
    }
  }

  /**
   A request that expects no particular import acts only when the scan listed exactly one; otherwise it
   answers an error and changes nothing.
   */
  lemma WithoutExpectationOneIsNeeded(table: Table, order: seq<nat>, request: Request, memory: Memory, refused: Refusal)
    requires (forall pid | pid in order :: pid in table) && request.mode != Probe && request.expected.None?
    ensures var r, matches := RunProgram(table, order, request, memory, refused), Matches(table, order, request.dataset);
            var clear := |matches| == 1 && forall pid | pid in order :: table[pid].image != UnknownImport;
            && (r.effect.Some? ==> clear && r.effect.value.target == matches[0].id)
            && (!clear ==> r.answer.error && r.table == table)
            && (clear && request.mode == Stop ==>
                  && (r.answer.error <==> refused == KillRefused)
                  && (!r.answer.error ==> r.effect == Some(Signalled(matches[0].id, request.force))))
  {
    EveryoneIsChosen(Matches(table, order, request.dataset));
    SomeUnknown(table, order);
  }

  lemma {:induction false} EveryoneIsChosen(matches: seq<Observation>)
    ensures Selected(matches, None) == matches
  {
    if matches != [] {
      EveryoneIsChosen(matches[1..]);
    }
  }

  /** A limit request that reports no error left its target within the budget. */
  lemma LimitedMeansWithinBudget(table: Table, order: seq<nat>, request: Request, memory: Memory, refused: Refusal)
    requires forall pid | pid in order :: pid in table
    requires request.mode == Limit && request.expected.Some?
    requires !RunProgram(table, order, request, memory, refused).answer.error
    ensures var r := RunProgram(table, order, request, memory, refused);
            && 256 <= request.mib <= 4096
            && r.effect.Some? && r.effect.value.Limited? && r.effect.value.target == request.expected.value
            && r.answer.processes != []
            && var q := r.table[request.expected.value.pid];
               AtMost(q.soft, q.hard) && AtMost(q.hard, Finite(Budget(request.mib, memory))) && q.nice >= 10
  {
    OnlyTheExpectedImportIsTouched(table, order, request, memory, refused);
    var chosen := Selected(Matches(table, order, request.dataset), request.expected);
    assert chosen[0] in chosen;
  }

  /** One limit call on one process: the budget it asked for, and how far it got. */
  datatype LimitCall = LimitCall(mib: nat, memory: Memory, reniced: bool)

  function AfterLimits(p: Process, calls: seq<LimitCall>): Process
    decreases |calls|
  {
    if calls == [] then p
    else
      var last := calls[|calls| - 1];
      Restrict(AfterLimits(p, calls[..|calls| - 1]), Budget(last.mib, last.memory), last.reniced)
  }

  /**
   Over any sequence of limit calls, in any order and with any budgets: both limits only shrink, the
   priority value never drops, and once a call was made the soft limit is at most the hard limit,
   which is at most every budget asked for so far.
   */
  lemma {:induction false} LimitsOnlyShrink(p: Process, calls: seq<LimitCall>)
    ensures var q := AfterLimits(p, calls);
            && AtMost(q.soft, p.soft) && AtMost(q.hard, p.hard) && q.nice >= p.nice
            && (calls != [] ==> AtMost(q.soft, q.hard))
            && forall c | c in calls :: AtMost(q.hard, Finite(Budget(c.mib, c.memory)))
    decreases |calls|
  {
    if calls != [] {
      var before := calls[..|calls| - 1];
      LimitsOnlyShrink(p, before);
      assert calls == before + [calls[|calls| - 1]];
    }
  }

  /** Repeating a limit call changes nothing. */
  lemma LimitingTwiceIsLimitingOnce(p: Process, limit: nat, reniced: bool)
    ensures Restrict(Restrict(p, limit, reniced), limit, reniced) == Restrict(p, limit, reniced)
  {
  }

  // ---------------------------------------------------------------------------------------------
  // The command line of the deployed helper
  // ---------------------------------------------------------------------------------------------

  predicate IsSuffix(suffix: string) {
    |suffix| == 8
    && forall i | 0 <= i < 8 :: '0' <= suffix[i] <= '9' || 'A' <= suffix[i] <= 'Z' || 'a' <= suffix[i] <= 'z'
  }

  /** How the helper script starts the import: `user` comes from the container's environment. */
  function HelperCommand(dataset: string, suffix: string, user: string): seq<string>
    requires dataset in ARCHIVE_NAMES
  {
    var directory := PRIVATE_PREFIX + suffix;
    ["python", "manage.py", "import_fcc_archive", directory + "/" + ARCHIVE_NAMES[dataset],
     "--dataset", dataset, "--source-url", "https://data.fcc.gov/", "--username", user, "--apply",
     "--work-dir", directory, ""]
  }

  lemma IndexIs(args: seq<string>, wanted: string, i: nat)
    requires i < |args| && args[i] == wanted && wanted !in args[..i]
    ensures wanted in args && IndexOf(args, wanted) == i
  {
    var j := IndexOf(args, wanted);
    assert j == i;
  }

  lemma {:induction false} PlainComponent(text: string, part: string)
    requires '/' !in text && '/' !in part
    ensures ComponentsFrom(text, part) == if part + text == "" || part + text == "." then [] else [part + text]
    decreases |text|
  {
    if text == [] {
      assert part + text == part;
    } else {
      PlainComponent(text[1..], part + [text[0]]);
      assert part + [text[0]] + text[1..] == part + text;
    }
  }

  lemma {:induction false} ComponentsSplit(a: string, b: string, part: string)
    requires '/' !in part
    ensures ComponentsFrom(a + "/" + b, part) == ComponentsFrom(a, part) + Components(b)
    decreases |a|
  {
    if a == [] {
      assert (a + "/" + b)[1..] == b;
    } else {
      assert (a + "/" + b)[1..] == a[1..] + "/" + b;
      if a[0] == '/' {
        ComponentsSplit(a[1..], b, "");
      } else {
        ComponentsSplit(a[1..], b, part + [a[0]]);
      }
    }
  }

  lemma PrivateDirectoryComponents(suffix: string)
    requires IsSuffix(suffix)
    ensures Components(PRIVATE_PREFIX + suffix) == ["tmp", "ict-fcc-" + suffix]
  {
    var leaf := "ict-fcc-" + suffix;
    assert PRIVATE_PREFIX + suffix == "" + "/" + ("tmp" + "/" + leaf);
    ComponentsSplit("", "tmp" + "/" + leaf, "");
    ComponentsSplit("tmp", leaf, "");
    PlainComponent("tmp", "");
    PlainComponent(leaf, "");
    assert "" + "tmp" == "tmp" && "" + leaf == leaf;
  }

  lemma ArchiveNamesArePlain(dataset: string)
    requires dataset in ARCHIVE_NAMES
    ensures Components(ARCHIVE_NAMES[dataset]) == [ARCHIVE_NAMES[dataset]]
  {
    PlainComponent(ARCHIVE_NAMES[dataset], "");
    assert "" + ARCHIVE_NAMES[dataset] == ARCHIVE_NAMES[dataset];
  }

  lemma HelperDatasetFlag(dataset: string, suffix: string, user: string)
    requires dataset in ARCHIVE_NAMES && IsSuffix(suffix)
    ensures var args := HelperCommand(dataset, suffix, user);
            "--dataset" in args && IndexOf(args, "--dataset") == 4
  {
    var args := HelperCommand(dataset, suffix, user);
    assert args[3][0] == '/' && args[4] == "--dataset";
    IndexIs(args, "--dataset", 4);
  }

  lemma HelperDirectoryFlag(dataset: string, suffix: string, user: string)
    requires dataset in ARCHIVE_NAMES && IsSuffix(suffix)
    ensures var args := HelperCommand(dataset, suffix, user);
            "--work-dir" in args && IndexOf(args, "--work-dir") == if user == "--work-dir" then 9 else 11
  {
    var args := HelperCommand(dataset, suffix, user);
    assert args[3][0] == '/';
    IndexIs(args, "--work-dir", if user == "--work-dir" then 9 else 11);
  }

  lemma HelperPaths(dataset: string, suffix: string)
    requires dataset in ARCHIVE_NAMES && IsSuffix(suffix)
    ensures var directory := PRIVATE_PREFIX + suffix;
            && IsPrivateDirectory(directory)
            && HasParent(directory + "/" + ARCHIVE_NAMES[dataset], directory)
            && Name(directory + "/" + ARCHIVE_NAMES[dataset]) == ARCHIVE_NAMES[dataset]
  {
    var directory := PRIVATE_PREFIX + suffix;
    var path := directory + "/" + ARCHIVE_NAMES[dataset];
    PrivateDirectoryComponents(suffix);
    ComponentsSplit(directory, ARCHIVE_NAMES[dataset], "");
    ArchiveNamesArePlain(dataset);
    assert Components(path) == ["tmp", "ict-fcc-" + suffix, ARCHIVE_NAMES[dataset]];
    assert Components(path)[..2] == Components(directory);
    assert path[0] == '/' && path[1] == 't';
  }

  lemma ProgramNames()
    ensures Name("python") == "python" && Name("manage.py") == "manage.py"
  {
    PlainComponent("python", "");
    PlainComponent("manage.py", "");
    assert "" + "python" == "python" && "" + "manage.py" == "manage.py";
  }

  /**
   The controller recognises the import the helper starts, exactly when the user name is not itself
   the text of the directory flag: then the first occurrence of that flag is the wrong one, and the
   process is counted as unknown.
   */
  lemma HelperImportIsRecognised(dataset: string, suffix: string, user: string)
    requires dataset in ARCHIVE_NAMES && IsSuffix(suffix)
    ensures Classify(HelperCommand(dataset, suffix, user)) ==
            if user == "--work-dir" then UnknownImport else Import(dataset)
  {
    var args := HelperCommand(dataset, suffix, user);
    HelperDatasetFlag(dataset, suffix, user);
    HelperDirectoryFlag(dataset, suffix, user);
    HelperPaths(dataset, suffix);
    ProgramNames();
    assert RunsImport(args) && args[5] == dataset;
    if user == "--work-dir" {
      assert args[10] == "--apply" && !IsPrivateDirectory("--apply");
    } else {
      assert args[12] == PRIVATE_PREFIX + suffix;
    }
  }

  /** The program name starts with "python", and it is told to import an archive. */
  ghost predicate StartsImport(args: seq<string>) {
    |args| >= 4 && "python" <= Name(args[0]) && Name(args[1]) == "manage.py" && args[2] == "import_fcc_archive"
  }

  ghost predicate FirstAt(args: seq<string>, wanted: string, i: nat) {
    i < |args| && args[i] == wanted && wanted !in args[..i]
  }

  ghost predicate IsArchiveOf(name: string, dataset: string) {
    || (dataset == "asr" && name == "r_tower.zip")
    || (dataset == "uls_commercial" && name == "l_LMcomm.zip")
    || (dataset == "uls_private" && name == "l_LMpriv.zip")
  }

  /** An absolute path into this private directory; POSIX reads two leading slashes as another root than one or three. */
  ghost predicate IsInside(archive: string, suffix: string, name: string) {
    && Components(archive) == ["tmp", "ict-fcc-" + suffix, name]
    && "/" <= archive && ("//" <= archive ==> "///" <= archive)
  }

  /** The archive is the dataset's own, in the private directory that is named. */
  ghost predicate IsOwn(archive: string, dataset: string, directory: string) {
    exists suffix, name | IsSuffix(suffix) && IsArchiveOf(name, dataset) ::
      directory == "/tmp/ict-fcc-" + suffix && IsInside(archive, suffix, name)
  }

  /**
   What every command line is taken for. One that does not start an import is passed over; so is one
   that ends with a flag. An import without one of the two flags, or of anything but its dataset's own
   archive in the private directory that it names, is an import nobody accounts for.
   */
  lemma ClassifiedExactly(args: seq<string>)
    ensures !StartsImport(args) ==> Classify(args) == Unrelated
    ensures StartsImport(args) && ("--dataset" !in args || "--work-dir" !in args) ==> Classify(args) == UnknownImport
    ensures forall d: nat, w: nat | StartsImport(args) && FirstAt(args, "--dataset", d) && FirstAt(args, "--work-dir", w) ::
              if d + 1 == |args| || w + 1 == |args| then Classify(args) == Unrelated
              else if IsOwn(args[3], args[d + 1], args[w + 1]) then Classify(args) == Import(args[d + 1])
              else Classify(args) == UnknownImport
  {
    forall d: nat, w: nat | StartsImport(args) && FirstAt(args, "--dataset", d) && FirstAt(args, "--work-dir", w)
      ensures if d + 1 == |args| || w + 1 == |args| then Classify(args) == Unrelated
              else if IsOwn(args[3], args[d + 1], args[w + 1]) then Classify(args) == Import(args[d + 1])
              else Classify(args) == UnknownImport
    {
      IndexIs(args, "--dataset", d);
      IndexIs(args, "--work-dir", w);
      if d + 1 < |args| && w + 1 < |args| {
        OwnExactly(args[3], args[d + 1], args[w + 1]);
      }
    }
  }

  lemma ArchiveIsOf(name: string, dataset: string)
    ensures dataset in ARCHIVE_NAMES && name == ARCHIVE_NAMES[dataset] <==> IsArchiveOf(name, dataset)
  {
  }

  lemma SuffixOf(directory: string) returns (suffix: string)
    requires IsPrivateDirectory(directory)
    ensures IsSuffix(suffix) && directory == "/tmp/ict-fcc-" + suffix
  {
    suffix := directory[|PRIVATE_PREFIX|..];
    assert forall i | 0 <= i < 8 :: suffix[i] == directory[|PRIVATE_PREFIX| + i];
  }

  lemma SuffixIsPrivate(suffix: string)
    requires IsSuffix(suffix)
    ensures IsPrivateDirectory("/tmp/ict-fcc-" + suffix)
  {
    var directory := "/tmp/ict-fcc-" + suffix;
    forall i | |PRIVATE_PREFIX| <= i < |directory| ensures IsAlphanumeric(directory[i]) {
      assert directory[i] == suffix[i - |PRIVATE_PREFIX|];
    }
  }

  lemma InsideExactly(archive: string, suffix: string, name: string)
    requires IsSuffix(suffix)
    ensures HasParent(archive, "/tmp/ict-fcc-" + suffix) && Name(archive) == name <==> IsInside(archive, suffix, name)
  {
    var parts := Components(archive);
    PrivateDirectoryComponents(suffix);
    if parts != [] {
      assert parts == parts[..|parts| - 1] + [parts[|parts| - 1]];
    }
  }

  lemma OwnExactly(archive: string, dataset: string, directory: string)
    ensures OwnArchive(archive, dataset, directory) <==> IsOwn(archive, dataset, directory)
  {
    if OwnArchive(archive, dataset, directory) {
      var suffix := SuffixOf(directory);
      ArchiveIsOf(Name(archive), dataset);
      InsideExactly(archive, suffix, Name(archive));
    }
    if IsOwn(archive, dataset, directory) {
      var suffix, name :| IsSuffix(suffix) && IsArchiveOf(name, dataset)
                          && directory == "/tmp/ict-fcc-" + suffix && IsInside(archive, suffix, name);
      SuffixIsPrivate(suffix);
      ArchiveIsOf(name, dataset);
      InsideExactly(archive, suffix, name);
    }
  }

  /** So a recognised import reads its dataset's archive inside a private directory. */
  lemma RecognisedImportIsPrivate(args: seq<string>)
    requires Classify(args).Import?
    ensures exists suffix, name | IsSuffix(suffix) && IsArchiveOf(name, Classify(args).dataset) ::
              "/tmp/ict-fcc-" + suffix in args && Components(args[3]) == ["tmp", "ict-fcc-" + suffix, name]
  {
    var dataset, directory := Classify(args).dataset, args[IndexOf(args, "--work-dir") + 1];
    OwnExactly(args[3], dataset, directory);
    var suffix, name :| IsSuffix(suffix) && IsArchiveOf(name, dataset)
                        && directory == "/tmp/ict-fcc-" + suffix && IsInside(args[3], suffix, name);
    assert directory in args;
  }
}
