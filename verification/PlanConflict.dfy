/**
 The plan workspace of one user against the collaboration server: sending a change, resolving a
 conflict, and moving rows. Any number of steps of other users happen between any two steps of this
 one, and every request can fail before or after the server worked on it.
 */
module PlanConflict {
  import opened Basics
  import opened CollaborationServer

  // ---------------------------------------------------------------------------------------------
  // What the user is shown of a proposal
  // ---------------------------------------------------------------------------------------------

  datatype Visibility = Visible | Omitted | Masked

  type View = string -> Visibility

  const MASK := Text("Access restricted")

  predicate IsRowKind(kind: Kind) {
    !kind.RevisionUpdate?
  }

  /** The fields of the proposal; for row operations some may be left out or masked. */
  function Shown(view: View, p: Payload): Fields {
    map f | f in p.changes && (IsRowKind(p.kind) ==> !view(f).Omitted?) ::
      if IsRowKind(p.kind) && view(f).Masked? then MASK else p.changes[f]
  }

  /** The shown values of the chosen fields. */
  function Chosen(fields: seq<string>, shown: Fields): Fields {
    map f | f in fields && f in shown :: shown[f]
  }

  /**
   What is applied are the chosen fields of the retained proposal, but for those that are left out for
   this user; and they have the proposed values exactly as long as no chosen field is masked: a mask
   would be sent in place of the value.
   */
  lemma AppliedValuesAreTheProposal(view: View, p: Payload, fields: seq<string>)
    ensures var sent := Chosen(fields, Shown(view, p));
            && (forall f :: f in sent <==>
                  f in fields && f in p.changes && (p.kind != RevisionUpdate ==> view(f) != Omitted))
            && (forall f | f in sent :: sent[f] ==
                  if p.kind != RevisionUpdate && view(f) == Masked then Text("Access restricted") else p.changes[f])
            && ((forall f | f in sent :: sent[f] == p.changes[f]) <==>
                  forall f | f in fields && f in p.changes && p.changes[f] != MASK :: !(IsRowKind(p.kind) && view(f).Masked?))
  {
    var shown := Shown(view, p);
    var sent := Chosen(fields, shown);
    forall f | f in fields && f in p.changes && p.changes[f] != MASK && IsRowKind(p.kind) && view(f).Masked?
      ensures f in sent && sent[f] != p.changes[f]
    {
      assert f in shown;
    }
  }

  /** A deletion proposes no fields, so its conflict can only be discarded. */
  lemma DeletionCannotBeReapplied(view: View, p: Payload, fields: seq<string>)
    requires p.changes == map[]
    ensures Chosen(fields, Shown(view, p)) == map[]
  {
    assert forall f :: f !in Shown(view, p);
  }

  // ---------------------------------------------------------------------------------------------
  // Moving rows
  // ---------------------------------------------------------------------------------------------

  /** Nothing to do, an exception because the row is not there any more, or the new order. */
  datatype Move = NotMoved | Threw | Moved(order: seq<Id>)

  /** The first place of the row, or -1. */
  function IndexOf(ids: seq<Id>, row: Id): (index: int)
    ensures if index == -1 then row !in ids else 0 <= index < |ids| && ids[index] == row && row !in ids[..index]
  {
    if ids == [] then -1
    else if ids[0] == row then 0
    else
      var rest := IndexOf(ids[1..], row);
      assert ids == [ids[0]] + ids[1..];
      assert rest >= 0 ==> ids[..rest + 1] == [ids[0]] + ids[1..][..rest];
      if rest == -1 then -1 else rest + 1
  }

  function Swapped(ids: seq<Id>, i: nat, j: nat): seq<Id>
    requires i < |ids| && j < |ids|
  {
    ids[i := ids[j]][j := ids[i]]
  }

  function MoveOf(ids: seq<Id>, row: Id, offset: int): Move {
    var index := IndexOf(ids, row);
    if !(0 <= index + offset < |ids|) then NotMoved
    else if index == -1 then Threw
    else Moved(Swapped(ids, index, index + offset))
  }

  lemma {:induction false} FirstIsIndex(ids: seq<Id>, row: Id, k: nat)
    requires k < |ids| && ids[k] == row && row !in ids[..k]
    ensures IndexOf(ids, row) == k
  {
    if k > 0 {
      assert ids[..k][0] == ids[0] && ids[..k][1..] == ids[1..][..k - 1];
      FirstIsIndex(ids[1..], row, k - 1);
    }
  }

  /** Copies the rows, looks for the row, and swaps in place. */
  method Reorder(ids: seq<Id>, row: Id, offset: int) returns (r: Move)
    ensures r == MoveOf(ids, row, offset)
  {
    var rows := new Id[|ids|](i requires 0 <= i < |ids| => ids[i]);
    var found := 0;
    while found < rows.Length && rows[found] != row
      invariant found <= rows.Length && rows[..] == ids && row !in ids[..found]
    {
      found := found + 1;
    }
    var at := if found == rows.Length then -1 else found;
    if found < |ids| {
      FirstIsIndex(ids, row, found);
    }
    var target := at + offset;
    if target < 0 || target >= rows.Length {
      return NotMoved;
    }
    if at < 0 {
      return Threw;
    }
    rows[at], rows[target] := rows[target], rows[at];
    assert rows[..] == Swapped(ids, at, target);
    r := Moved(rows[..]);
  }

  /**
   What a move does, on the places of the rows: the row, at its first place, changes places with the one
   `offset` further on. Without such a place nothing happens; a row that is not there raises an exception
   only if the place is one when counted from -1.
   */
  lemma MoveExactly(ids: seq<Id>, row: Id, offset: int, k: int)
    requires if row in ids then 0 <= k < |ids| && ids[k] == row && row !in ids[..k] else k == -1
    ensures var move := MoveOf(ids, row, offset);
            && (move.NotMoved? <==> k + offset < 0 || |ids| <= k + offset)
            && (move.Threw? <==> row !in ids && 1 <= offset <= |ids|)
            && (move.Moved? ==>
                  && row in ids && |move.order| == |ids|
                  && move.order[k + offset] == row && move.order[k] == ids[k + offset]
                  && forall i | 0 <= i < |ids| && i != k && i != k + offset :: move.order[i] == ids[i])
  {
    if row in ids {
      FirstIsIndex(ids, row, k);
    }
  }

  lemma SwapIsPermutation(ids: seq<Id>, i: nat, j: nat)
    requires i < |ids| && j < |ids|
    ensures multiset(Swapped(ids, i, j)) == multiset(ids)
  {
  }

  /** A move keeps the rows, and the opposite move of the same row takes it back. */
  lemma MoveIsUndone(ids: seq<Id>, row: Id, offset: int)
    requires Distinct(ids) && MoveOf(ids, row, offset).Moved?
    ensures multiset(MoveOf(ids, row, offset).order) == multiset(ids)
    ensures MoveOf(MoveOf(ids, row, offset).order, row, -offset) == Moved(ids)
  {
    var i := IndexOf(ids, row);
    var there := MoveOf(ids, row, offset).order;
    SwapIsPermutation(ids, i, i + offset);
    assert there[i + offset] == row;
    assert forall k | 0 <= k < |ids| && k != i + offset :: there[k] != row;
    assert Swapped(there, i + offset, i) == ids;
  }

  /** The order after several moves, each on the outcome of the one before. */
  function AfterMoves(ids: seq<Id>, moves: seq<(Id, int)>): seq<Id> {
    if moves == [] then ids
    else
      var before := AfterMoves(ids, moves[..|moves| - 1]);
      var move := MoveOf(before, moves[|moves| - 1].0, moves[|moves| - 1].1);
      if move.Moved? then move.order else before
  }

  /** Moves that no row can make leave the rows as they are; any other one is made, behind those before it. */
  lemma OneMoreMove(ids: seq<Id>, moves: seq<(Id, int)>, row: Id, offset: int)
    ensures var before, after := AfterMoves(ids, moves), AfterMoves(ids, moves + [(row, offset)]);
            if MoveOf(before, row, offset).Moved? then MoveOf(before, row, offset) == Moved(after) else after == before
  {
    assert (moves + [(row, offset)])[..|moves|] == moves;
  }

  lemma {:induction false} MovesPermute(ids: seq<Id>, moves: seq<(Id, int)>)
    ensures multiset(AfterMoves(ids, moves)) == multiset(ids)
  {
    if moves != [] {
      var before := AfterMoves(ids, moves[..|moves| - 1]);
      MovesPermute(ids, moves[..|moves| - 1]);
      var (row, offset) := moves[|moves| - 1];
      if MoveOf(before, row, offset).Moved? {
        SwapIsPermutation(before, IndexOf(before, row), IndexOf(before, row) + offset);
      }
    }
  }

  /** A saved order of rows is the one that was sent, and has the same rows as before. */
  lemma SavedOrderIsThePermutation(s: Server, actor: User, p: Payload, choice: Choice)
    requires Records(s) && choice.newId !in s.used && WellFormed(p) && Find(s.changes, p.key).None? && p.kind.AssignmentReorder?
    ensures var next := Mutate(s, actor, p, choice).0;
            if next.changes[|s.changes|].disposition.Saved? then
              && p.changes.Keys == {ORDER_FIELD} && p.changes[ORDER_FIELD] == Ids(next.order)
              && Distinct(next.order) && Elements(next.order) == Elements(s.order) && next.rows == s.rows
            else next.order == s.order && next.rows == s.rows
  {
  }

  // ---------------------------------------------------------------------------------------------
  // A replacement and what it replaces
  // ---------------------------------------------------------------------------------------------

  /** The payload aims at the same record as the shown change, at the version the shown snapshot has. */
  predicate AimsAt(p: Payload, shown: Change) {
    && p.kind == shown.payload.kind && p.row == shown.payload.row
    && shown.snapshot.Some? && p.base == shown.snapshot.value.version
  }

  /**
   A replacement that is saved, however much later, replaces exactly the values that were shown: not
   only the version but the whole record is the one in the shown snapshot. That needs the versions in
   order, as every history keeps them whose direct saves are current.
   */
  lemma ReplacesWhatWasShown(s: Server, shown: nat, actor: User, p: Payload, choice: Choice)
    requires Records(s) && Versions(s) && shown < |s.changes| && AimsAt(p, s.changes[shown])
    requires choice.newId !in s.used && WellFormed(p) && Find(s.changes, p.key).None?
    ensures var next := Mutate(s, actor, p, choice).0;
            next.changes[|s.changes|].disposition.Saved? ==> Current(s, Target(p)) == s.changes[shown].snapshot
  {
    assert ChangeSound(s, s.changes[shown]);
  }

  lemma LateUpdateIsClash(v: Server, key: nat, id: Id, base: nat, changes: Fields, choice: Choice)
    requires CanUpdate(v, key, id, choice) && 1 <= base < v.rows[id].version
    ensures Judge(v, Update(key, id, base, changes), choice) == Clash
  {
  }

  lemma LateUpdateIsRetained(v: Server, actor: User, key: nat, id: Id, base: nat, changes: Fields, choice: Choice)
    requires CanUpdate(v, key, id, choice) && 1 <= base < v.rows[id].version
    ensures var p := Update(key, id, base, changes);
            Step(v, Sent(actor, p, choice)) == v.(changes := v.changes + [RecordOf(v, actor, p, Conflict)])
  {
    LateUpdateIsClash(v, key, id, base, changes, choice);
  }

  lemma LateUpdateClashes(
      s: Server, front: seq<Event>, actor: User, key: nat, id: Id, base: nat, changes: Fields, choice: Choice)
    requires CanUpdate(Run(s, front), key, id, choice) && 1 <= base < Run(s, front).rows[id].version
    ensures var v := Run(s, front);
            var p := Update(key, id, base, changes);
            Run(s, front + [Sent(actor, p, choice)]) == v.(changes := v.changes + [RecordOf(v, actor, p, Conflict)])
  {
    RunOneMore(s, front, Sent(actor, Update(key, id, base, changes), choice));
    LateUpdateIsRetained(Run(s, front), actor, key, id, base, changes, choice);
  }

  /** A conflict was shown at version n + 1, and then a direct save that was loaded at version n brings that version back. */
  function Hiding(k: nat, id: Id, n: nat, late: Fields, actor: User, changes: Fields, choice: Choice): seq<Event> {
    [Load(k, EditRow(id, late))] + [Sent(actor, Update(0, id, n, changes), choice)]
    + [Sent(actor, Update(1, id, n, changes), choice)] + [Store(k, 0)]
  }

  /**
   With a stale direct save it can replace values that were not shown: the replacement aims at the version of
   the shown snapshot, and is saved, but the row holds what the direct edit wrote.
   */
  lemma StaleSaveHidesFromTheReplacement(s: Server, k: nat, id: Id, late: Fields, actor: User, changes: Fields, choice: Choice)
    requires IsFresh(s) && CanUpdate(s, 0, id, choice) && s.rows[id].fields + changes != s.rows[id].fields + late
    ensures var n := s.rows[id].version;
            var v := Run(s, Hiding(k, id, n, late, actor, changes, choice));
            && |v.changes| == 2 && v.changes[1].disposition.Conflict?
            && var p := Update(2, id, n + 1, changes);
            && AimsAt(p, v.changes[1]) && Judge(v, p, choice).Save? && Current(v, Target(p)) != v.changes[1].snapshot
  {
    var n := s.rows[id].version;
    var loaded := [Load(k, EditRow(id, late))];
    var once := loaded + [Sent(actor, Update(0, id, n, changes), choice)];
    LoadGoesOn(s, k, id, late);
    UpdateGoesOn(s, loaded, actor, 0, id, changes, choice);
    LateUpdateClashes(s, once, actor, 1, id, n, changes, choice);
    StoreGoesOn(s, once + [Sent(actor, Update(1, id, n, changes), choice)], k, id, late);
  }

  /** A rejected change is never resolved, whatever happens after. */
  lemma {:induction false} RejectedIsNeverResolved(s: Server, k: nat, events: seq<Event>)
    requires Records(s) && k < |s.changes| && !s.changes[k].disposition.Conflict?
    ensures k !in Run(s, events).resolutions
  {
    HistoryKeepsRecords(s, events);
    var v := Run(s, events);
    assert v.changes[k] == s.changes[k];
    assert k in v.resolutions ==> ResolutionSound(v, k, v.resolutions[k]);
  }

  // ---------------------------------------------------------------------------------------------
  // The workspace
  // ---------------------------------------------------------------------------------------------

  /** A request with what came back; a request without an answer may have been worked on all the same. */
  datatype Request =
    | Mutation(payload: Payload, answer: Option<nat>)
    | Settling(conflict: nat, decision: Decision, replacement: Option<nat>, done: bool)

  /** What the workspace says at the end of a resolution. */
  datatype Report = Idle | NoVersion | NoFields | NotConfirmed | Failed | Again | Resolved

  /** Change k was made by this user with this payload. */
  predicate Retained(s: Server, k: nat, actor: User, p: Payload) {
    k < |s.changes| && s.changes[k].payload == p && s.changes[k].actor == actor
  }

  /**
   Change k is such a change, and it was saved over the version in the shown snapshot; if every direct save
   is current, over exactly the record in it.
   */
  predicate Replaced(s: Server, k: nat, actor: User, p: Payload, shown: Change, current: bool) {
    && Retained(s, k, actor, p) && s.changes[k].disposition.Saved?
    && s.changes[k].snapshot.Some? && shown.snapshot.Some?
      && s.changes[k].snapshot.value.version == shown.snapshot.value.version
    && (current ==> s.changes[k].snapshot == shown.snapshot)
  }

  /** Change k is the answer to a mutation that the server worked on in the state `seen`. */
  predicate Answers(seen: Server, s: Server, k: nat, actor: User, p: Payload) {
    && k >= |seen.changes| && Retained(s, k, actor, p)
    && (s.changes[k].disposition.Saved? ==> !seen.locked && s.changes[k].snapshot == Current(seen, Target(p)))
  }

  lemma MutationIsAnswered(seen: Server, actor: User, p: Payload, choice: Choice)
    requires Records(seen) && choice.newId !in seen.used && Find(seen.changes, p.key).None?
    ensures var (next, answer) := Mutate(seen, actor, p, choice);
            && Records(next) && Later(seen, next) && (Versions(seen) ==> Versions(next))
            && (answer.Some? ==> Answers(seen, next, answer.value, actor, p))
  {
    MutateKeepsRecords(seen, actor, p, choice);
    if Versions(seen) {
      MutateKeepsVersions(seen, actor, p, choice);
    }
  }

  lemma SavedOverWhatWasShown(seen: Server, shown: Change, c: Change)
    requires ChangeSound(seen, shown) && AimsAt(c.payload, shown)
    requires c.disposition.Saved? && !seen.locked && c.snapshot == Current(seen, Target(c.payload))
    requires c.snapshot.Some? && c.snapshot.value.version == c.payload.base
    ensures c.snapshot == shown.snapshot
  {
  }

  lemma SavedIsReplaced(before: Server, seen: Server, s: Server, conflict: nat, k: nat, actor: User, p: Payload, current: bool)
    requires Grown(before, seen) && Records(s) && conflict < |before.changes| && (current ==> Versions(seen))
    requires Answers(seen, s, k, actor, p) && s.changes[k].disposition.Saved? && AimsAt(p, before.changes[conflict])
    ensures Replaced(s, k, actor, p, before.changes[conflict], current)
  {
    assert Recorded(s.changes[k]);
    if current {
      assert ChangeSound(seen, seen.changes[conflict]);
      SavedOverWhatWasShown(seen, before.changes[conflict], s.changes[k]);
    }
  }

  lemma AnswerStays(seen: Server, s: Server, v: Server, answer: Option<nat>, actor: User, p: Payload)
    requires Grown(s, v) && (answer.Some? ==> Answers(seen, s, answer.value, actor, p))
    ensures answer.Some? ==> Answers(seen, v, answer.value, actor, p)
  {
  }

  lemma RetainedStays(s: Server, v: Server, k: nat)
    requires Grown(s, v) && k < |s.changes|
    ensures k < |v.changes| && v.changes[k] == s.changes[k]
  {
  }

  /**
   What a stretch of time does to the server: nothing retained is lost, and if every direct save is
   current, all goes onward.
   */
  ghost predicate Went(current: bool, s: Server, v: Server) {
    Grown(s, v) && (current ==> Later(s, v))
  }

  lemma WentOn(current: bool, s: Server, u: Server, v: Server)
    requires Went(current, s, u) && Went(current, u, v)
    ensures Went(current, s, v)
  {
    if current {
      LaterComposes(s, u, v);
    }
  }

  lemma StandsStill(current: bool, s: Server)
    ensures Went(current, s, s)
  {
    LaterIsReflexive(s);
  }

  lemma ResolvingGoesOn(current: bool, s: Server, i: nat, r: Resolution)
    requires Records(s) && (current ==> Versions(s))
    ensures var v := Resolve(s, i, r); Records(v) && (current ==> Versions(v)) && Went(current, s, v)
  {
    ResolveKeepsRecords(s, i, r);
    if current {
      ResolveKeepsVersions(s, i, r);
    }
  }

  /** The reasons to send nothing, in the order they are looked for. */
  function Hindrance(view: View, shown: Change, decision: Decision, fields: seq<string>, confirmed: bool): Option<Report> {
    if shown.snapshot.None? || shown.snapshot.value.version < 1 then Some(NoVersion)
    else if Chosen(fields, Shown(view, shown.payload)) == map[] then Some(NoFields)
    else if decision.Replace? && !confirmed then Some(NotConfirmed)
    else None
  }

  class Workspace {
    var server: Server
    const me: User
    const device: nat
    const view: View
    /** Whether every direct save of anybody is current. */
    const current: bool
    var active: Option<nat>
    ghost var requests: seq<Request>

    ghost predicate Valid()
      reads this
    {
      Records(server) && (current ==> Versions(server)) && (active.Some? ==> active.value < |server.changes|)
    }

    constructor (server: Server, me: User, device: nat, view: View, current: bool)
      requires Records(server) && (current ==> Versions(server))
      ensures Valid() && this.server == server && this.me == me && this.view == view && this.current == current
      ensures active.None? && requests == []
    {
      this.server, this.me, this.device, this.view, this.current := server, me, device, view, current;
      active, requests := None, [];
    }

    /** Any number of steps of everybody else. */
    method Interfere()
      requires Valid()
      modifies this`server
      ensures Valid() && Went(current, old(server), server)
    {
      StandsStill(current, server);
      var steps: nat := *;
      while steps > 0
        invariant Valid() && Went(current, old(server), server)
      {
        var e: Event := *;
        StepKeepsRecords(server, e);
        if !current || IsCurrentStep(server, e) {
          if current {
            StepIsOnwardExactly(server, e);
            StepKeepsVersions(server, e);
          }
          WentOn(current, old(server), server, Step(server, e));
          server := Step(server, e);
        }
        steps := steps - 1;
      }
    }

    /** An identifier that was never used: here, one more than the largest. */
    method NewKey() returns (key: nat)
      ensures forall i | 0 <= i < |server.changes| :: server.changes[i].payload.key != key
    {
      key := 0;
      for i := 0 to |server.changes|
        invariant forall k | 0 <= k < i :: server.changes[k].payload.key < key
      {
        key := Max(key, server.changes[i].payload.key + 1);
      }
    }

    /** The mutation gets to the server, or is lost on the way. */
    method Deliver(p: Payload) returns (answer: Option<nat>)
      requires Valid() && Find(server.changes, p.key).None?
      modifies this`server
      ensures Valid() && Went(current, old(server), server)
      ensures answer.Some? ==> Answers(old(server), server, answer.value, me, p)
    {
      StandsStill(current, server);
      answer := None;
      var choice: Choice := *;
      var arrives: bool := *;
      if arrives && choice.newId !in server.used {
        MutationIsAnswered(server, me, p, choice);
        var (next, index) := Mutate(server, me, p, choice);
        server, answer := next, index;
      }
    }

    /** Sends a mutation under a new key. `seen` is the server when it worked on it, if it ever did. */
    method Send(kind: Kind, row: Option<Id>, base: nat, changes: Fields)
      returns (answer: Option<nat>, ghost p: Payload, ghost seen: Server)
      requires Valid()
      modifies this`server, this`requests
      ensures Valid() && Went(current, old(server), seen) && Records(seen) && (current ==> Versions(seen))
              && Went(current, seen, server) && Went(current, old(server), server)
      ensures p == Payload(p.key, device, kind, row, base, changes) && requests == old(requests) + [Mutation(p, answer)]
      ensures answer.Some? ==> Answers(seen, server, answer.value, me, p)
    {
      Interfere();
      var key := NewKey();
      var payload := Payload(key, device, kind, row, base, changes);
      p, seen := payload, server;
      answer := Deliver(payload);
      label worked:
      Interfere();
      AnswerStays(seen, old@worked(server), server, answer, me, payload);
      WentOn(current, seen, old@worked(server), server);
      WentOn(current, old(server), seen, server);
      var answered: bool := *;
      if !answered {
        answer := None;
      }
      requests := requests + [Mutation(p, answer)];
    }

    /** Asks to resolve the conflict; it is done when the server says so. */
    method AskToResolve(conflict: nat, decision: Decision, replacement: Option<nat>) returns (done: bool)
      requires Valid() && conflict < |server.changes|
      modifies this`server, this`requests
      ensures Valid() && Went(current, old(server), server)
      ensures requests == old(requests) + [Settling(conflict, decision, replacement, done)]
      ensures done ==> conflict in server.resolutions && server.resolutions[conflict] == Resolution(decision, me, replacement)
      ensures done ==> server.changes[conflict].disposition.Conflict?
    {
      Interfere();
      label asked:
      done := *;
      var r := Resolution(decision, me, replacement);
      var possible := CanResolve(server, conflict, r);
      if done {
        ResolvingGoesOn(current, server, conflict, r);
        server := Resolve(server, conflict, r);
        WentOn(current, old(server), old@asked(server), server);
      }
      done := done && possible;
      label resolved:
      Interfere();
      WentOn(current, old(server), old@resolved(server), server);
      var answered: bool := *;
      done := done && answered;
      requests := requests + [Settling(conflict, decision, replacement, done)];
    }

    /** Keeps the saved values: the conflict goes away only if the server accepted that it is discarded. */
    method DiscardConflict() returns (r: Report)
      requires Valid()
      modifies this
      ensures Valid() && Went(current, old(server), server) && r in {Idle, Resolved, Failed}
      ensures old(active).None? ==> r == Idle && requests == old(requests) && active.None?
      ensures old(active).Some? ==>
                && requests == old(requests) + [Settling(old(active).value, Discard, None, r.Resolved?)]
                && active == (if r.Resolved? then None else old(active))
                && (r.Resolved? ==>
                      && old(active).value in server.resolutions
                      && server.resolutions[old(active).value] == Resolution(Discard, me, None))
                && (!server.changes[old(active).value].disposition.Conflict? ==> r.Failed?)
    {
      if active.None? {
        StandsStill(current, server);
        return Idle;
      }
      var done := AskToResolve(active.value, Discard, None);
      if !done {
        return Failed;
      }
      active := None;
      r := Resolved;
    }

    /**
     Applies proposed values to the record as it was shown. At most one mutation is sent, at the shown
     version and with the chosen shown values. The conflict counts as resolved only by a change of this
     user that the server saved over exactly the shown record; a replacement that was not saved, for
     whatever reason, takes the place of the conflict.
     */
    method ApplyConflictValues(decision: Decision, fields: seq<string>, confirmed: bool)
      returns (r: Report, ghost p: Payload, ghost k: nat)
      requires Valid() && !decision.Discard?
      modifies this
      ensures Valid() && Went(current, old(server), server)
      ensures r == Idle <==> old(active).None?
      ensures r == Idle ==> active.None? && requests == old(requests)
      ensures old(active).Some? ==>
                var shown := old(server).changes[old(active).value];
                var hindrance := Hindrance(view, shown, decision, fields, confirmed);
                if hindrance.Some? then r == hindrance.value && requests == old(requests) && active == old(active)
                else
                  && p == Payload(p.key, device, shown.payload.kind, shown.payload.row, shown.snapshot.value.version,
                                  Chosen(fields, Shown(view, shown.payload)))
                  && AppliedAs(r, p, k, old(active).value, shown, decision, old(requests))
    {
      k, p := 0, Payload(0, 0, RevisionUpdate, None, 0, map[]);
      if active.None? {
        StandsStill(current, server);
        return Idle, p, k;
      }
      var conflict := active.value;
      var shown := server.changes[conflict];
      var changes := Chosen(fields, Shown(view, shown.payload));
      var hindrance := Hindrance(view, shown, decision, fields, confirmed);
      if hindrance.Some? {
        StandsStill(current, server);
        return hindrance.value, p, k;
      }
      r, p, k := SendReplacement(conflict, decision, changes);
    }

    /** Sends the values to the record at its shown version, and settles the conflict if they were saved. */
    method SendReplacement(conflict: nat, decision: Decision, changes: Fields)
      returns (r: Report, ghost p: Payload, ghost k: nat)
      requires Valid() && active == Some(conflict) && server.changes[conflict].snapshot.Some?
      modifies this
      ensures Valid() && Went(current, old(server), server)
      ensures var shown := old(server).changes[conflict];
              && p == Payload(p.key, device, shown.payload.kind, shown.payload.row, shown.snapshot.value.version, changes)
              && AppliedAs(r, p, k, conflict, shown, decision, old(requests))
    {
      k := 0;
      var shown := server.changes[conflict];
      var answer;
      ghost var seen;
      answer, p, seen := Send(shown.payload.kind, shown.payload.row, shown.snapshot.value.version, changes);
      if answer.None? {
        return Failed, p, k;
      }
      k := answer.value;
      if !server.changes[answer.value].disposition.Saved? {
        active := answer;
        return Again, p, k;
      }
      SavedIsReplaced(old(server), seen, server, conflict, k, me, p, current);
      label saved:
      r := Settle(conflict, decision, answer.value);
      RetainedStays(old@saved(server), server, k);
      WentOn(current, old(server), old@saved(server), server);
    }

    /** Names the saved replacement as the resolution of the shown conflict. */
    method Settle(conflict: nat, decision: Decision, replacement: nat) returns (r: Report)
      requires Valid() && active == Some(conflict)
      modifies this
      ensures Valid() && Went(current, old(server), server)
      ensures requests == old(requests) + [Settling(conflict, decision, Some(replacement), r.Resolved?)]
      ensures r in {Failed, Resolved} && active == if r.Resolved? then None else old(active)
      ensures r.Resolved? ==>
                && conflict in server.resolutions
                && server.resolutions[conflict] == Resolution(decision, me, Some(replacement))
    {
      var done := AskToResolve(conflict, decision, Some(replacement));
      if !done {
        return Failed;
      }
      active := None;
      r := Resolved;
    }

    /** What the outcomes of a sent replacement mean, for the requests, the shown conflict and the server. */
    ghost predicate AppliedAs(
        r: Report, p: Payload, k: nat, conflict: nat, shown: Change, decision: Decision, before: seq<Request>)
      reads this
    {
      match r
      case Resolved =>
        && requests == before + [Mutation(p, Some(k)), Settling(conflict, decision, Some(k), true)]
        && active.None? && Replaced(server, k, me, p, shown, current)
        && conflict in server.resolutions && server.resolutions[conflict] == Resolution(decision, me, Some(k))
      case Again =>
        && requests == before + [Mutation(p, Some(k))]
        && active == Some(k) && Retained(server, k, me, p) && !server.changes[k].disposition.Saved?
      case Failed =>
        && active == Some(conflict)
        && (requests == before + [Mutation(p, None)] ||
            (requests == before + [Mutation(p, Some(k)), Settling(conflict, decision, Some(k), false)]
              && Replaced(server, k, me, p, shown, current)))
      case _ => false
    }

    /** Sends a change; only a conflict becomes the active one. */
    method RunMutation(kind: Kind, row: Option<Id>, base: nat, changes: Fields) returns (outcome: Option<nat>, ghost p: Payload)
      requires Valid()
      modifies this
      ensures Valid() && Went(current, old(server), server)
      ensures p == Payload(p.key, device, kind, row, base, changes) && requests == old(requests) + [Mutation(p, outcome)]
      ensures outcome.Some? ==> Retained(server, outcome.value, me, p)
      ensures active == if outcome.Some? && server.changes[outcome.value].disposition.Conflict? then outcome else old(active)
    {
      ghost var seen;
      outcome, p, seen := Send(kind, row, base, changes);
      if outcome.Some? && server.changes[outcome.value].disposition.Conflict? {
        active := outcome;
      }
    }

    /** Moves a row among the rows that are shown, and sends the whole new order. */
    method MoveRow(ids: seq<Id>, version: nat, row: Id, offset: int) returns (r: Move)
      requires Valid()
      modifies this
      ensures Valid() && Went(current, old(server), server) && r == MoveOf(ids, row, offset)
      ensures if r.Moved? then
                exists p, answer :: requests == old(requests) + [Mutation(p, answer)] && p.kind.AssignmentReorder? && p.base == version
                                    && p.changes == map[ORDER_FIELD := Ids(r.order)]
              else requests == old(requests)
    {
      r := Reorder(ids, row, offset);
      if r.Moved? {
        var outcome, p := RunMutation(AssignmentReorder, None, version, map[ORDER_FIELD := Ids(r.order)]);
      } else {
        StandsStill(current, server);
      }
    }
  }
}
