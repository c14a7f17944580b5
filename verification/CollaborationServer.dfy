/**
 The server side of shared editing, for one plan revision: its assignment rows, the retained record of
 every mutation that was sent, and the resolutions of conflicts. A mutation is one step, because the
 server works on it under a lock on the revision. The older endpoints of the plan lock nothing: they
 load, check and save in steps, with anything between them.
 */
module CollaborationServer {
  import opened Basics

  type Id = nat
  type User = nat

  datatype Value = Text(text: string) | Ids(ids: seq<Id>)

  type Fields = map<string, Value>

  // ---------------------------------------------------------------------------------------------
  // Mutations and their records
  // ---------------------------------------------------------------------------------------------

  datatype Kind = RevisionUpdate | AssignmentCreate | AssignmentUpdate | AssignmentDelete | AssignmentReorder

  datatype Payload = Payload(key: nat, device: nat, kind: Kind, row: Option<Id>, base: nat, changes: Fields)

  datatype Entity = TheRevision | TheRow(id: Id)

  /** The record whose version is compared with the base version of the mutation. */
  function Target(p: Payload): Entity {
    if p.kind in {AssignmentUpdate, AssignmentDelete} && p.row.Some? then TheRow(p.row.value) else TheRevision
  }

  datatype Snapshot = Snapshot(version: nat, fields: Fields, order: seq<Id>)

  datatype Disposition = Saved | Conflict | Rejected

  /** What is retained of a mutation; `about` is the record that was copied into the snapshot. */
  datatype Change = Change(payload: Payload, actor: User, disposition: Disposition, about: Entity, snapshot: Option<Snapshot>)

  datatype Decision = Discard | Reapply | Replace

  datatype Resolution = Resolution(decision: Decision, actor: User, replacement: Option<nat>)

  datatype Record = Record(version: nat, fields: Fields)

  datatype Edit =
    | EditRevision(fields: Fields)
    | CreateRow(id: Id, fields: Fields)
    | EditRow(id: Id, fields: Fields)
    | DeleteRow(id: Id)
    | ReorderRows(order: seq<Id>)

  /** A request at a direct endpoint: the record it loaded, and whether its check of the status is behind it. */
  datatype Ticket = Ticket(edit: Edit, loaded: Record, checked: bool)

  /** `used` holds every row id that was ever given out. */
  datatype Server = Server(
    locked: bool, revision: Record, rows: map<Id, Record>, order: seq<Id>, used: set<Id>,
    changes: seq<Change>, resolutions: map<nat, Resolution>, tickets: map<nat, Ticket>)

  function Current(s: Server, t: Entity): Option<Snapshot> {
    match t
    case TheRevision => Some(Snapshot(s.revision.version, s.revision.fields, s.order))
    case TheRow(id) => if id in s.rows then Some(Snapshot(s.rows[id].version, s.rows[id].fields, [])) else None
  }

  // ---------------------------------------------------------------------------------------------
  // What can be done to the plan
  // ---------------------------------------------------------------------------------------------

  predicate Distinct(ids: seq<Id>) {
    forall i, j | 0 <= i < j < |ids| :: ids[i] != ids[j]
  }

  function Elements(ids: seq<Id>): set<Id> {
    set id | id in ids
  }

  function Without(ids: seq<Id>, id: Id): seq<Id> {
    if ids == [] then [] else (if ids[0] == id then [] else [ids[0]]) + Without(ids[1..], id)
  }

  predicate Possible(s: Server, e: Edit) {
    match e
    case EditRevision(_) => true
    case CreateRow(id, _) => id !in s.used
    case EditRow(id, _) => id in s.rows
    case DeleteRow(id) => id in s.rows
    case ReorderRows(order) => Distinct(order) && Elements(order) == s.rows.Keys
  }

  function Merged(r: Record, fields: Fields): Record {
    Record(r.version + 1, r.fields + fields)
  }

  /** Every edit counts up the version of a record, and a change of the rows that of the revision. */
  function Edited(s: Server, e: Edit): Server
    requires Possible(s, e)
  {
    var touched := Merged(s.revision, map[]);
    match e
    case EditRevision(fields) => s.(revision := Merged(s.revision, fields))
    case CreateRow(id, fields) =>
      s.(revision := touched, rows := s.rows[id := Record(1, fields)], order := s.order + [id], used := s.used + {id})
    case EditRow(id, fields) => s.(rows := s.rows[id := Merged(s.rows[id], fields)])
    case DeleteRow(id) => s.(revision := touched, rows := s.rows - {id}, order := Without(s.order, id))
    case ReorderRows(order) => s.(revision := touched, order := order)
  }

  // ---------------------------------------------------------------------------------------------
  // One mutation
  // ---------------------------------------------------------------------------------------------

  /** What the validation and the database decide: validity, the id of a new row, and obstacles to a deletion. */
  datatype Choice = Choice(valid: bool, newId: Id, linked: bool, guarded: bool)

  predicate IsRevisionField(field: string) {
    field == "prepared_by_name" || field == "prepared_by_position" || field == "prepared_at"
  }

  const ORDER_FIELD := "assignment_ids"

  /** The edit a mutation asks for once its version was found to be current, or nothing if it is rejected. */
  function Requested(s: Server, p: Payload, choice: Choice): Option<Edit> {
    match p.kind
    case RevisionUpdate => if choice.valid then Some(EditRevision(p.changes)) else None
    case AssignmentCreate => if choice.valid then Some(CreateRow(choice.newId, p.changes)) else None
    case AssignmentUpdate => if choice.valid && p.row.Some? then Some(EditRow(p.row.value, p.changes)) else None
    case AssignmentDelete =>
      if p.changes != map[] || choice.linked || choice.guarded || p.row.None? then None else Some(DeleteRow(p.row.value))
    case AssignmentReorder => AskedOrder(s, p.changes)
  }

  function AskedOrder(s: Server, changes: Fields): Option<Edit> {
    if changes.Keys != {ORDER_FIELD} || !changes[ORDER_FIELD].Ids? then None
    else
      var order := changes[ORDER_FIELD].ids;
      if !Distinct(order) || Elements(order) != s.rows.Keys then None else Some(ReorderRows(order))
  }

  datatype Verdict = Save(edit: Edit) | Clash | Refuse

  /** The order of the checks: lock, field names or the row, version, and then the content. */
  function Judge(s: Server, p: Payload, choice: Choice): Verdict {
    if s.locked then Refuse
    else if p.kind.RevisionUpdate? && exists field :: field in p.changes && !IsRevisionField(field) then Refuse
    else if Current(s, Target(p)).None? then Refuse
    else if Current(s, Target(p)).value.version != p.base then Clash
    else if Requested(s, p, choice).None? then Refuse
    else Save(Requested(s, p, choice).value)
  }

  function DispositionOf(s: Server, p: Payload, choice: Choice): Disposition {
    var verdict := Judge(s, p, choice);
    if verdict.Save? then Saved else if verdict.Clash? then Conflict else Rejected
  }

  /** A lookup of the mutation by its key. */
  function Find(changes: seq<Change>, key: nat): (r: Option<nat>)
    ensures r.Some? ==> r.value < |changes| && changes[r.value].payload.key == key
    ensures r.None? ==> forall i | 0 <= i < |changes| :: changes[i].payload.key != key
  {
    if changes == [] then None
    else if changes[|changes| - 1].payload.key == key then Some(|changes| - 1)
    else Find(changes[..|changes| - 1], key)
  }

  /** The row is named exactly by the operations that work on one. */
  predicate WellFormed(p: Payload) {
    p.base >= 1 && (p.row.Some? <==> p.kind in {AssignmentUpdate, AssignmentDelete})
  }

  function RecordOf(s: Server, actor: User, p: Payload, disposition: Disposition): Change {
    var about := if s.locked then TheRevision else Target(p);
    Change(p, actor, disposition, about, Current(s, about))
  }

  /** The new state, and the place of the retained record or nothing if the request is in error. */
  function Mutate(s: Server, actor: User, p: Payload, choice: Choice): (Server, Option<nat>)
    requires choice.newId !in s.used
  {
    var known := Find(s.changes, p.key);
    if !WellFormed(p) then (s, None)
    else if known.Some? then
      (s, if s.changes[known.value].actor == actor && s.changes[known.value].payload == p then known else None)
    else
      JudgedIsPossible(s, p, choice);
      var verdict := Judge(s, p, choice);
      var next := if verdict.Save? then Edited(s, verdict.edit) else s;
      (next.(changes := s.changes + [RecordOf(s, actor, p, DispositionOf(s, p, choice))]), Some(|s.changes|))
  }

  lemma JudgedIsPossible(s: Server, p: Payload, choice: Choice)
    requires choice.newId !in s.used && WellFormed(p)
    ensures Judge(s, p, choice).Save? ==> Possible(s, Judge(s, p, choice).edit)
  {
  }

  // ---------------------------------------------------------------------------------------------
  // Resolutions
  // ---------------------------------------------------------------------------------------------

  predicate IsTaken(s: Server, k: nat) {
    exists i :: i in s.resolutions && s.resolutions[i].replacement == Some(k)
  }

  /** A retained conflict, not yet resolved; any decision but to discard names an own saved change not used before. */
  predicate CanResolve(s: Server, i: nat, r: Resolution) {
    && i < |s.changes| && s.changes[i].disposition.Conflict? && i !in s.resolutions
    && (r.decision.Discard? <==> r.replacement.None?)
    && (r.replacement.Some? ==>
          && r.replacement.value < |s.changes| && s.changes[r.replacement.value].disposition.Saved?
          && s.changes[r.replacement.value].actor == r.actor && !IsTaken(s, r.replacement.value))
  }

  function Resolve(s: Server, i: nat, r: Resolution): Server {
    if CanResolve(s, i, r) then s.(resolutions := s.resolutions[i := r]) else s
  }

  // ---------------------------------------------------------------------------------------------
  // Direct edits
  // ---------------------------------------------------------------------------------------------

  /** The record that a direct edit loads, and whose version it counts up. */
  function Subject(e: Edit): Entity {
    if e.EditRow? then TheRow(e.id) else TheRevision
  }

  function RecordAt(s: Server, t: Entity): Option<Record> {
    match t
    case TheRevision => Some(s.revision)
    case TheRow(id) => if id in s.rows then Some(s.rows[id]) else None
  }

  /** An order may name a row twice: only the sets of rows are compared. */
  predicate CanAsk(s: Server, e: Edit) {
    match e
    case CreateRow(_, _) => true
    case ReorderRows(order) => Elements(order) == s.rows.Keys
    case _ => Possible(s, e)
  }

  /** The status of a row's revision is the one that is loaded with the row, and is not looked up again. */
  function Loaded(s: Server, k: nat, e: Edit): Server {
    if s.locked || k in s.tickets || !CanAsk(s, e) then s
    else s.(tickets := s.tickets[k := Ticket(e, RecordAt(s, Subject(e)).value, e.EditRow?)])
  }

  /** Every other save looks the status up first, and fails if the revision was approved by then. */
  function Checked(s: Server, k: nat): Server {
    if k !in s.tickets || s.tickets[k].checked then s
    else if s.locked then s.(tickets := s.tickets - {k})
    else s.(tickets := s.tickets[k := s.tickets[k].(checked := true)])
  }

  /** Each row once, at its last place. */
  function LastPlaces(ids: seq<Id>): seq<Id> {
    if ids == [] then [] else (if ids[0] in ids[1..] then [] else [ids[0]]) + LastPlaces(ids[1..])
  }

  function Among(ids: seq<Id>, kept: set<Id>): seq<Id> {
    if ids == [] then [] else (if ids[0] in kept then [ids[0]] else []) + Among(ids[1..], kept)
  }

  /** The rows in the order that was asked for, as far as they are still there, and then any new ones. */
  function Reordered(now: seq<Id>, asked: seq<Id>): seq<Id> {
    Among(LastPlaces(asked), Elements(now)) + Among(now, Elements(now) - Elements(asked))
  }

  function PutAt(ids: seq<Id>, place: nat, id: Id): seq<Id> {
    var at := Min(place, |ids|);
    ids[..at] + [id] + ids[at..]
  }

  /**
   A direct save writes what was loaded, with the edit and the next version: all columns of a row or of
   the revision, with its status, or else the version of the revision alone. A row that was deleted in
   the meantime is inserted again, somewhere.
   */
  function Written(s: Server, t: Ticket, place: nat): Server {
    var counted := s.revision.(version := t.loaded.version + 1);
    match t.edit
    case EditRevision(fields) => s.(revision := Merged(t.loaded, fields), locked := false)
    case CreateRow(id, fields) =>
      if id in s.used then s
      else s.(revision := counted, rows := s.rows[id := Record(1, fields)], order := s.order + [id], used := s.used + {id})
    case EditRow(id, fields) =>
      s.(rows := s.rows[id := Merged(t.loaded, fields)], order := if id in s.rows then s.order else PutAt(s.order, place, id))
    case DeleteRow(id) => s.(revision := counted, rows := s.rows - {id}, order := Without(s.order, id))
    case ReorderRows(order) => s.(revision := counted, order := Reordered(s.order, order))
  }

  function Stored(s: Server, k: nat, place: nat): Server {
    if k !in s.tickets || !s.tickets[k].checked then s
    else Written(s, s.tickets[k], place).(tickets := s.tickets - {k})
  }

  /** The save lands on the version and the status that were loaded. */
  predicate IsCurrent(s: Server, t: Ticket) {
    && !s.locked && RecordAt(s, Subject(t.edit)).Some?
    && RecordAt(s, Subject(t.edit)).value.version == t.loaded.version
  }

  /** The plan is the same in both. */
  predicate IsIdle(s: Server, v: Server) {
    v.revision == s.revision && v.rows == s.rows && v.order == s.order && v.locked == s.locked
  }

  // ---------------------------------------------------------------------------------------------
  // Histories
  // ---------------------------------------------------------------------------------------------

  /** `Load`, `Check` and `Store` are the steps of a direct edit. */
  datatype Event =
    | Sent(actor: User, payload: Payload, choice: Choice)
    | Resolving(conflict: nat, resolution: Resolution)
    | Load(ticket: nat, edit: Edit)
    | Check(ticket: nat)
    | Store(ticket: nat, place: nat)
    | Approve

  function Step(s: Server, e: Event): Server {
    match e
    case Sent(actor, p, choice) => if choice.newId in s.used then s else Mutate(s, actor, p, choice).0
    case Resolving(i, r) => Resolve(s, i, r)
    case Load(k, edit) => Loaded(s, k, edit)
    case Check(k) => Checked(s, k)
    case Store(k, place) => Stored(s, k, place)
    case Approve => s.(locked := true)
  }

  function Run(s: Server, events: seq<Event>): Server {
    if events == [] then s else Step(Run(s, events[..|events| - 1]), events[|events| - 1])
  }

  lemma RunOneMore(s: Server, front: seq<Event>, e: Event)
    ensures Run(s, front + [e]) == Step(Run(s, front), e)
  {
    assert (front + [e])[..|front|] == front;
  }

  lemma RunThree(s: Server, a: Event, b: Event, c: Event)
    ensures Run(s, [a, b, c]) == Step(Step(Step(s, a), b), c)
  {
    assert [a] == [] + [a] && [a, b] == [a] + [b] && [a, b, c] == [a, b] + [c];
    RunOneMore(s, [], a);
    RunOneMore(s, [a], b);
    RunOneMore(s, [a, b], c);
  }

  predicate Known(s: Server, t: Entity) {
    t.TheRow? ==> t.id in s.used
  }

  /** A later snapshot has a higher version, or is the same; what is gone stays gone. */
  predicate Onward(s: Server, v: Server, t: Entity) {
    Known(s, t) ==>
      && Known(v, t)
      && (Current(s, t).None? ==> Current(v, t).None?)
      && (Current(s, t).Some? && Current(v, t).Some? ==> NotBefore(Current(s, t).value, Current(v, t).value))
  }

  predicate NotBefore(a: Snapshot, b: Snapshot) {
    a.version <= b.version && (a.version == b.version ==> a == b)
  }

  /** What was retained stays as it is. */
  ghost predicate Grown(s: Server, v: Server) {
    && s.changes <= v.changes
    && (forall i | i in s.resolutions :: i in v.resolutions && v.resolutions[i] == s.resolutions[i])
  }

  /** Moreover every record goes onward, and an approved plan stays as it is. */
  ghost predicate Later(s: Server, v: Server) {
    && Grown(s, v)
    && (forall t :: Onward(s, v, t))
    && (s.locked ==> v.locked && v.rows == s.rows && v.order == s.order && v.revision == s.revision)
  }

  /** A saved change has a copy of its own record at the version it started from. */
  predicate Recorded(c: Change) {
    c.disposition.Saved? ==> c.about == Target(c.payload) && c.snapshot.Some? && c.snapshot.value.version == c.payload.base
  }

  predicate ResolutionSound(s: Server, i: nat, r: Resolution) {
    && i < |s.changes| && s.changes[i].disposition.Conflict?
    && (r.decision.Discard? <==> r.replacement.None?)
    && (r.replacement.Some? ==>
          && r.replacement.value < |s.changes| && s.changes[r.replacement.value].disposition.Saved?
          && s.changes[r.replacement.value].actor == r.actor)
  }

  predicate Apart(a: Resolution, b: Resolution) {
    a.replacement.Some? ==> a.replacement != b.replacement
  }

  predicate IsShape(order: seq<Id>, rows: set<Id>, used: set<Id>) {
    Distinct(order) && Elements(order) == rows && rows <= used
  }

  predicate Shaped(s: Server) {
    IsShape(s.order, s.rows.Keys, s.used)
  }

  /** What every history keeps. */
  ghost predicate Records(s: Server) {
    && Shaped(s)
    && (forall k | k in s.tickets :: Known(s, Subject(s.tickets[k].edit)))
    && (forall i | 0 <= i < |s.changes| :: Recorded(s.changes[i]))
    && (forall i, j | 0 <= i < j < |s.changes| :: s.changes[i].payload.key != s.changes[j].payload.key)
    && (forall i | i in s.resolutions :: ResolutionSound(s, i, s.resolutions[i]))
    && (forall i, j | i in s.resolutions && j in s.resolutions && i != j :: Apart(s.resolutions[i], s.resolutions[j]))
  }

  /** A snapshot that was taken of a record is never ahead of it, and a saved change is behind it. */
  predicate ChangeSound(s: Server, c: Change) {
    && (c.snapshot.Some? ==> Known(s, c.about))
    && (c.snapshot.Some? && Current(s, c.about).Some? ==> NotBefore(c.snapshot.value, Current(s, c.about).value))
    && (c.about != Target(c.payload) ==> s.locked)
    && (c.disposition.Saved? && Current(s, c.about).Some? ==> c.payload.base < Current(s, c.about).value.version)
  }

  /** If both changes were saved on one record, the later one had a later base. */
  predicate InTurn(a: Change, b: Change) {
    a.disposition.Saved? && b.disposition.Saved? && Target(a.payload) == Target(b.payload) ==> a.payload.base < b.payload.base
  }

  /** What was loaded is never ahead of the record. */
  predicate TicketSound(s: Server, t: Ticket) {
    var now := RecordAt(s, Subject(t.edit));
    now.Some? ==> t.loaded.version <= now.value.version && (t.loaded.version == now.value.version ==> t.loaded == now.value)
  }

  /** What every history keeps in which each step goes onward. */
  ghost predicate Versions(s: Server) {
    && (forall i | 0 <= i < |s.changes| :: ChangeSound(s, s.changes[i]))
    && (forall i, j | 0 <= i < j < |s.changes| :: InTurn(s.changes[i], s.changes[j]))
    && (forall k | k in s.tickets :: TicketSound(s, s.tickets[k]))
  }

  // ---------------------------------------------------------------------------------------------
  // Edits
  // ---------------------------------------------------------------------------------------------

  lemma {:induction false} WithoutIsRest(ids: seq<Id>, id: Id)
    requires Distinct(ids)
    ensures Distinct(Without(ids, id)) && Elements(Without(ids, id)) == Elements(ids) - {id}
  {
    if ids != [] {
      WithoutIsRest(ids[1..], id);
      assert ids == [ids[0]] + ids[1..];
      assert ids[0] !in ids[1..];
      var rest := Without(ids[1..], id);
      assert forall x :: x in rest <==> x in Elements(rest);
      assert ids[0] !in rest && forall j | 0 <= j < |rest| :: rest[j] in rest;
    }
  }

  lemma AppendedIsDistinct(ids: seq<Id>, id: Id)
    requires Distinct(ids) && id !in Elements(ids)
    ensures Distinct(ids + [id]) && Elements(ids + [id]) == Elements(ids) + {id}
  {
    assert forall i | 0 <= i < |ids| :: ids[i] in Elements(ids);
  }

  lemma EditKeepsShape(s: Server, e: Edit)
    requires Shaped(s) && Possible(s, e)
    ensures Shaped(Edited(s, e))
  {
    match e
    case CreateRow(id, fields) => AppendedIsDistinct(s.order, id);
    case DeleteRow(id) => WithoutIsRest(s.order, id);
    case EditRow(id, fields) => assert Edited(s, e).rows.Keys == s.rows.Keys;
    case _ =>
  }

  lemma EditIsOnward(s: Server, e: Edit, t: Entity)
    requires Shaped(s) && Possible(s, e)
    ensures Onward(s, Edited(s, e), t)
  {
  }

  /** The record an edit is about gets a higher version, or is gone. */
  lemma EditCountsUp(s: Server, p: Payload, choice: Choice)
    requires choice.newId !in s.used && WellFormed(p) && Judge(s, p, choice).Save?
    ensures Current(s, Target(p)).Some? && Current(s, Target(p)).value.version == p.base
    ensures Possible(s, Judge(s, p, choice).edit)
    ensures var after := Current(Edited(s, Judge(s, p, choice).edit), Target(p));
            after.Some? ==> p.base < after.value.version
  {
  }

  // ---------------------------------------------------------------------------------------------
  // Direct saves keep the shape of the plan
  // ---------------------------------------------------------------------------------------------

  lemma {:induction false} LastPlacesAreDistinct(ids: seq<Id>)
    ensures Distinct(LastPlaces(ids)) && Elements(LastPlaces(ids)) == Elements(ids)
  {
    if ids != [] {
      LastPlacesAreDistinct(ids[1..]);
      var rest := LastPlaces(ids[1..]);
      assert ids == [ids[0]] + ids[1..];
      assert forall x :: x in rest <==> x in Elements(rest);
      assert forall x :: x in ids[1..] <==> x in Elements(ids[1..]);
      assert forall j | 0 <= j < |rest| :: rest[j] in rest;
    }
  }

  lemma {:induction false} AmongIsPart(ids: seq<Id>, kept: set<Id>)
    requires Distinct(ids)
    ensures Distinct(Among(ids, kept)) && Elements(Among(ids, kept)) == Elements(ids) * kept
  {
    if ids != [] {
      AmongIsPart(ids[1..], kept);
      var rest := Among(ids[1..], kept);
      assert ids == [ids[0]] + ids[1..];
      assert ids[0] !in ids[1..];
      assert forall x :: x in rest <==> x in Elements(rest);
      assert forall j | 0 <= j < |rest| :: rest[j] in rest;
    }
  }

  lemma JoinedIsDistinct(a: seq<Id>, b: seq<Id>)
    requires Distinct(a) && Distinct(b) && Elements(a) !! Elements(b)
    ensures Distinct(a + b) && Elements(a + b) == Elements(a) + Elements(b)
  {
    assert forall i | 0 <= i < |a| :: a[i] in Elements(a);
    assert forall i | 0 <= i < |b| :: b[i] in Elements(b);
  }

  lemma ReorderedIsPermutation(now: seq<Id>, asked: seq<Id>)
    requires Distinct(now)
    ensures Distinct(Reordered(now, asked)) && Elements(Reordered(now, asked)) == Elements(now)
  {
    LastPlacesAreDistinct(asked);
    AmongIsPart(LastPlaces(asked), Elements(now));
    AmongIsPart(now, Elements(now) - Elements(asked));
    JoinedIsDistinct(Among(LastPlaces(asked), Elements(now)), Among(now, Elements(now) - Elements(asked)));
  }

  lemma PutIsDistinct(ids: seq<Id>, place: nat, id: Id)
    requires Distinct(ids) && id !in Elements(ids)
    ensures Distinct(PutAt(ids, place, id)) && Elements(PutAt(ids, place, id)) == Elements(ids) + {id}
  {
    var at := Min(place, |ids|);
    assert forall i | 0 <= i < |ids| :: ids[i] in Elements(ids);
    assert ids == ids[..at] + ids[at..];
  }

  lemma WrittenRowKeepsShape(s: Server, t: Ticket, place: nat)
    requires Shaped(s) && t.edit.EditRow? && Known(s, Subject(t.edit))
    ensures Shaped(Written(s, t, place))
  {
    var v, id := Written(s, t, place), t.edit.id;
    if id !in s.rows {
      PutIsDistinct(s.order, place, id);
    }
    assert IsShape(v.order, s.rows.Keys + {id}, s.used) && v.rows.Keys == s.rows.Keys + {id};
  }

  lemma DeletedKeepsShape(s: Server, t: Ticket, place: nat)
    requires Shaped(s) && t.edit.DeleteRow?
    ensures Shaped(Written(s, t, place))
  {
    var v, id := Written(s, t, place), t.edit.id;
    WithoutIsRest(s.order, id);
    assert IsShape(v.order, s.rows.Keys - {id}, s.used) && v.rows.Keys == s.rows.Keys - {id};
  }

  lemma CreatedKeepsShape(s: Server, t: Ticket, place: nat)
    requires Shaped(s) && t.edit.CreateRow?
    ensures Shaped(Written(s, t, place))
  {
    var v, id := Written(s, t, place), t.edit.id;
    if id !in s.used {
      AppendedIsDistinct(s.order, id);
      assert IsShape(v.order, s.rows.Keys + {id}, v.used) && v.rows.Keys == s.rows.Keys + {id};
    }
  }

  lemma WrittenKeepsShape(s: Server, t: Ticket, place: nat)
    requires Shaped(s) && Known(s, Subject(t.edit))
    ensures Shaped(Written(s, t, place)) && s.used <= Written(s, t, place).used
  {
    match t.edit {
      case CreateRow(_, _) => CreatedKeepsShape(s, t, place);
      case EditRow(_, _) => WrittenRowKeepsShape(s, t, place);
      case DeleteRow(_) => DeletedKeepsShape(s, t, place);
      case ReorderRows(order) => ReorderedIsPermutation(s.order, order);
      case EditRevision(_) =>
    }
  }

  // ---------------------------------------------------------------------------------------------
  // What every step keeps
  // ---------------------------------------------------------------------------------------------

  lemma LaterIsReflexive(s: Server)
    ensures Later(s, s)
  {
  }

  lemma LaterComposes(s: Server, u: Server, v: Server)
    requires Later(s, u) && Later(u, v)
    ensures Later(s, v)
  {
    forall t ensures Onward(s, v, t) {
      assert Onward(s, u, t) && Onward(u, v, t);
    }
  }

  /** A step on the plan and the tickets alone. */
  lemma PlanStepKeepsRecords(s: Server, v: Server)
    requires Records(s) && Shaped(v) && v.changes == s.changes && v.resolutions == s.resolutions && s.used <= v.used
    requires forall k | k in v.tickets :: Known(v, Subject(v.tickets[k].edit))
    ensures Records(v) && Grown(s, v)
  {
    forall i | i in v.resolutions ensures ResolutionSound(v, i, v.resolutions[i]) {
      assert ResolutionSound(s, i, s.resolutions[i]);
    }
  }

  lemma EditKeepsRecords(s: Server, e: Edit)
    requires Records(s) && Possible(s, e) && !s.locked
    ensures Records(Edited(s, e)) && Later(s, Edited(s, e))
  {
    EditKeepsShape(s, e);
    PlanStepKeepsRecords(s, Edited(s, e));
    forall t ensures Onward(s, Edited(s, e), t) {
      EditIsOnward(s, e, t);
    }
  }

  lemma RecordKeepsRecords(s: Server, c: Change)
    requires Records(s) && Recorded(c) && forall i | 0 <= i < |s.changes| :: s.changes[i].payload.key != c.payload.key
    ensures var v := s.(changes := s.changes + [c]); Records(v) && Later(s, v)
  {
    var v := s.(changes := s.changes + [c]);
    forall i | i in v.resolutions ensures ResolutionSound(v, i, v.resolutions[i]) {
      assert ResolutionSound(s, i, s.resolutions[i]);
    }
  }

  /** A mutation goes onward, whatever direct saves went before it. */
  lemma MutateKeepsRecords(s: Server, actor: User, p: Payload, choice: Choice)
    requires Records(s) && choice.newId !in s.used
    ensures var next := Mutate(s, actor, p, choice).0; Records(next) && Later(s, next)
  {
    LaterIsReflexive(s);
    if WellFormed(p) && Find(s.changes, p.key).None? {
      var c := RecordOf(s, actor, p, DispositionOf(s, p, choice));
      var verdict := Judge(s, p, choice);
      if verdict.Save? {
        EditCountsUp(s, p, choice);
        EditKeepsRecords(s, verdict.edit);
        RecordKeepsRecords(Edited(s, verdict.edit), c);
        LaterComposes(s, Edited(s, verdict.edit), Mutate(s, actor, p, choice).0);
      } else {
        RecordKeepsRecords(s, c);
      }
    }
  }

  lemma ResolveKeepsRecords(s: Server, i: nat, r: Resolution)
    requires Records(s)
    ensures Records(Resolve(s, i, r)) && Later(s, Resolve(s, i, r))
  {
    LaterIsReflexive(s);
    if CanResolve(s, i, r) {
      var v := Resolve(s, i, r);
      forall k | k in v.resolutions ensures ResolutionSound(v, k, v.resolutions[k]) {
        assert k in s.resolutions ==> ResolutionSound(s, k, s.resolutions[k]);
      }
      forall k | k in s.resolutions ensures Apart(r, s.resolutions[k]) && Apart(s.resolutions[k], r) {
        assert r.replacement.Some? ==> !IsTaken(s, r.replacement.value);
      }
    }
  }

  lemma WrittenLeavesTheRecords(s: Server, t: Ticket, place: nat)
    ensures var w := Written(s, t, place); w.changes == s.changes && w.resolutions == s.resolutions && w.tickets == s.tickets
  {
  }

  lemma StoreKeepsRecords(s: Server, k: nat, place: nat)
    requires Records(s)
    ensures Records(Stored(s, k, place)) && Grown(s, Stored(s, k, place))
  {
    if k in s.tickets && s.tickets[k].checked {
      WrittenKeepsShape(s, s.tickets[k], place);
      WrittenLeavesTheRecords(s, s.tickets[k], place);
      PlanStepKeepsRecords(s, Stored(s, k, place));
    }
  }

  lemma LoadKeepsRecords(s: Server, k: nat, e: Edit)
    requires Records(s)
    ensures Records(Loaded(s, k, e)) && Later(s, Loaded(s, k, e))
  {
    PlanStepKeepsRecords(s, Loaded(s, k, e));
  }

  lemma CheckKeepsRecords(s: Server, k: nat)
    requires Records(s)
    ensures Records(Checked(s, k)) && Later(s, Checked(s, k))
  {
    PlanStepKeepsRecords(s, Checked(s, k));
  }

  lemma ApproveKeepsRecords(s: Server)
    requires Records(s)
    ensures Records(s.(locked := true)) && Later(s, s.(locked := true))
  {
    PlanStepKeepsRecords(s, s.(locked := true));
  }

  lemma StepKeepsRecords(s: Server, e: Event)
    requires Records(s)
    ensures Records(Step(s, e)) && Grown(s, Step(s, e))
    ensures !e.Store? ==> Later(s, Step(s, e))
  {
    match e
    case Sent(actor, p, choice) =>
      LaterIsReflexive(s);
      if choice.newId !in s.used {
        MutateKeepsRecords(s, actor, p, choice);
      }
    case Resolving(i, r) => ResolveKeepsRecords(s, i, r);
    case Load(k, edit) => LoadKeepsRecords(s, k, edit);
    case Check(k) => CheckKeepsRecords(s, k);
    case Store(k, place) => StoreKeepsRecords(s, k, place);
    case Approve => ApproveKeepsRecords(s);
  }

  /** Every history keeps the records, and never takes back or changes one. */
  lemma {:induction false} HistoryKeepsRecords(s: Server, events: seq<Event>)
    requires Records(s)
    ensures Records(Run(s, events)) && Grown(s, Run(s, events))
  {
    if events != [] {
      var front := events[..|events| - 1];
      HistoryKeepsRecords(s, front);
      StepKeepsRecords(Run(s, front), events[|events| - 1]);
    }
  }

  // ---------------------------------------------------------------------------------------------
  // What every step keeps that goes onward
  // ---------------------------------------------------------------------------------------------

  lemma StaysSound(s: Server, v: Server, c: Change)
    requires ChangeSound(s, c) && Recorded(c) && Onward(s, v, c.about) && (s.locked ==> v.locked)
    ensures ChangeSound(v, c)
  {
  }

  lemma TicketStaysSound(s: Server, v: Server, t: Ticket)
    requires TicketSound(s, t) && Known(s, Subject(t.edit)) && Onward(s, v, Subject(t.edit))
    ensures TicketSound(v, t)
  {
    var r, n := RecordAt(s, Subject(t.edit)), RecordAt(v, Subject(t.edit));
    if n.Some? {
      assert r.Some? == Current(s, Subject(t.edit)).Some? && n.Some? == Current(v, Subject(t.edit)).Some?;
    }
  }

  predicate FitsBehind(changes: seq<Change>, c: Change) {
    forall i | 0 <= i < |changes| :: InTurn(changes[i], c)
  }

  /** The ticket was there before, or what it loaded is sound. */
  predicate TicketFollows(s: Server, v: Server, k: nat)
    requires k in v.tickets
  {
    || (k in s.tickets && v.tickets[k].edit == s.tickets[k].edit && v.tickets[k].loaded == s.tickets[k].loaded)
    || TicketSound(v, v.tickets[k])
  }

  /** An onward step keeps the versions in order, if what it retains and loads is sound. */
  lemma OnwardKeepsVersions(s: Server, v: Server)
    requires Records(s) && Versions(s) && Later(s, v)
    requires forall i | |s.changes| <= i < |v.changes| ::
             ChangeSound(v, v.changes[i]) && FitsBehind(v.changes[..i], v.changes[i])
    requires forall k | k in v.tickets :: TicketFollows(s, v, k)
    ensures Versions(v)
  {
    forall i | 0 <= i < |v.changes| ensures ChangeSound(v, v.changes[i]) {
      if i < |s.changes| {
        assert ChangeSound(s, s.changes[i]) && Recorded(s.changes[i]) && Onward(s, v, s.changes[i].about);
        StaysSound(s, v, s.changes[i]);
      }
    }
    forall i, j | 0 <= i < j < |v.changes| ensures InTurn(v.changes[i], v.changes[j]) {
      if j < |s.changes| {
        assert InTurn(s.changes[i], s.changes[j]);
      } else {
        assert FitsBehind(v.changes[..j], v.changes[j]) && v.changes[..j][i] == v.changes[i];
      }
    }
    forall k | k in v.tickets ensures TicketSound(v, v.tickets[k]) {
      if !TicketSound(v, v.tickets[k]) {
        assert Onward(s, v, Subject(s.tickets[k].edit));
        TicketStaysSound(s, v, s.tickets[k]);
      }
    }
  }

  /** The record of a new mutation is sound, and comes in turn behind all records so far. */
  lemma NewRecordFits(s: Server, actor: User, p: Payload, choice: Choice)
    requires Records(s) && Versions(s) && choice.newId !in s.used && WellFormed(p) && Find(s.changes, p.key).None?
    ensures var c := RecordOf(s, actor, p, DispositionOf(s, p, choice));
            ChangeSound(Mutate(s, actor, p, choice).0, c) && FitsBehind(s.changes, c)
  {
    var verdict, c := Judge(s, p, choice), RecordOf(s, actor, p, DispositionOf(s, p, choice));
    if verdict.Save? {
      EditCountsUp(s, p, choice);
      EditIsOnward(s, verdict.edit, Target(p));
    }
    forall i | 0 <= i < |s.changes| ensures InTurn(s.changes[i], c) {
      assert ChangeSound(s, s.changes[i]) && Recorded(s.changes[i]);
    }
  }

  lemma RetainedKeepsVersions(s: Server, next: Server, c: Change)
    requires Records(s) && Versions(s) && Later(s, next) && next.changes == s.changes + [c] && next.tickets == s.tickets
    requires ChangeSound(next, c) && FitsBehind(s.changes, c)
    ensures Versions(next)
  {
    assert next.changes[..|s.changes|] == s.changes;
    OnwardKeepsVersions(s, next);
  }

  lemma MutateRetains(s: Server, actor: User, p: Payload, choice: Choice)
    requires choice.newId !in s.used && WellFormed(p) && Find(s.changes, p.key).None?
    ensures var next := Mutate(s, actor, p, choice).0;
            next.changes == s.changes + [RecordOf(s, actor, p, DispositionOf(s, p, choice))] && next.tickets == s.tickets
  {
  }

  lemma MutateKeepsVersions(s: Server, actor: User, p: Payload, choice: Choice)
    requires Records(s) && Versions(s) && choice.newId !in s.used
    ensures Versions(Mutate(s, actor, p, choice).0)
  {
    if WellFormed(p) && Find(s.changes, p.key).None? {
      MutateKeepsRecords(s, actor, p, choice);
      NewRecordFits(s, actor, p, choice);
      MutateRetains(s, actor, p, choice);
      RetainedKeepsVersions(s, Mutate(s, actor, p, choice).0, RecordOf(s, actor, p, DispositionOf(s, p, choice)));
    }
  }

  lemma PlanStepKeepsVersions(s: Server, v: Server)
    requires Records(s) && Versions(s) && Later(s, v) && v.changes == s.changes
    requires forall k | k in v.tickets :: TicketFollows(s, v, k)
    ensures Versions(v)
  {
    OnwardKeepsVersions(s, v);
  }

  lemma LoadKeepsVersions(s: Server, k: nat, e: Edit)
    requires Records(s) && Versions(s)
    ensures Versions(Loaded(s, k, e))
  {
    LoadKeepsRecords(s, k, e);
    PlanStepKeepsVersions(s, Loaded(s, k, e));
  }

  lemma ResolveKeepsVersions(s: Server, i: nat, r: Resolution)
    requires Records(s) && Versions(s)
    ensures Versions(Resolve(s, i, r))
  {
    ResolveKeepsRecords(s, i, r);
    PlanStepKeepsVersions(s, Resolve(s, i, r));
  }

  lemma StoreKeepsVersions(s: Server, k: nat, place: nat)
    requires Records(s) && Versions(s) && Later(s, Stored(s, k, place))
    ensures Versions(Stored(s, k, place))
  {
    if k in s.tickets {
      WrittenLeavesTheRecords(s, s.tickets[k], place);
    }
    PlanStepKeepsVersions(s, Stored(s, k, place));
  }

  /** Every step that goes onward keeps the versions in order. */
  lemma StepKeepsVersions(s: Server, e: Event)
    requires Records(s) && Versions(s) && Later(s, Step(s, e))
    ensures Versions(Step(s, e))
  {
    match e
    case Sent(actor, p, choice) => if choice.newId !in s.used { MutateKeepsVersions(s, actor, p, choice); }
    case Load(k, edit) => LoadKeepsVersions(s, k, edit);
    case Check(k) => PlanStepKeepsVersions(s, Checked(s, k));
    case Store(k, place) => StoreKeepsVersions(s, k, place);
    case Resolving(i, r) => ResolveKeepsVersions(s, i, r);
    case Approve => PlanStepKeepsVersions(s, s.(locked := true));
  }

  // ---------------------------------------------------------------------------------------------
  // Which direct saves go onward
  // ---------------------------------------------------------------------------------------------

  lemma CurrentIsOnward(s: Server, t: Ticket, place: nat, about: Entity)
    requires Shaped(s) && IsCurrent(s, t)
    ensures Onward(s, Written(s, t, place), about)
  {
  }

  lemma CurrentGoesOnward(s: Server, t: Ticket, place: nat)
    requires Shaped(s) && IsCurrent(s, t)
    ensures Later(s, Written(s, t, place))
  {
    forall about ensures Onward(s, Written(s, t, place), about) {
      CurrentIsOnward(s, t, place, about);
    }
  }

  lemma DeletedWasGone(s: Server, id: Id)
    requires Shaped(s) && Without(s.order, id) == s.order
    ensures s.rows - {id} == s.rows
  {
    WithoutIsRest(s.order, id);
    assert id !in Elements(s.order);
  }

  /** A save over a later version changes nothing, or it does not go onward. */
  lemma StaleIsIdleOrBack(s: Server, t: Ticket, place: nat)
    requires Shaped(s) && TicketSound(s, t) && Known(s, Subject(t.edit)) && !s.locked && !IsCurrent(s, t)
    requires Onward(s, Written(s, t, place), Subject(t.edit))
    ensures IsIdle(s, Written(s, t, place))
  {
    var v := Written(s, t, place);
    match t.edit {
      case EditRow(id, fields) => assert id in s.rows && v.rows[id] == s.rows[id];
      case DeleteRow(id) => DeletedWasGone(s, id);
      case CreateRow(id, fields) => assert id !in s.used ==> |v.order| != |s.order|;
      case ReorderRows(order) =>
      case EditRevision(fields) =>
    }
  }

  /** What becomes of the tickets does not matter to the plan. */
  lemma TicketsAreApart(s: Server, w: Server, tickets: map<nat, Ticket>)
    ensures Later(s, w.(tickets := tickets)) <==> Later(s, w)
  {
    var v := w.(tickets := tickets);
    forall t ensures Onward(s, v, t) <==> Onward(s, w, t) {
    }
  }

  lemma IdleGoesOnward(s: Server, t: Ticket, place: nat)
    requires Shaped(s) && Known(s, Subject(t.edit)) && IsIdle(s, Written(s, t, place))
    ensures Later(s, Written(s, t, place))
  {
    WrittenKeepsShape(s, t, place);
  }

  /** A direct save goes onward exactly if it lands on the version and status it loaded, or changes nothing. */
  lemma StoreIsOnwardExactly(s: Server, k: nat, place: nat)
    requires Records(s) && Versions(s) && k in s.tickets && s.tickets[k].checked
    ensures Later(s, Stored(s, k, place)) <==> IsCurrent(s, s.tickets[k]) || IsIdle(s, Stored(s, k, place))
  {
    var t := s.tickets[k];
    assert TicketSound(s, t) && Known(s, Subject(t.edit));
    TicketsAreApart(s, Written(s, t, place), s.tickets - {k});
    if IsCurrent(s, t) {
      CurrentGoesOnward(s, t, place);
    } else if Later(s, Written(s, t, place)) {
      assert Onward(s, Written(s, t, place), Subject(t.edit));
      if !s.locked {
        StaleIsIdleOrBack(s, t, place);
      }
    } else if IsIdle(s, Written(s, t, place)) {
      IdleGoesOnward(s, t, place);
    }
  }

  lemma {:induction false} LastPlacesOfDistinct(ids: seq<Id>)
    requires Distinct(ids)
    ensures LastPlaces(ids) == ids
  {
    if ids != [] {
      LastPlacesOfDistinct(ids[1..]);
      assert ids[0] !in ids[1..];
    }
  }

  lemma {:induction false} AmongAll(ids: seq<Id>, kept: set<Id>)
    requires Elements(ids) <= kept
    ensures Among(ids, kept) == ids
  {
    if ids != [] {
      assert ids[0] in Elements(ids) && Elements(ids[1..]) <= Elements(ids);
      AmongAll(ids[1..], kept);
    }
  }

  lemma {:induction false} AmongNone(ids: seq<Id>)
    ensures Among(ids, {}) == []
  {
    if ids != [] {
      AmongNone(ids[1..]);
    }
  }

  lemma ReorderedAsAsked(now: seq<Id>, asked: seq<Id>)
    requires Distinct(asked) && Elements(asked) == Elements(now)
    ensures Reordered(now, asked) == asked
  {
    LastPlacesOfDistinct(asked);
    AmongAll(asked, Elements(now));
    AmongNone(now);
    assert Elements(now) - Elements(asked) == {};
  }

  lemma TouchedIsCounted(r: Record)
    ensures Merged(r, map[]) == r.(version := r.version + 1)
  {
    assert r.fields + map[] == r.fields;
  }

  lemma WrittenIsTheEdit(s: Server, t: Ticket, place: nat)
    requires RecordAt(s, Subject(t.edit)) == Some(t.loaded) && !s.locked && Possible(s, t.edit) && !t.edit.ReorderRows?
    ensures IsIdle(Edited(s, t.edit), Written(s, t, place))
  {
    TouchedIsCounted(s.revision);
  }

  lemma WrittenIsTheOrder(s: Server, t: Ticket, place: nat)
    requires RecordAt(s, Subject(t.edit)) == Some(t.loaded) && !s.locked && Possible(s, t.edit) && t.edit.ReorderRows?
    requires Elements(s.order) == s.rows.Keys
    ensures IsIdle(Edited(s, t.edit), Written(s, t, place))
  {
    var asked := t.edit.order;
    TouchedIsCounted(s.revision);
    ReorderedAsAsked(s.order, asked);
    assert Edited(s, t.edit) == s.(revision := Merged(s.revision, map[]), order := asked);
  }

  /** A current direct save does to the plan exactly what its edit says, and so it loses nothing. */
  lemma CurrentSaveIsTheEdit(s: Server, k: nat, place: nat)
    requires Records(s) && Versions(s) && k in s.tickets && s.tickets[k].checked
    requires IsCurrent(s, s.tickets[k]) && Possible(s, s.tickets[k].edit)
    ensures IsIdle(Edited(s, s.tickets[k].edit), Stored(s, k, place))
  {
    var t := s.tickets[k];
    assert TicketSound(s, t);
    if t.edit.ReorderRows? {
      WrittenIsTheOrder(s, t, place);
    } else {
      WrittenIsTheEdit(s, t, place);
    }
  }

  /** Every save of the step is current, or changes nothing. */
  predicate IsCurrentStep(s: Server, e: Event) {
    e.Store? && e.ticket in s.tickets && s.tickets[e.ticket].checked ==>
      IsCurrent(s, s.tickets[e.ticket]) || IsIdle(s, Step(s, e))
  }

  predicate AllCurrent(s: Server, events: seq<Event>) {
    events == [] ||
    (AllCurrent(s, events[..|events| - 1]) && IsCurrentStep(Run(s, events[..|events| - 1]), events[|events| - 1]))
  }

  ghost predicate AllOnward(s: Server, events: seq<Event>) {
    events == [] || (AllOnward(s, events[..|events| - 1]) && Later(Run(s, events[..|events| - 1]), Run(s, events)))
  }

  lemma StepIsOnwardExactly(s: Server, e: Event)
    requires Records(s) && Versions(s)
    ensures Later(s, Step(s, e)) <==> IsCurrentStep(s, e)
  {
    LaterIsReflexive(s);
    StepKeepsRecords(s, e);
    if e.Store? && e.ticket in s.tickets && s.tickets[e.ticket].checked {
      StoreIsOnwardExactly(s, e.ticket, e.place);
    }
  }

  /**
   A history goes onward in every step exactly if each direct save lands on the version and the status
   that it loaded, or changes nothing. Such a history keeps the versions in order.
   */
  lemma {:induction false} HistoryIsOnwardExactly(s: Server, events: seq<Event>)
    requires Records(s) && Versions(s)
    ensures AllOnward(s, events) <==> AllCurrent(s, events)
    ensures AllCurrent(s, events) ==> Versions(Run(s, events)) && Later(s, Run(s, events))
  {
    if events == [] {
      LaterIsReflexive(s);
    } else {
      var front, last := events[..|events| - 1], events[|events| - 1];
      HistoryIsOnwardExactly(s, front);
      HistoryKeepsRecords(s, front);
      if AllCurrent(s, front) {
        StepIsOnwardExactly(Run(s, front), last);
        if IsCurrentStep(Run(s, front), last) {
          StepKeepsVersions(Run(s, front), last);
          LaterComposes(s, Run(s, front), Run(s, events));
        }
      }
    }
  }

  /** The same plan and status after every step. */
  ghost predicate Untouched(s: Server, events: seq<Event>) {
    events == [] || (Untouched(s, events[..|events| - 1]) && IsIdle(s, Run(s, events)))
  }

  /** An approved revision stays as it is exactly as long as no direct save changes it that was checked before. */
  lemma {:induction false} ApprovedStaysExactly(s: Server, events: seq<Event>)
    requires Records(s) && Versions(s) && s.locked
    ensures Untouched(s, events) <==> AllCurrent(s, events)
  {
    if events != [] {
      var front := events[..|events| - 1];
      ApprovedStaysExactly(s, front);
      HistoryIsOnwardExactly(s, events);
      HistoryIsOnwardExactly(s, front);
    }
  }

  /** No direct edit has its check behind it. */
  predicate NonePending(s: Server) {
    forall k | k in s.tickets :: !s.tickets[k].checked
  }

  /**
   The check of a direct edit is the gate to an approved plan: with none behind it at the approval, the
   plan stays as it is whatever happens, and no direct edit is ever admitted.
   */
  lemma {:induction false} ApprovedStaysUnlessPending(s: Server, events: seq<Event>)
    requires s.locked && NonePending(s)
    ensures IsIdle(s, Run(s, events)) && NonePending(Run(s, events))
  {
    if events != [] {
      ApprovedStaysUnlessPending(s, events[..|events| - 1]);
    }
  }

  /**
   When a direct edit is begun: on an open plan, for a row that is there, and an order of exactly the rows
   that are there. It holds the record as it stands, and nothing else changes. The status is looked up
   again unless a row is edited.
   */
  lemma LoadExactly(s: Server, k: nat, e: Edit)
    requires k !in s.tickets
    ensures var v := Loaded(s, k, e);
            && v == s.(tickets := v.tickets) && v.tickets - {k} == s.tickets
            && (k in v.tickets <==>
                  && !s.locked
                  && (e.EditRow? || e.DeleteRow? ==> e.id in s.rows)
                  && (e.ReorderRows? ==> forall id :: id in e.order <==> id in s.rows))
            && (k in v.tickets ==>
                  && v.tickets[k].edit == e && (v.tickets[k].checked <==> e.EditRow?)
                  && v.tickets[k].loaded == if e.EditRow? then s.rows[e.id] else s.revision)
  {
    if e.ReorderRows? {
      assert Elements(e.order) == s.rows.Keys <==> forall id :: id in e.order <==> id in s.rows;
    }
  }

  /** A direct edit passes its check exactly on an open plan, and is refused on an approved one. */
  lemma CheckExactly(s: Server, k: nat)
    requires k in s.tickets && !s.tickets[k].checked
    ensures Checked(s, k) ==
            s.(tickets := if s.locked then s.tickets - {k} else s.tickets[k := s.tickets[k].(checked := true)])
  {
  }

  // ---------------------------------------------------------------------------------------------
  // What follows for whole histories
  // ---------------------------------------------------------------------------------------------

  predicate IsFresh(s: Server) {
    s.changes == [] && s.resolutions == map[] && s.tickets == map[] && Shaped(s)
  }

  /** No lost update: two changes that start from the same version of the same record are never both saved. */
  lemma {:induction false} NoLostUpdate(s: Server, events: seq<Event>, i: nat, j: nat)
    requires IsFresh(s) && AllCurrent(s, events) && i < j < |Run(s, events).changes|
    ensures var a, b := Run(s, events).changes[i], Run(s, events).changes[j];
            a.disposition.Saved? && b.disposition.Saved? && Target(a.payload) == Target(b.payload) ==>
              a.payload.base < b.payload.base
  {
    HistoryIsOnwardExactly(s, events);
    var v := Run(s, events);
    assert InTurn(v.changes[i], v.changes[j]);
  }

  lemma {:induction false} FindIsUnique(s: Server, i: nat)
    requires Records(s) && i < |s.changes|
    ensures Find(s.changes, s.changes[i].payload.key) == Some(i)
  {
    var found := Find(s.changes, s.changes[i].payload.key);
    assert found.Some? && (found.value < i || i < found.value || found.value == i);
  }

  /** Sending the same mutation again, however much later, changes nothing and gives the first answer. */
  lemma {:induction false} RepeatingIsHarmless(
      s: Server, actor: User, p: Payload, choice: Choice, events: seq<Event>, again: Choice)
    requires Records(s) && choice.newId !in s.used && WellFormed(p) && Find(s.changes, p.key).None?
    ensures var first := Mutate(s, actor, p, choice);
            var later := Run(first.0, events);
            again.newId !in later.used ==> Mutate(later, actor, p, again) == (later, first.1) && first.1.Some?
  {
    var first := Mutate(s, actor, p, choice);
    MutateKeepsRecords(s, actor, p, choice);
    var later := Run(first.0, events);
    HistoryKeepsRecords(first.0, events);
    var i := |s.changes|;
    assert later.changes[i] == first.0.changes[i];
    FindIsUnique(later, i);
  }

  /** Only a retained conflict is ever resolved, at most once, and by a saved change of the one who resolved it. */
  lemma {:induction false} ResolutionsAreSound(s: Server, events: seq<Event>, i: nat)
    requires IsFresh(s) && i in Run(s, events).resolutions
    ensures var v := Run(s, events);
            var r := v.resolutions[i];
            && i < |v.changes| && v.changes[i].disposition.Conflict?
            && (r.decision.Discard? <==> r.replacement.None?)
            && (r.replacement.Some? ==>
                  && r.replacement.value < |v.changes| && v.changes[r.replacement.value].disposition.Saved?
                  && v.changes[r.replacement.value].actor == r.actor)
  {
    HistoryKeepsRecords(s, events);
    var v := Run(s, events);
    assert ResolutionSound(v, i, v.resolutions[i]);
  }

  /** A saved mutation changed only its own record, and there only the fields it names. */
  lemma SavedChangesOnlyItsFields(s: Server, actor: User, p: Payload, choice: Choice)
    requires Records(s) && choice.newId !in s.used && WellFormed(p) && Find(s.changes, p.key).None?
    requires p.kind in {RevisionUpdate, AssignmentUpdate}
    ensures var next := Mutate(s, actor, p, choice).0;
            var before, after := Current(s, Target(p)), Current(next, Target(p));
            if next.changes[|s.changes|].disposition.Saved? then
              && before.Some? && after == Some(Snapshot(p.base + 1, before.value.fields + p.changes, before.value.order))
              && forall t | t != Target(p) :: Current(next, t) == Current(s, t)
            else forall t :: Current(next, t) == Current(s, t)
  {
  }

  // ---------------------------------------------------------------------------------------------
  // What each mutation does, on its payload
  // ---------------------------------------------------------------------------------------------

  /** A mutation that was not sent before, and a row id that was not given out before. */
  predicate IsNew(s: Server, p: Payload, choice: Choice) {
    choice.newId !in s.used && p.base >= 1 && forall i | 0 <= i < |s.changes| :: s.changes[i].payload.key != p.key
  }

  /** The plan `next`, with one more retained change, which is found at this place. */
  function Retaining(s: Server, next: Server, c: Change): (Server, Option<nat>) {
    (next.(changes := s.changes + [c]), Some(|s.changes|))
  }

  /** What a snapshot of the revision shows. */
  function Seen(s: Server): Option<Snapshot> {
    Some(Snapshot(s.revision.version, s.revision.fields, s.order))
  }

  lemma NothingToWrite(r: Record)
    ensures r.fields + map[] == r.fields
  {
  }

  /** A new row holds exactly what was sent, at version 1 and behind the other rows; else the plan stays. */
  lemma CreationExactly(s: Server, actor: User, p: Payload, choice: Choice)
    requires IsNew(s, p, choice) && p.kind == AssignmentCreate && p.row == None
    ensures var d :=
              if s.locked then Rejected else if s.revision.version != p.base then Conflict
              else if choice.valid then Saved else Rejected;
            var id := choice.newId;
            var next := s.(rows := s.rows[id := Record(1, p.changes)], order := s.order + [id], used := s.used + {id},
                           revision := s.revision.(version := s.revision.version + 1));
            Mutate(s, actor, p, choice)
            == Retaining(s, if d == Saved then next else s, Change(p, actor, d, TheRevision, Seen(s)))
  {
    NothingToWrite(s.revision);
  }

  /** An update of the revision: unknown fields are refused before the version is compared. */
  lemma RevisionUpdateExactly(s: Server, actor: User, p: Payload, choice: Choice)
    requires IsNew(s, p, choice) && p.kind == RevisionUpdate && p.row == None
    ensures var known := p.changes.Keys <= {"prepared_by_name", "prepared_by_position", "prepared_at"};
            var d :=
              if s.locked || !known then Rejected else if s.revision.version != p.base then Conflict
              else if choice.valid then Saved else Rejected;
            var next := s.(revision := Record(s.revision.version + 1, s.revision.fields + p.changes));
            Mutate(s, actor, p, choice)
            == Retaining(s, if d == Saved then next else s, Change(p, actor, d, TheRevision, Seen(s)))
  {
    if p.changes.Keys <= {"prepared_by_name", "prepared_by_position", "prepared_at"} {
      assert forall field | field in p.changes :: field in p.changes.Keys;
    } else {
      var field :| field in p.changes.Keys && field !in {"prepared_by_name", "prepared_by_position", "prepared_at"};
      assert field in p.changes && !IsRevisionField(field);
    }
  }

  /** What is retained about a row: nothing but the revision of a locked plan, and nothing at all of a missing row. */
  function SeenRow(s: Server, id: Id): Option<Snapshot> {
    if s.locked then Seen(s) else if id in s.rows then Some(Snapshot(s.rows[id].version, s.rows[id].fields, [])) else None
  }

  /** An update of a row writes the sent fields over the row's own, and leaves the revision and all other rows alone. */
  lemma UpdateExactly(s: Server, actor: User, p: Payload, choice: Choice, id: Id)
    requires IsNew(s, p, choice) && p.kind == AssignmentUpdate && p.row == Some(id)
    ensures var d :=
              if s.locked || id !in s.rows then Rejected else if s.rows[id].version != p.base then Conflict
              else if choice.valid then Saved else Rejected;
            var next :=
              if d == Saved then s.(rows := s.rows[id := Record(s.rows[id].version + 1, s.rows[id].fields + p.changes)]) else s;
            Mutate(s, actor, p, choice)
            == Retaining(s, next, Change(p, actor, d, if s.locked then TheRevision else TheRow(id), SeenRow(s, id)))
  {
  }

  lemma WithoutFirst(front: seq<Id>, back: seq<Id>)
    requires front != []
    ensures (front + back)[0] == front[0] && (front + back)[1..] == front[1..] + back
  {
  }

  lemma {:induction false} WithoutIsGone(front: seq<Id>, back: seq<Id>, id: Id)
    requires id !in back
    ensures Without(back, id) == back
    ensures id !in front ==> Without(front + [id] + back, id) == front + back
    decreases |front| + |back|
  {
    if front != [] {
      WithoutFirst(front, [id] + back);
      WithoutFirst(front, back);
      Regrouped(front, [id], back);
      Regrouped(front[1..], [id], back);
      WithoutIsGone(front[1..], back, id);
    } else {
      assert ([] + [id] + back)[1..] == back && [] + back == back;
      if back != [] {
        WithoutIsGone([], back[1..], id);
      }
    }
  }

  /**
   A deletion names no fields. It takes the row out of the plan and out of its place, if no site and no
   retained record is linked to it, and counts up the revision.
   */
  lemma DeletionExactly(s: Server, actor: User, p: Payload, choice: Choice, id: Id, front: seq<Id>, back: seq<Id>)
    requires IsNew(s, p, choice) && p.kind == AssignmentDelete && p.row == Some(id)
    requires id in s.rows ==> s.order == front + [id] + back && id !in front && id !in back
    ensures var d :=
              if s.locked || id !in s.rows then Rejected else if s.rows[id].version != p.base then Conflict
              else if p.changes == map[] && !choice.linked && !choice.guarded then Saved else Rejected;
            var next := s.(rows := s.rows - {id}, order := front + back,
                           revision := s.revision.(version := s.revision.version + 1));
            Mutate(s, actor, p, choice)
            == Retaining(s, if d == Saved then next else s,
                 Change(p, actor, d, if s.locked then TheRevision else TheRow(id), SeenRow(s, id)))
  {
    if id in s.rows {
      WithoutIsGone(front, back, id);
    }
    NothingToWrite(s.revision);
  }

  /** An order is saved exactly if it is sent alone and names every row of the plan once. */
  lemma ReorderExactly(s: Server, actor: User, p: Payload, choice: Choice, order: seq<Id>)
    requires IsNew(s, p, choice) && p.kind == AssignmentReorder && p.row == None
    requires p.changes == map["assignment_ids" := Ids(order)]
    ensures var whole := (forall i, j | 0 <= i < j < |order| :: order[i] != order[j]) && (set id | id in order) == s.rows.Keys;
            var d :=
              if s.locked then Rejected else if s.revision.version != p.base then Conflict
              else if whole then Saved else Rejected;
            var next := s.(order := order, revision := s.revision.(version := s.revision.version + 1));
            Mutate(s, actor, p, choice)
            == Retaining(s, if d == Saved then next else s, Change(p, actor, d, TheRevision, Seen(s)))
  {
    NothingToWrite(s.revision);
    assert p.changes.Keys == {"assignment_ids"} && p.changes["assignment_ids"] == Ids(order);
  }

  /** Anything but one list of ids is no order, and is never saved. */
  lemma NoOrderExactly(s: Server, actor: User, p: Payload, choice: Choice)
    requires IsNew(s, p, choice) && p.kind == AssignmentReorder && p.row == None
    requires p.changes.Keys != {"assignment_ids"} || p.changes["assignment_ids"].Text?
    ensures var d := if s.locked || s.revision.version == p.base then Rejected else Conflict;
            Mutate(s, actor, p, choice) == Retaining(s, s, Change(p, actor, d, TheRevision, Seen(s)))
  {
  }

  /** A mutation that names a row where none belongs, or none where one does, or no base version, is not retained. */
  lemma MalformedExactly(s: Server, actor: User, p: Payload, choice: Choice)
    requires choice.newId !in s.used
    requires || p.base == 0
             || (p.row == None && (p.kind == AssignmentUpdate || p.kind == AssignmentDelete))
             || (p.row != None && (p.kind == RevisionUpdate || p.kind == AssignmentCreate || p.kind == AssignmentReorder))
    ensures Mutate(s, actor, p, choice) == (s, None)
  {
  }

  /** A key that was used before: the first answer for the same user and payload, else an error. Nothing changes. */
  lemma KnownKeyExactly(s: Server, actor: User, p: Payload, choice: Choice, i: nat)
    requires Records(s) && choice.newId !in s.used && i < |s.changes| && s.changes[i].payload.key == p.key
    requires p.base >= 1 && (p.row != None <==> p.kind == AssignmentUpdate || p.kind == AssignmentDelete)
    ensures Mutate(s, actor, p, choice)
            == (s, if s.changes[i].actor == actor && s.changes[i].payload == p then Some(i) else None)
  {
    FindIsUnique(s, i);
  }

  /**
   A conflict is resolved once: by discarding it, or by a saved change of the same user that resolved no
   other conflict. Anything else is refused and changes nothing.
   */
  lemma ResolvedExactly(s: Server, i: nat, r: Resolution)
    ensures var open := i < |s.changes| && s.changes[i].disposition == Conflict && i !in s.resolutions;
            var apt :=
              match r.replacement
              case None => r.decision == Discard
              case Some(k) =>
                && (r.decision == Reapply || r.decision == Replace)
                && k < |s.changes| && s.changes[k].disposition == Saved && s.changes[k].actor == r.actor
                && forall j | j in s.resolutions :: s.resolutions[j].replacement != Some(k);
            Resolve(s, i, r) == if open && apt then s.(resolutions := s.resolutions[i := r]) else s
  {
  }

  // ---------------------------------------------------------------------------------------------
  // What a stale save can do
  // ---------------------------------------------------------------------------------------------

  /** An update of the row that the server finds valid. */
  function Update(key: nat, id: Id, base: nat, changes: Fields): Payload {
    Payload(key, 0, AssignmentUpdate, Some(id), base, changes)
  }

  predicate IsNewKey(s: Server, key: nat) {
    forall i | 0 <= i < |s.changes| :: s.changes[i].payload.key != key
  }

  predicate CanUpdate(s: Server, key: nat, id: Id, choice: Choice) {
    !s.locked && id in s.rows && s.rows[id].version >= 1 && IsNewKey(s, key) && choice.valid && choice.newId !in s.used
  }

  lemma UpdateIsSaved(s: Server, actor: User, key: nat, id: Id, changes: Fields, choice: Choice)
    requires CanUpdate(s, key, id, choice)
    ensures var p := Update(key, id, s.rows[id].version, changes);
            Step(s, Sent(actor, p, choice)) ==
            s.(rows := s.rows[id := Merged(s.rows[id], changes)], changes := s.changes + [RecordOf(s, actor, p, Saved)])
  {
  }

  lemma UpdateGoesOn(s: Server, front: seq<Event>, actor: User, key: nat, id: Id, changes: Fields, choice: Choice)
    requires CanUpdate(Run(s, front), key, id, choice)
    ensures var v := Run(s, front);
            var p := Update(key, id, v.rows[id].version, changes);
            Run(s, front + [Sent(actor, p, choice)]) ==
            v.(rows := v.rows[id := Merged(v.rows[id], changes)], changes := v.changes + [RecordOf(v, actor, p, Saved)])
  {
    var v := Run(s, front);
    RunOneMore(s, front, Sent(actor, Update(key, id, v.rows[id].version, changes), choice));
    UpdateIsSaved(v, actor, key, id, changes, choice);
  }

  lemma LoadGoesOn(s: Server, k: nat, id: Id, late: Fields)
    requires !s.locked && k !in s.tickets && id in s.rows
    ensures Run(s, [Load(k, EditRow(id, late))]) == s.(tickets := s.tickets[k := Ticket(EditRow(id, late), s.rows[id], true)])
  {
    assert [] + [Load(k, EditRow(id, late))] == [Load(k, EditRow(id, late))];
    RunOneMore(s, [], Load(k, EditRow(id, late)));
  }

  lemma StoreGoesOn(s: Server, front: seq<Event>, k: nat, id: Id, late: Fields)
    requires var v := Run(s, front); k in v.tickets && v.tickets[k].edit == EditRow(id, late) && v.tickets[k].checked && id in v.rows
    ensures var v := Run(s, front);
            Run(s, front + [Store(k, 0)]) ==
            v.(rows := v.rows[id := Merged(v.tickets[k].loaded, late)], tickets := v.tickets - {k})
  {
    RunOneMore(s, front, Store(k, 0));
  }

  /** A direct edit of the row is loaded at version n, and two updates are saved, over version n and n + 1. */
  function Overtaking(k: nat, id: Id, n: nat, late: Fields, actor: User, changes: Fields, choice: Choice): seq<Event> {
    [Load(k, EditRow(id, late))] + [Sent(actor, Update(0, id, n, changes), choice)]
    + [Sent(actor, Update(1, id, n + 1, changes), choice)]
  }

  predicate IsOvertaken(v: Server, k: nat, id: Id, n: nat, late: Fields, changes: Fields) {
    && !v.locked && id in v.rows && k in v.tickets && v.tickets[k].edit == EditRow(id, late) && v.tickets[k].checked
    && v.tickets[k].loaded.version == n && |v.changes| == 2 && v.changes[0].payload.key == 0
    && v.changes[1].disposition.Saved? && v.changes[1].payload == Update(1, id, n + 1, changes)
  }

  predicate IsUpdatedOnce(v: Server, k: nat, id: Id, n: nat, late: Fields, choice: Choice) {
    && CanUpdate(v, 1, id, choice) && v.rows[id].version == n + 1 && |v.changes| == 1 && v.changes[0].payload.key == 0
    && k in v.tickets && v.tickets[k].edit == EditRow(id, late) && v.tickets[k].loaded.version == n && v.tickets[k].checked
  }

  lemma OneUpdate(s: Server, k: nat, id: Id, late: Fields, actor: User, changes: Fields, choice: Choice)
    requires IsFresh(s) && CanUpdate(s, 0, id, choice)
    ensures var n := s.rows[id].version;
            var v := Run(s, [Load(k, EditRow(id, late))] + [Sent(actor, Update(0, id, n, changes), choice)]);
            IsUpdatedOnce(v, k, id, n, late, choice) && v.used == s.used
  {
    LoadGoesOn(s, k, id, late);
    UpdateGoesOn(s, [Load(k, EditRow(id, late))], actor, 0, id, changes, choice);
  }

  lemma OneMoreUpdate(
      s: Server, front: seq<Event>, k: nat, id: Id, n: nat, late: Fields, actor: User, changes: Fields, choice: Choice)
    requires IsUpdatedOnce(Run(s, front), k, id, n, late, choice)
    ensures var v := Run(s, front + [Sent(actor, Update(1, id, n + 1, changes), choice)]);
            IsOvertaken(v, k, id, n, late, changes) && v.used == Run(s, front).used
  {
    UpdateGoesOn(s, front, actor, 1, id, changes, choice);
  }

  lemma OvertakingOvertakes(s: Server, k: nat, id: Id, late: Fields, actor: User, changes: Fields, choice: Choice)
    requires IsFresh(s) && CanUpdate(s, 0, id, choice)
    ensures var n := s.rows[id].version;
            var v := Run(s, Overtaking(k, id, n, late, actor, changes, choice));
            IsOvertaken(v, k, id, n, late, changes) && v.used == s.used
  {
    var n := s.rows[id].version;
    OneUpdate(s, k, id, late, actor, changes, choice);
    var once := [Load(k, EditRow(id, late))] + [Sent(actor, Update(0, id, n, changes), choice)];
    OneMoreUpdate(s, once, k, id, n, late, actor, changes, choice);
  }

  predicate LosesAnUpdate(v: Server, id: Id, n: nat, changes: Fields) {
    && |v.changes| == 3 && v.changes[1].disposition.Saved? && v.changes[2].disposition.Saved?
    && v.changes[1].payload == Update(1, id, n + 1, changes) && v.changes[2].payload == Update(2, id, n + 1, changes)
  }

  /** The save brings version n + 1 back, for which an update was saved already. */
  predicate IsBroughtBack(w: Server, id: Id, n: nat, changes: Fields) {
    && !w.locked && id in w.rows && w.rows[id].version == n + 1 && |w.changes| == 2 && IsNewKey(w, 2)
    && w.changes[1].disposition.Saved? && w.changes[1].payload == Update(1, id, n + 1, changes)
  }

  lemma BringsBack(v: Server, k: nat, id: Id, n: nat, late: Fields, changes: Fields)
    requires IsOvertaken(v, k, id, n, late, changes)
    ensures var w := v.(rows := v.rows[id := Merged(v.tickets[k].loaded, late)], tickets := v.tickets - {k});
            IsBroughtBack(w, id, n, changes)
  {
  }

  lemma StoreBringsBack(s: Server, first: seq<Event>, k: nat, id: Id, n: nat, late: Fields, changes: Fields)
    requires IsOvertaken(Run(s, first), k, id, n, late, changes)
    ensures var w := Run(s, first + [Store(k, 0)]); IsBroughtBack(w, id, n, changes) && w.used == Run(s, first).used
  {
    StoreGoesOn(s, first, k, id, late);
    BringsBack(Run(s, first), k, id, n, late, changes);
  }

  lemma UpdateIsRetained(s: Server, front: seq<Event>, actor: User, key: nat, id: Id, changes: Fields, choice: Choice)
    requires CanUpdate(Run(s, front), key, id, choice)
    ensures var v := Run(s, front);
            var p := Update(key, id, v.rows[id].version, changes);
            var w := Run(s, front + [Sent(actor, p, choice)]);
            |w.changes| == |v.changes| + 1 && w.changes[..|v.changes|] == v.changes
            && w.changes[|v.changes|].payload == p && w.changes[|v.changes|].disposition.Saved?
  {
    UpdateGoesOn(s, front, actor, key, id, changes, choice);
  }

  lemma BroughtBackLoses(s: Server, front: seq<Event>, id: Id, n: nat, actor: User, changes: Fields, choice: Choice)
    requires IsBroughtBack(Run(s, front), id, n, changes) && choice.valid && choice.newId !in Run(s, front).used
    ensures LosesAnUpdate(Run(s, front + [Sent(actor, Update(2, id, n + 1, changes), choice)]), id, n, changes)
  {
    UpdateIsRetained(s, front, actor, 2, id, changes, choice);
    var w := Run(s, front + [Sent(actor, Update(2, id, n + 1, changes), choice)]);
    assert w.changes[1] == w.changes[..2][1];
  }

  /**
   With a stale save, two changes of one row can both be saved over version n + 1: the save brings that
   version back.
   */
  lemma StaleSaveLosesAnUpdate(s: Server, k: nat, id: Id, late: Fields, actor: User, changes: Fields, choice: Choice)
    requires IsFresh(s) && CanUpdate(s, 0, id, choice)
    ensures var n := s.rows[id].version;
            var first := Overtaking(k, id, n, late, actor, changes, choice);
            LosesAnUpdate(Run(s, first + [Store(k, 0)] + [Sent(actor, Update(2, id, n + 1, changes), choice)]), id, n, changes)
  {
    var n := s.rows[id].version;
    OvertakingOvertakes(s, k, id, late, actor, changes, choice);
    var first := Overtaking(k, id, n, late, actor, changes, choice);
    StoreBringsBack(s, first, k, id, n, late, changes);
    BroughtBackLoses(s, first + [Store(k, 0)], id, n, actor, changes, choice);
  }

  /** With a save that was checked before the approval, an approved row changes. */
  lemma LateSaveChangesTheApproved(s: Server, k: nat, id: Id, late: Fields)
    requires !s.locked && k !in s.tickets && id in s.rows
    ensures var v := Run(s, [Load(k, EditRow(id, late)), Approve, Store(k, 0)]);
            v.locked && id in v.rows && v.rows[id] == Merged(s.rows[id], late) != s.rows[id]
  {
    RunThree(s, Load(k, EditRow(id, late)), Approve, Store(k, 0));
  }

  /** A save of the revision that was checked before the approval even takes the approval back. */
  lemma LateSaveTakesBackTheApproval(s: Server, k: nat, late: Fields)
    requires !s.locked && k !in s.tickets
    ensures var approved := Run(s, [Load(k, EditRevision(late)), Check(k), Approve]);
            approved.locked && !Step(approved, Store(k, 0)).locked
  {
    RunThree(s, Load(k, EditRevision(late)), Check(k), Approve);
  }
}
