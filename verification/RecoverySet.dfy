/**
 Creating a recovery set before an upgrade: the services are paused, the database and the attachments
 are dumped and checked, every file gets a checksum, a manifest is written last, and the services are
 resumed whatever happened. Every command may fail, or be interrupted, before or after its effect.
 */
module RecoverySet {
  import opened Basics

  type Byte = b: int | 0 <= b < 256
  type Bytes = seq<Byte>

  // ---------------------------------------------------------------------------------------------
  // The checksum of a file
  // ---------------------------------------------------------------------------------------------

  /** The state of the digest: what was fed to it, one byte after the other. */
  datatype Digest = Start | Fed(before: Digest, byte: Byte)

  function Feed(d: Digest, data: Bytes): Digest
    decreases |data|
  {
    if data == [] then d else Feed(Fed(d, data[0]), data[1..])
  }

  function DigestOf(data: Bytes): Digest {
    Feed(Start, data)
  }

  lemma {:induction false} FeedConcat(d: Digest, a: Bytes, b: Bytes)
    ensures Feed(d, a + b) == Feed(Feed(d, a), b)
    decreases |a|
  {
    if a == [] {
      assert a + b == b;
    } else {
      assert (a + b)[1..] == a[1..] + b;
      FeedConcat(Fed(d, a[0]), a[1..], b);
    }
  }

  lemma LastByteIsFed(d: Digest, data: Bytes, byte: Byte)
    ensures Feed(d, data + [byte]) == Fed(Feed(d, data), byte)
  {
    FeedConcat(d, data, [byte]);
    assert [byte][1..] == [];
  }

  /** Files with one digest have one content. */
  lemma {:induction false} DigestsTellApart(a: Bytes, b: Bytes)
    requires DigestOf(a) == DigestOf(b)
    ensures a == b
    decreases |a|
  {
    if a != [] {
      var front := a[..|a| - 1];
      LastByteIsFed(Start, front, a[|a| - 1]);
      assert a == front + [a[|a| - 1]];
    }
    if b != [] {
      var front := b[..|b| - 1];
      LastByteIsFed(Start, front, b[|b| - 1]);
      assert b == front + [b[|b| - 1]];
    }
    if a != [] && b != [] {
      DigestsTellApart(a[..|a| - 1], b[..|b| - 1]);
    }
  }

  const CHUNK := 1024 * 1024

  /** Reads the file in chunks until a read comes back empty. */
  method Checksum(content: Bytes) returns (digest: Digest)
    ensures digest == DigestOf(content)
  {
    digest := Start;
    var position := 0;
    while true
      invariant position <= |content| && digest == DigestOf(content[..position])
      decreases |content| - position
    {
      var chunk := content[position..Min(|content|, position + CHUNK)];
      if chunk == [] {
        break;
      }
      FeedConcat(Start, content[..position], chunk);
      assert content[..position] + chunk == content[..position + |chunk|];
      digest := Feed(digest, chunk);
      position := position + |chunk|;
    }
    assert content[..position] == content;
  }

  // ---------------------------------------------------------------------------------------------
  // The site
  // ---------------------------------------------------------------------------------------------

  datatype Services = Running | Stopped | Mixed

  /** A file of the set: not there, cut short, or with all of its content. */
  datatype File<T> = Absent | Partial | Whole(content: T)

  datatype Item = Dump | Attachments | Environment

  datatype Manifest = Manifest(source: string, target: string, files: seq<Item>)

  /** What the controller undertakes, in the order it undertakes it; recorded when it is attempted. */
  datatype Action =
    | ListServices | AskDatabaseSize | AskMediaSize
    | Stop | DumpDatabase | ListDump | ArchiveMedia | ListArchive | CopyEnvironment
    | Sum(item: Item) | WriteManifest | Resume

  /** The questions asked before the pause, and the steps from the pause on. */
  const QUESTIONS: nat := 3
  const STEPS: nat := 10

  function Question(i: nat): Action {
    if i == 0 then ListServices else if i == 1 then AskDatabaseSize else AskMediaSize
  }

  function Step(i: nat): Action {
    if i == 0 then Stop
    else if i == 1 then DumpDatabase
    else if i == 2 then ListDump
    else if i == 3 then ArchiveMedia
    else if i == 4 then ListArchive
    else if i == 5 then CopyEnvironment
    else if i == 6 then Sum(Dump)
    else if i == 7 then Sum(Attachments)
    else if i == 8 then Sum(Environment)
    else WriteManifest
  }

  function Questions(n: nat): (q: seq<Action>)
    ensures |q| == n && forall i | 0 <= i < n :: q[i] == Question(i)
  {
    seq(n, i requires 0 <= i => Question(i))
  }

  /** The steps from one number up to, but without, another. */
  function Steps(from: nat, k: nat): (steps: seq<Action>)
    requires from <= k
    ensures |steps| == k - from && forall i | 0 <= i < k - from :: steps[i] == Step(from + i)
  {
    seq(k - from, i requires 0 <= i => Step(from + i))
  }

  lemma Longer(from: nat, k: nat)
    requires from <= k
    ensures Steps(from, k + 1) == Steps(from, k) + [Step(k)]
    ensures from == k ==> Steps(from, k + 1) == [Step(k)]
  {
  }

  lemma Follow(from: nat, n: nat, k: nat)
    requires from <= n <= k
    ensures Steps(from, k) == Steps(from, n) + Steps(n, k)
  {
  }

  datatype Failure = CommandFailed | NotRunning | NoSpace | Interrupted

  predicate IsFault(f: Failure) {
    f.CommandFailed? || f.Interrupted?
  }

  const SERVICES := {"db", "backend", "frontend"}

  function Needed(dbSize: nat, mediaKib: nat): nat {
    dbSize + mediaKib * 1024 + 1024 * 1024 * 1024
  }

  /** The three services run, and there is space for the database, the attachments and one GiB. */
  ghost predicate IsReady(running: set<string>, dbSize: nat, mediaKib: nat, free: nat) {
    && "db" in running && "backend" in running && "frontend" in running
    && free >= dbSize + 1024 * mediaKib + 1073741824
  }

  /** Whether an interrupt comes before the first command of the pause: and then, before or after the pause was marked. */
  datatype Early = Never | Unmarked | Marked

  /** The data of the application at the moment the services were stopped. */
  datatype Frozen = Frozen(db: Bytes, media: Bytes)

  class Site {
    var services: Services
    var db: Bytes
    var media: Bytes
    var env: Bytes
    var files: map<Item, File<Bytes>>
    var sums: map<Item, File<Digest>>
    var manifest: File<Manifest>
    ghost var trace: seq<Action>
    ghost var pause: Option<Frozen>
    ghost var passed: set<Action>

    /** How many commands failed or were interrupted. */
    ghost var faults: nat

    /** No file of this set exists yet: its name was made for it. */
    ghost predicate Fresh()
      reads this
    {
      manifest == Absent && files == map[] && sums == map[] && trace == [] && pause == None && passed == {} && faults == 0
    }

    /** The application goes on changing its data unless it is stopped; the configuration may change. */
    method Interfere()
      modifies this`db, this`media, this`env
      ensures services == Stopped ==> db == old(db) && media == old(media)
    {
      var db': Bytes, media': Bytes, env': Bytes := *, *, *;
      if services != Stopped {
        db, media := db', media';
      }
      env := env';
    }

    /** A command that only asks, or only checks a file. */
    method Ask(action: Action) returns (r: Result<(), Failure>)
      modifies this`trace, this`passed, this`db, this`media, this`env, this`faults
      ensures trace == old(trace) + [action]
      ensures passed == old(passed) + if r.Ok? then {action} else {}
      ensures services == Stopped ==> db == old(db) && media == old(media)
      ensures (r.Err? ==> IsFault(r.error)) && faults == old(faults) + if r.Err? then 1 else 0
    {
      trace := trace + [action];
      Interfere();
      r := Outcome();
      passed := passed + if r.Ok? then {action} else {};
    }

    /** A command succeeds, fails, or is interrupted. */
    method Outcome() returns (r: Result<(), Failure>)
      modifies this`faults
      ensures r.Err? ==> IsFault(r.error)
      ensures faults == old(faults) + if r.Err? then 1 else 0
    {
      var fails: bool, interrupt: bool := *, *;
      r := if fails then Err(if interrupt then Interrupted else CommandFailed) else Ok(());
      faults := faults + if fails then 1 else 0;
    }

    /** The application is paused, and its data is what it was when it was stopped. */
    ghost predicate Paused()
      reads this
    {
      services == Stopped && pause == Some(Frozen(db, media))
    }

    method StopServices() returns (r: Result<(), Failure>)
      modifies this`trace, this`db, this`media, this`env, this`services, this`pause, this`faults
      ensures trace == old(trace) + [Stop]
      ensures r.Ok? ==> Paused()
      ensures r.Err? ==> pause == old(pause)
      ensures (r.Err? ==> IsFault(r.error)) && faults == old(faults) + if r.Err? then 1 else 0
    {
      trace := trace + [Stop];
      Interfere();
      r := Outcome();
      var partly: Services := *;
      services := if r.Ok? then Stopped else partly;
      pause := if r.Ok? then Some(Frozen(db, media)) else pause;
    }

    method ResumeServices() returns (r: Result<(), Failure>)
      modifies this`trace, this`db, this`media, this`env, this`services, this`faults
      ensures trace == old(trace) + [Resume]
      ensures r.Ok? ==> services == Running
      ensures (r.Err? ==> IsFault(r.error)) && faults == old(faults) + if r.Err? then 1 else 0
    {
      trace := trace + [Resume];
      r := Outcome();
      var partly: Services := *;
      services := if r.Ok? then Running else partly;
      Interfere();
    }

    /** Writes one file of the set; a failure leaves it absent, cut short or whole. */
    method Capture(action: Action, item: Item) returns (r: Result<(), Failure>)
      modifies this`trace, this`db, this`media, this`env, this`files, this`faults
      ensures trace == old(trace) + [action]
      ensures services == Stopped ==> db == old(db) && media == old(media)
      ensures forall i | i in old(files) && i != item :: i in files && files[i] == old(files)[i]
      ensures r.Ok? ==> item in files && files[item].Whole?
      ensures r.Ok? && item == Dump ==> files[item].content == db
      ensures r.Ok? && item == Attachments ==> files[item].content == media
      ensures (r.Err? ==> IsFault(r.error)) && faults == old(faults) + if r.Err? then 1 else 0
    {
      trace := trace + [action];
      Interfere();
      r := Outcome();
      var source := match item case Dump => db case Attachments => media case Environment => env;
      var left: File<Bytes> := *;
      files := files[item := if r.Ok? then Whole(source) else left];
    }

    method SumFile(item: Item) returns (r: Result<(), Failure>)
      requires Captured(item)
      modifies this`trace, this`db, this`media, this`env, this`sums, this`faults
      ensures trace == old(trace) + [Sum(item)]
      ensures services == Stopped ==> db == old(db) && media == old(media)
      ensures forall i | i in old(sums) && i != item :: i in sums && sums[i] == old(sums)[i]
      ensures r.Ok? ==> Summed(item)
      ensures (r.Err? ==> IsFault(r.error)) && faults == old(faults) + if r.Err? then 1 else 0
    {
      trace := trace + [Sum(item)];
      Interfere();
      var digest := Checksum(files[item].content);
      r := Outcome();
      var left: File<Digest> := *;
      sums := sums[item := if r.Ok? then Whole(digest) else left];
    }

    /** A failure may come before, during or after the writing, so the manifest may even be whole. */
    method WriteTheManifest(content: Manifest) returns (r: Result<(), Failure>)
      modifies this`trace, this`manifest, this`db, this`media, this`env, this`faults
      ensures trace == old(trace) + [WriteManifest]
      ensures services == Stopped ==> db == old(db) && media == old(media)
      ensures r.Ok? ==> manifest == Whole(content)
      ensures manifest.Whole? ==> manifest.content == content
      ensures (r.Err? ==> IsFault(r.error)) && faults == old(faults) + if r.Err? then 1 else 0
    {
      trace := trace + [WriteManifest];
      Interfere();
      r := Outcome();
      var written: bool, torn: bool := *, *;
      manifest := if r.Ok? || written then Whole(content) else if torn then Partial else Absent;
    }

    // -------------------------------------------------------------------------------------------
    // The whole set
    // -------------------------------------------------------------------------------------------

    ghost predicate Captured(item: Item)
      reads this
    {
      item in files && files[item].Whole?
    }

    ghost predicate Summed(item: Item)
      reads this
    {
      Captured(item) && item in sums && sums[item] == Whole(DigestOf(files[item].content))
    }

    /** The dump and the attachments are the data of the pause, both of the same moment. */
    ghost predicate Matched()
      reads this
    {
      && pause.Some? && Captured(Dump) && Captured(Attachments)
      && files[Dump].content == pause.value.db && files[Attachments].content == pause.value.media
    }

    /** The dump and the archive of the attachments could be listed. */
    ghost predicate Validated()
      reads this
    {
      ListDump in passed && ListArchive in passed
    }

    /** Everything a manifest promises. */
    ghost predicate Complete()
      reads this
    {
      Matched() && Validated() && Summed(Dump) && Summed(Attachments) && Summed(Environment)
    }

    /** One file of the pause, and the check by the program that would read it back. */
    method CaptureChecked(ghost n: nat, capture: Action, check: Action, item: Item)
      returns (r: Result<(), Failure>, ghost k: nat)
      requires Paused() && capture == Step(n) && check == Step(n + 1)
      modifies this`trace, this`passed, this`db, this`media, this`env, this`files, this`faults
      ensures n < k <= n + 2 && trace == old(trace) + Steps(n, k)
      ensures Paused() && old(passed) <= passed
      ensures forall i | i in old(files) && i != item :: i in files && files[i] == old(files)[i]
      ensures r.Ok? ==> k == n + 2 && check in passed && Captured(item)
      ensures r.Ok? && item == Dump ==> files[item].content == pause.value.db
      ensures r.Ok? && item == Attachments ==> files[item].content == pause.value.media
      ensures (r.Err? ==> IsFault(r.error)) && faults == old(faults) + if r.Err? then 1 else 0
    {
      k := n + 1;
      Longer(n, n);
      r := Capture(capture, item);
      if r.Err? {
        return;
      }
      k := n + 2;
      Longer(n, n + 1);
      r := Ask(check);
    }

    /** The two files of the set that are checked. */
    method CaptureBoth() returns (r: Result<(), Failure>, ghost k: nat)
      requires Paused() && files == map[]
      modifies this`trace, this`passed, this`db, this`media, this`env, this`files, this`faults
      ensures 1 < k <= 5 && trace == old(trace) + Steps(1, k)
      ensures r.Ok? ==> k == 5 && Paused() && Matched() && Validated()
      ensures (r.Err? ==> IsFault(r.error)) && faults == old(faults) + if r.Err? then 1 else 0
    {
      r, k := CaptureChecked(1, DumpDatabase, ListDump, Dump);
      if r.Err? {
        return;
      }
      r, k := CaptureChecked(3, ArchiveMedia, ListArchive, Attachments);
      Follow(1, 3, k);
    }

    /** The three files of the set. */
    method CaptureAll() returns (r: Result<(), Failure>, ghost k: nat)
      requires Paused() && files == map[]
      modifies this`trace, this`passed, this`db, this`media, this`env, this`files, this`faults
      ensures 1 < k <= 6 && trace == old(trace) + Steps(1, k)
      ensures r.Ok? ==> k == 6 && Paused() && Matched() && Validated() && Captured(Environment)
      ensures (r.Err? ==> IsFault(r.error)) && faults == old(faults) + if r.Err? then 1 else 0
    {
      r, k := CaptureBoth();
      if r.Err? {
        return;
      }
      k := 6;
      Longer(1, 5);
      r := Capture(CopyEnvironment, Environment);
    }

    /** The checksums of the three files, in order. */
    method SumAll() returns (r: Result<(), Failure>, ghost k: nat)
      requires Paused() && Matched() && Validated() && Captured(Environment)
      modifies this`trace, this`db, this`media, this`env, this`sums, this`faults
      ensures 6 < k <= 9 && trace == old(trace) + Steps(6, k)
      ensures r.Ok? ==> k == 9 && Paused() && Complete()
      ensures (r.Err? ==> IsFault(r.error)) && faults == old(faults) + if r.Err? then 1 else 0
    {
      var items := [Dump, Attachments, Environment];
      k, r := 6, Ok(());
      for i := 0 to 3
        invariant k == 6 + i && trace == old(trace) + Steps(6, k) && r.Ok? && faults == old(faults)
        invariant Paused() && Matched() && Validated() && Captured(Environment)
        invariant forall j | 0 <= j < i :: Summed(items[j])
      {
        r := SumFile(items[i]);
        k := k + 1;
        assert Sum(items[i]) == Step(k - 1);
        Longer(6, k - 1);
        if r.Err? {
          return;
        }
      }
      assert Summed(items[0]) && Summed(items[1]) && Summed(items[2]);
    }

    /** Everything between stopping the services and writing the manifest. */
    method MakeFiles() returns (r: Result<(), Failure>, ghost k: nat)
      requires Paused() && files == map[]
      modifies this`trace, this`passed, this`db, this`media, this`env, this`files, this`sums, this`faults
      ensures 1 < k <= 9 && trace == old(trace) + Steps(1, k)
      ensures r.Ok? ==> k == 9 && Paused() && Complete()
      ensures (r.Err? ==> IsFault(r.error)) && faults == old(faults) + if r.Err? then 1 else 0
    {
      r, k := CaptureAll();
      if r.Err? {
        return;
      }
      r, k := SumAll();
      Follow(1, 6, k);
    }

    /** The body of the try statement: from stopping the services to writing the manifest. */
    method MakeSet(content: Manifest) returns (r: Result<(), Failure>, ghost k: nat)
      requires files == map[] && manifest == Absent
      modifies this
      ensures 0 < k <= STEPS && trace == old(trace) + Steps(0, k)
      ensures manifest.Whole? ==> k == STEPS && Complete() && manifest.content == content
      ensures r.Ok? ==> manifest.Whole?
      ensures (r.Err? ==> IsFault(r.error)) && faults == old(faults) + if r.Err? then 1 else 0
    {
      r := StopServices();
      k := 1;
      Longer(0, 0);
      if r.Err? {
        return;
      }
      r, k := MakeFiles();
      Follow(0, 1, k);
      if r.Err? {
        return;
      }
      r := WriteTheManifest(content);
      k := 10;
      Longer(0, 9);
    }

    /** The questions before the pause. */
    method AskBefore(running: set<string>, dbSize: nat, mediaKib: nat, free: nat)
      returns (r: Result<(), Failure>, ghost asked: nat)
      requires Fresh()
      modifies this`trace, this`passed, this`db, this`media, this`env, this`faults
      ensures asked <= QUESTIONS && trace == Questions(asked)
      ensures r.Ok? ==> asked == QUESTIONS
      ensures r.Ok? <==> AskMediaSize in passed && IsReady(running, dbSize, mediaKib, free)
      ensures r == Err(NotRunning) ==> asked == 1 && !({"db", "backend", "frontend"} <= running)
      ensures r == Err(NoSpace) ==> asked == 3 && free < dbSize + 1024 * mediaKib + 1073741824
      ensures r.Err? && IsFault(r.error) ==> faults == 1
      ensures r.Ok? || !IsFault(r.error) ==> faults == 0
    {
      asked := 1;
      r := Ask(ListServices);
      assert trace == Questions(1);
      if r.Err? {
        return;
      }
      if !(SERVICES <= running) {
        return Err(NotRunning), asked;
      }
      asked := 2;
      r := Ask(AskDatabaseSize);
      assert trace == Questions(2);
      if r.Err? {
        return;
      }
      asked := 3;
      r := Ask(AskMediaSize);
      assert trace == Questions(3);
      if r.Err? {
        return;
      }
      if free < Needed(dbSize, mediaKib) {
        return Err(NoSpace), asked;
      }
    }

    /**
     Creates the set. What it undertakes is an initial part of the fixed order of steps; once the
     services were asked to stop, the last step is to resume them, exactly unless an interrupt cuts the
     closing block off before that command. A manifest that can be read means that every step was
     undertaken and everything it promises holds; a normal return means that there is one and that the
     services run again. It returns normally exactly if no command failed, nothing was interrupted, and
     the services run with enough space; the two refusals say which of these was missing.
     */
    method CreateRecoverySet(
      running: set<string>, dbSize: nat, mediaKib: nat, free: nat, source: string, target: string, early: Early, cut: bool)
      returns (r: Result<(), Failure>, ghost asked: nat, ghost k: nat, ghost resumes: bool)
      requires Fresh()
      modifies this
      ensures asked <= QUESTIONS && k <= STEPS && (k > 0 || resumes ==> asked == QUESTIONS)
      ensures trace == TraceOf(asked, k, resumes)
      ensures k > 0 ==> early.Never? && resumes == !cut
      ensures resumes ==> !cut && !early.Unmarked?
      ensures k > 0 && cut ==> r == Err(Interrupted)
      ensures manifest.Whole? ==>
                k == STEPS && Complete() && manifest.content == Manifest(source, target, [Dump, Attachments, Environment])
      ensures r.Ok? ==> manifest.Whole? && resumes && services == Running
      ensures r == Err(NotRunning) ==> asked == 1 && !({"db", "backend", "frontend"} <= running)
      ensures r == Err(NoSpace) ==> asked == 3 && free < dbSize + 1024 * mediaKib + 1073741824
      ensures r.Ok? <==> faults == 0 && IsReady(running, dbSize, mediaKib, free) && early.Never? && !cut
      ensures !IsReady(running, dbSize, mediaKib, free) ==> r.Err? && k == 0 && !resumes
      ensures AskMediaSize in passed && IsReady(running, dbSize, mediaKib, free) && !early.Unmarked? && !cut ==> resumes
    {
      k, resumes := 0, false;
      r, asked := AskBefore(running, dbSize, mediaKib, free);
      if r.Err? {
        return;
      }
      if early.Unmarked? {
        return Err(Interrupted), asked, k, resumes;
      }
      if early.Marked? {
        r := Err(Interrupted);
      } else {
        r, k := MakeSet(Manifest(source, target, [Dump, Attachments, Environment]));
      }
      if cut {
        return Err(Interrupted), asked, k, resumes;
      }
      label made:
      resumes := true;
      var resumed := ResumeServices();
      assert TraceOf(asked, k, resumes) == old@made(trace) + [Resume];
      r := if resumed.Err? then resumed else r;
    }
  }

  // ---------------------------------------------------------------------------------------------
  // What the fixed order means
  // ---------------------------------------------------------------------------------------------

  function TraceOf(asked: nat, k: nat, resumes: bool): seq<Action>
    requires asked <= QUESTIONS && k <= STEPS
  {
    Questions(asked) + Steps(0, k) + (if resumes then [Resume] else [])
  }

  /**
   In every run: the services are stopped at most once and resumed at most once, as the last step, and
   whatever captures data lies behind the stop and before the resume.
   */
  lemma PauseIsClosed(asked: nat, k: nat, resumes: bool, i: nat)
    requires asked <= QUESTIONS && k <= STEPS && (k > 0 || resumes ==> asked == QUESTIONS)
    requires i < |TraceOf(asked, k, resumes)|
    ensures var trace := TraceOf(asked, k, resumes);
            && (trace[i] == Resume <==> resumes && i == |trace| - 1)
            && (trace[i] == Stop <==> k > 0 && i == QUESTIONS)
            && (trace[i] in {DumpDatabase, ArchiveMedia, CopyEnvironment, WriteManifest} ==>
                  QUESTIONS < i && (resumes ==> i < |trace| - 1))
  {
    var trace := TraceOf(asked, k, resumes);
    if i < asked {
      assert trace[i] == Question(i);
    } else if i < asked + k {
      assert trace[i] == Step(i - QUESTIONS);
    }
  }
}
