/**
 Executing the two plans: every planned action ends in exactly one of the three reports, and the
 cached branch tips lead to the decisions that looking up every tip would lead to.
 */
module ReconcilerExecution {
  import opened Basics
  import opened Reconciler

  /** Why an action was only reported. */
  datatype Skip = DryRunCancel(id: int) | BranchGone(id: int) | TipMoved(id: int) | DryRunRetry(id: int)

  /** What became of one planned action. */
  datatype Fate = Performed | Skipped(why: Skip) | Failed

  /** How a failing request ends: with the error the loops catch, or with one that ends the program. */
  datatype Problem = Caught | Uncaught

  /** The decision for a candidate whose branch has this tip. */
  function Decide(tip: Option<string>, run: Run, dryRun: bool): Option<Skip> {
    if tip.None? then Some(BranchGone(run.id))
    else if tip.value != run.sha then Some(TipMoved(run.id))
    else if dryRun then Some(DryRunRetry(run.id))
    else None
  }

  /** A request with what came back. */
  datatype Sent =
    | Looked(branch: string, tip: Result<Option<string>, Problem>)
    | Posted(kind: Kind, id: int, answer: Result<(), Problem>)

  /** The server. `tips` holds the branch tips; while they are `stable`, each answered lookup reads them. */
  class Server {
    const stable: bool
    const tips: map<string, string>
    ghost var requests: seq<Sent>

    constructor (stable: bool, tips: map<string, string>)
      ensures this.stable == stable && this.tips == tips && requests == []
    {
      this.stable, this.tips, requests := stable, tips, [];
    }

    function Tip(branch: string): Option<string> {
      if branch in tips then Some(tips[branch]) else None
    }

    method BranchTip(branch: string) returns (r: Result<Option<string>, Problem>)
      modifies this`requests
      ensures requests == old(requests) + [Looked(branch, r)]
      ensures r.Ok? && stable ==> r.value == Tip(branch)
    {
      var answered: bool := *;
      var problem: Problem := *;
      var seen: Option<string> := *;
      r := if !answered then Err(problem) else Ok(if stable then Tip(branch) else seen);
      requests := requests + [Looked(branch, r)];
    }

    method Post(kind: Kind, id: int) returns (r: Result<(), Problem>)
      modifies this`requests
      ensures requests == old(requests) + [Posted(kind, id, r)]
    {
      var problem: Problem := *;
      var accepted: bool := *;
      r := if accepted then Ok(()) else Err(problem);
      requests := requests + [Posted(kind, id, r)];
    }
  }

  // ---------------------------------------------------------------------------------------------
  // What the requests add up to
  // ---------------------------------------------------------------------------------------------

  /** What the answer to its request makes of an action; nothing if it ends the program. */
  function FateOf(answer: Result<(), Problem>): Option<Fate> {
    if answer.Ok? then Some(Performed) else if answer.error.Caught? then Some(Failed) else None
  }

  /** The actions whose requests were accepted, in the order of the requests. */
  function Accepted(own: seq<Sent>): seq<(Kind, int)> {
    if own == [] then []
    else
      var last := own[|own| - 1];
      Accepted(own[..|own| - 1]) + (if last.Posted? && last.answer.Ok? then [(last.kind, last.id)] else [])
  }

  predicate FailsWith(s: Sent, problem: Problem) {
    if s.Looked? then s.tip == Err(problem) else s.answer == Err(problem)
  }

  /** How many requests failed with an error that is caught. */
  function Failures(own: seq<Sent>): nat {
    if own == [] then 0 else Failures(own[..|own| - 1]) + (if FailsWith(own[|own| - 1], Caught) then 1 else 0)
  }

  predicate EndsProgram(own: seq<Sent>) {
    own != [] && FailsWith(own[|own| - 1], Uncaught)
  }

  lemma {:induction false} TotalsAdd(a: seq<Sent>, b: seq<Sent>)
    ensures Accepted(a + b) == Accepted(a) + Accepted(b) && Failures(a + b) == Failures(a) + Failures(b)
  {
    if b == [] {
      assert a + b == a;
    } else {
      assert (a + b)[..|a + b| - 1] == a + b[..|b| - 1];
      TotalsAdd(a, b[..|b| - 1]);
    }
  }

  lemma OneSent(s: Sent)
    ensures Accepted([s]) == (if s.Posted? && s.answer.Ok? then [(s.kind, s.id)] else [])
    ensures Failures([s]) == if FailsWith(s, Caught) then 1 else 0
  {
    assert [s][..0] == [];
  }

  lemma TwoSent(s: Sent, t: Sent)
    ensures Accepted([s, t]) == Accepted([s]) + Accepted([t]) && Failures([s, t]) == Failures([s]) + Failures([t])
    ensures Accepted([s]) == (if s.Posted? && s.answer.Ok? then [(s.kind, s.id)] else [])
    ensures Failures([s]) == if FailsWith(s, Caught) then 1 else 0
    ensures Accepted([t]) == (if t.Posted? && t.answer.Ok? then [(t.kind, t.id)] else [])
    ensures Failures([t]) == if FailsWith(t, Caught) then 1 else 0
  {
    assert [s, t] == [s] + [t];
    TotalsAdd([s], [t]);
    OneSent(s);
    OneSent(t);
  }

  function KeysOf(actions: seq<Action>): (keys: seq<(Kind, int)>)
    ensures |keys| == |actions| && forall i | 0 <= i < |actions| :: keys[i] == (actions[i].kind, actions[i].id)
  {
    seq(|actions|, i requires 0 <= i < |actions| => (actions[i].kind, actions[i].id))
  }

  predicate OnlyLookups(own: seq<Sent>) {
    forall s | s in own :: s.Looked?
  }

  /** The report is what the requests add up to: the accepted actions in their order, and the caught failures. */
  predicate Tells(report: Report, own: seq<Sent>) {
    Accepted(own) == KeysOf(report.performed) && Failures(own) == report.errors
  }

  /** The reports of `main`, with the fate of every action that was worked on. */
  datatype Report = Report(performed: seq<Action>, skipped: seq<Skip>, errors: nat)

  function Extended(report: Report, action: Action, fate: Fate): Report {
    match fate
    case Performed => report.(performed := report.performed + [action])
    case Skipped(why) => report.(skipped := report.skipped + [why])
    case Failed => report.(errors := report.errors + 1)
  }

  /** The report that belongs to the fates of the first actions. */
  function ReportOf(actions: seq<Action>, fates: seq<Fate>): Report
    requires |fates| <= |actions|
    decreases |fates|
  {
    if fates == [] then Report([], [], 0)
    else
      var n := |fates| - 1;
      Extended(ReportOf(actions, fates[..n]), actions[n], fates[n])
  }

  lemma {:induction false} ReportCountsEveryAction(actions: seq<Action>, fates: seq<Fate>)
    requires |fates| <= |actions|
    ensures var r := ReportOf(actions, fates); |r.performed| + |r.skipped| + r.errors == |fates|
    ensures forall a | a in ReportOf(actions, fates).performed ::
            exists i | 0 <= i < |fates| :: fates[i] == Performed && actions[i] == a
    ensures (forall i | 0 <= i < |fates| :: fates[i] != Performed) ==> ReportOf(actions, fates).performed == []
    decreases |fates|
  {
    if fates != [] {
      var front := fates[..|fates| - 1];
      ReportCountsEveryAction(actions, front);
      forall a | a in ReportOf(actions, fates).performed
        ensures exists i | 0 <= i < |fates| :: fates[i] == Performed && actions[i] == a
      {
        if a in ReportOf(actions, front).performed {
          var i :| 0 <= i < |front| && front[i] == Performed && actions[i] == a;
          assert fates[i] == Performed;
        } else {
          assert fates[|front|] == Performed && actions[|front|] == a;
        }
      }
    }
  }

  lemma OneMoreFate(actions: seq<Action>, fates: seq<Fate>, fate: Fate)
    requires |fates| < |actions|
    ensures ReportOf(actions, fates + [fate]) == Extended(ReportOf(actions, fates), actions[|fates|], fate)
  {
    assert (fates + [fate])[..|fates|] == fates;
  }

  function ActionsOf(candidates: seq<(Action, Run)>): (actions: seq<Action>)
    ensures |actions| == |candidates|
    ensures forall i | 0 <= i < |candidates| :: actions[i] == candidates[i].0
  {
    seq(|candidates|, i requires 0 <= i < |candidates| => candidates[i].0)
  }

  /** The requests of the cancellations so far: one for each, in order, and each fate is that of its answer. */
  predicate AreCancelled(actions: seq<Action>, own: seq<Sent>, fates: seq<Fate>)
    requires |fates| <= |actions|
  {
    && |own| == |fates|
    && forall i | 0 <= i < |fates| ::
         own[i].Posted? && own[i].kind == actions[i].kind && own[i].id == actions[i].id
           && Some(fates[i]) == FateOf(own[i].answer)
  }

  /**
   The cancellation loop. `fates` tells what became of each action it reached, by the answers to its
   requests; it reaches all of them unless one of these ends the program.
   */
  method ExecuteCancellations(server: Server, actions: seq<Action>, dryRun: bool)
    returns (report: Report, finished: bool, ghost fates: seq<Fate>, ghost own: seq<Sent>)
    modifies server`requests
    ensures server.requests == old(server.requests) + own
    ensures |fates| <= |actions| && report == ReportOf(actions, fates)
    ensures finished ==> |fates| == |actions|
    ensures dryRun ==> finished && own == [] && forall i | 0 <= i < |fates| :: fates[i] == Skipped(DryRunCancel(actions[i].id))
    ensures !dryRun && finished ==> AreCancelled(actions, own, fates)
    ensures !finished ==>
              && |own| == |fates| + 1 <= |actions| && AreCancelled(actions, own[..|fates|], fates)
              && own[|fates|] == Posted(actions[|fates|].kind, actions[|fates|].id, Err(Uncaught))
  {
    report := Report([], [], 0);
    fates, own := [], [];
    for i := 0 to |actions|
      invariant |fates| == i && report == ReportOf(actions, fates)
      invariant server.requests == old(server.requests) + own
      invariant dryRun ==> own == [] && forall j | 0 <= j < i :: fates[j] == Skipped(DryRunCancel(actions[j].id))
      invariant !dryRun ==> AreCancelled(actions, own, fates)
    {
      var fate;
      ghost var sent;
      fate, sent := CancelOne(server, actions[i], dryRun);
      assert own + sent == own || (own + sent)[..i] == own;
      own := own + sent;
      if fate.None? {
        return report, false, fates, own;
      }
      OneMoreFate(actions, fates, fate.value);
      report := Extended(report, actions[i], fate.value);
      fates := fates + [fate.value];
    }
    finished := true;
  }

  /** One turn of the cancellation loop. */
  method CancelOne(server: Server, action: Action, dryRun: bool) returns (fate: Option<Fate>, ghost sent: seq<Sent>)
    modifies server`requests
    ensures server.requests == old(server.requests) + sent
    ensures if dryRun then sent == [] && fate == Some(Skipped(DryRunCancel(action.id)))
            else |sent| == 1 && sent[0].Posted? && sent[0].kind == action.kind && sent[0].id == action.id && fate == FateOf(sent[0].answer)
  {
    if dryRun {
      return Some(Skipped(DryRunCancel(action.id))), [];
    }
    var done := server.Post(action.kind, action.id);
    fate, sent := FateOf(done), [Posted(action.kind, action.id, done)];
  }

  lemma KeysGrow(actions: seq<Action>, action: Action)
    ensures KeysOf(actions + [action]) == KeysOf(actions) + [(action.kind, action.id)]
  {
  }

  /** One more action, with the requests of its own that decided its fate. */
  lemma TellsOneMore(report: Report, own: seq<Sent>, more: seq<Sent>, action: Action, fate: Fate)
    requires Tells(report, own) && Decides(more, action, Some(fate))
    ensures Tells(Extended(report, action, fate), own + more)
  {
    TotalsAdd(own, more);
    DecidedTotals(more, action, Some(fate));
    KeysGrow(report.performed, action);
  }

  lemma DecidedTotals(more: seq<Sent>, action: Action, fate: Option<Fate>)
    requires Decides(more, action, fate)
    ensures Accepted(more) == if fate == Some(Performed) then [(action.kind, action.id)] else []
    ensures Failures(more) == if fate == Some(Failed) then 1 else 0
  {
    if |more| == 1 {
      assert more == [more[0]];
      OneSent(more[0]);
    } else if |more| == 2 {
      TwoSent(more[0], more[1]);
      assert more == [more[0], more[1]];
    }
  }

  /** The report of the cancellations is what their requests add up to. */
  lemma {:induction false} CancellationsTell(actions: seq<Action>, own: seq<Sent>, fates: seq<Fate>)
    requires |fates| <= |actions| && AreCancelled(actions, own, fates)
    ensures Tells(ReportOf(actions, fates), own)
  {
    if fates != [] {
      var n := |fates| - 1;
      CancellationsTell(actions, own[..n], fates[..n]);
      assert own == own[..n] + [own[n]];
      TellsOneMore(ReportOf(actions, fates[..n]), own[..n], [own[n]], actions[n], fates[n]);
    }
  }

  /** The same when the last request ended the program. */
  lemma BrokenCancellationsTell(actions: seq<Action>, own: seq<Sent>, fates: seq<Fate>)
    requires |own| == |fates| + 1 <= |actions| && AreCancelled(actions, own[..|fates|], fates)
    requires own[|fates|] == Posted(actions[|fates|].kind, actions[|fates|].id, Err(Uncaught))
    ensures Tells(ReportOf(actions, fates), own)
    ensures forall k | 0 <= k < |own| :: own[k].Posted? && own[k].kind == actions[k].kind && own[k].id == actions[k].id
  {
    var front, last := own[..|fates|], own[|fates|];
    CancellationsTell(actions, front, fates);
    assert own == front + [last] && forall k | 0 <= k < |fates| :: own[k] == front[k];
    TotalsAdd(front, [last]);
    OneSent(last);
  }

  lemma {:induction false} SkippedTell(actions: seq<Action>, fates: seq<Fate>)
    requires |fates| <= |actions| && forall i | 0 <= i < |fates| :: fates[i].Skipped?
    ensures Tells(ReportOf(actions, fates), [])
  {
    if fates != [] {
      SkippedTell(actions, fates[..|fates| - 1]);
    }
  }

  /** At most an answered lookup, and then at most one request for the action, decide its fate. */
  predicate Decides(more: seq<Sent>, action: Action, fate: Option<Fate>) {
    if more == [] then fate.Some? && fate.value.Skipped?
    else
      var last := more[|more| - 1];
      && |more| <= 2 && (|more| == 2 ==> more[0].Looked? && more[0].tip.Ok?)
      && match last
         case Posted(kind, id, answer) => kind == action.kind && id == action.id && fate == FateOf(answer)
         case Looked(_, tip) =>
           |more| == 1 && if tip.Ok? then fate.Some? && fate.value.Skipped? else fate == if tip.error.Caught? then Some(Failed) else None
  }

  // ---------------------------------------------------------------------------------------------
  // The retries
  // ---------------------------------------------------------------------------------------------

  /** The tip that the last answered lookup of the branch told, if there was one. */
  function KnownTip(own: seq<Sent>, branch: string): Option<Option<string>> {
    if own == [] then None
    else
      var last := own[|own| - 1];
      if last.Looked? && last.branch == branch && last.tip.Ok? then Some(last.tip.value) else KnownTip(own[..|own| - 1], branch)
  }

  /**
   The requests of one candidate and what they make of it: a lookup only if the tip is not known, no
   more if that fails, and a request to retry exactly if the tip allows it.
   */
  predicate IsTurn(known: Option<Option<string>>, run: Run, dryRun: bool, own: seq<Sent>, fate: Option<Fate>)
    requires run.branch.Some?
  {
    if known.Some? then IsDecided(known.value, run, dryRun, own, fate)
    else
      && own != [] && own[0].Looked? && own[0].branch == run.branch.value
      && match own[0].tip
         case Ok(tip) => IsDecided(tip, run, dryRun, own[1..], fate)
         case Err(problem) => |own| == 1 && fate == if problem.Caught? then Some(Failed) else None
  }

  predicate IsDecided(tip: Option<string>, run: Run, dryRun: bool, rest: seq<Sent>, fate: Option<Fate>) {
    match Decide(tip, run, dryRun)
    case Some(why) => rest == [] && fate == Some(Skipped(why))
    case None => |rest| == 1 && rest[0].Posted? && rest[0].kind == Retry && rest[0].id == run.id && fate == FateOf(rest[0].answer)
  }

  function Flatten(turns: seq<seq<Sent>>): seq<Sent> {
    if turns == [] then [] else Flatten(turns[..|turns| - 1]) + turns[|turns| - 1]
  }

  function FateAt(fates: seq<Fate>, i: nat): Option<Fate> {
    if i < |fates| then Some(fates[i]) else None
  }

  predicate HaveBranches(candidates: seq<(Action, Run)>) {
    forall i | 0 <= i < |candidates| :: candidates[i].0 == RetryOf(candidates[i].1) && candidates[i].1.branch.Some?
  }

  /** Every turn is that of its candidate, with the tips known from the turns before it. */
  predicate AreTurns(candidates: seq<(Action, Run)>, dryRun: bool, turns: seq<seq<Sent>>, fates: seq<Fate>)
    requires HaveBranches(candidates) && |turns| <= |candidates|
  {
    if turns == [] then true
    else
      var n := |turns| - 1;
      && AreTurns(candidates, dryRun, turns[..n], fates)
      && IsTurn(KnownTip(Flatten(turns[..n]), candidates[n].1.branch.value), candidates[n].1, dryRun, turns[n], FateAt(fates, n))
  }

  lemma {:induction false} MoreFates(
      candidates: seq<(Action, Run)>, dryRun: bool, turns: seq<seq<Sent>>, fates: seq<Fate>, fate: Fate)
    requires HaveBranches(candidates) && |turns| <= |fates| && |turns| <= |candidates|
    requires AreTurns(candidates, dryRun, turns, fates)
    ensures AreTurns(candidates, dryRun, turns, fates + [fate])
  {
    if turns != [] {
      MoreFates(candidates, dryRun, turns[..|turns| - 1], fates, fate);
    }
  }

  lemma {:induction false} KnownAfter(own: seq<Sent>, more: seq<Sent>, branch: string)
    ensures KnownTip(own + more, branch) ==
            if KnownTip(more, branch).Some? then KnownTip(more, branch) else KnownTip(own, branch)
  {
    if more == [] {
      assert own + more == own;
    } else {
      assert (own + more)[..|own + more| - 1] == own + more[..|more| - 1];
      KnownAfter(own, more[..|more| - 1], branch);
    }
  }

  /** The cache holds exactly the tips that are known. */
  ghost predicate CacheSound(cache: map<string, Option<string>>, own: seq<Sent>) {
    forall b :: KnownTip(own, b) == if b in cache then Some(cache[b]) else None
  }

  /** With a stable server, the answered lookups told its tips. */
  predicate Honest(server: Server, own: seq<Sent>) {
    server.stable ==> forall s | s in own && s.Looked? && s.tip.Ok? :: s.tip.value == server.Tip(s.branch)
  }

  /** The fate of a candidate that agrees with the tip of its branch, failures aside. */
  predicate Follows(fate: Fate, tip: Option<string>, run: Run, dryRun: bool) {
    match Decide(tip, run, dryRun)
    case Some(why) => fate == Skipped(why) || fate == Failed
    case None => fate == Performed || fate == Failed
  }

  /** One turn of the retry loop; `fate` is None when the program ends with an uncaught error. */
  method RetryOne(
      server: Server, cache: map<string, Option<string>>, action: Action, run: Run, dryRun: bool, ghost before: seq<Sent>)
    returns (fate: Option<Fate>, next: map<string, Option<string>>, ghost own: seq<Sent>)
    requires action == RetryOf(run) && run.branch.Some? && CacheSound(cache, before)
    modifies server`requests
    ensures server.requests == old(server.requests) + own && Honest(server, own)
    ensures IsTurn(KnownTip(before, run.branch.value), run, dryRun, own, fate)
    ensures CacheSound(next, before + own)
  {
    var branch := action.branch.value;
    var found;
    found, next, own := TipOf(server, cache, branch, before);
    if found.Err? {
      return if found.error.Caught? then Some(Failed) else None, next, own;
    }
    ghost var rest;
    fate, rest := RetryAt(server, action, run, found.value, dryRun);
    PostsKeepCache(next, before, own, rest);
    if own == [] {
      assert own + rest == rest;
    } else {
      assert (own + rest)[1..] == rest;
    }
    own := own + rest;
  }

  /** The request for a candidate whose branch has this tip, if it allows one. */
  method RetryAt(server: Server, action: Action, run: Run, tip: Option<string>, dryRun: bool)
    returns (fate: Option<Fate>, ghost rest: seq<Sent>)
    requires action == RetryOf(run)
    modifies server`requests
    ensures server.requests == old(server.requests) + rest && IsDecided(tip, run, dryRun, rest, fate)
  {
    rest := [];
    if tip.None? {
      return Some(Skipped(BranchGone(action.id))), rest;
    }
    if tip.value != run.sha {
      return Some(Skipped(TipMoved(action.id))), rest;
    }
    if dryRun {
      return Some(Skipped(DryRunRetry(action.id))), rest;
    }
    var done := server.Post(action.kind, action.id);
    fate, rest := FateOf(done), [Posted(action.kind, action.id, done)];
  }

  /** The tip from the cache, or from a lookup that fills it. */
  method TipOf(server: Server, cache: map<string, Option<string>>, branch: string, ghost before: seq<Sent>)
    returns (found: Result<Option<string>, Problem>, next: map<string, Option<string>>, ghost own: seq<Sent>)
    requires CacheSound(cache, before)
    modifies server`requests
    ensures server.requests == old(server.requests) + own && CacheSound(next, before + own) && Honest(server, own)
    ensures if KnownTip(before, branch).Some? then own == [] && found == Ok(KnownTip(before, branch).value)
            else own == [Looked(branch, found)]
  {
    next, own := cache, [];
    assert before + own == before;
    if branch in next {
      return Ok(next[branch]), next, own;
    }
    found := server.BranchTip(branch);
    own := [Looked(branch, found)];
    if found.Ok? {
      next := next[branch := found.value];
    }
    assert (before + own)[..|before|] == before;
  }

  lemma {:induction false} PostsAreUnknown(posts: seq<Sent>, branch: string)
    requires OnlyPosts(posts)
    ensures KnownTip(posts, branch).None?
  {
    if posts != [] {
      assert posts[|posts| - 1] in posts;
      PostsAreUnknown(posts[..|posts| - 1], branch);
    }
  }

  lemma PostsKeepCache(cache: map<string, Option<string>>, before: seq<Sent>, own: seq<Sent>, posts: seq<Sent>)
    requires CacheSound(cache, before + own) && OnlyPosts(posts)
    ensures CacheSound(cache, before + (own + posts))
  {
    forall b ensures KnownTip(before + (own + posts), b) == KnownTip(before + own, b) {
      assert before + (own + posts) == (before + own) + posts;
      KnownAfter(before + own, posts, b);
      PostsAreUnknown(posts, b);
    }
  }

  /** A turn decides the fate of its candidate by at most one lookup and one request. */
  lemma TurnDecides(known: Option<Option<string>>, run: Run, dryRun: bool, own: seq<Sent>, fate: Option<Fate>)
    requires run.branch.Some? && IsTurn(known, run, dryRun, own, fate)
    ensures Decides(own, RetryOf(run), fate) && (dryRun ==> OnlyLookups(own))
    ensures known.Some? ==> OnlyPosts(own)
  {
    if known.None? && own[0].tip.Ok? {
      assert own == [own[0]] + own[1..];
    }
  }

  predicate OnlyPosts(own: seq<Sent>) {
    forall s | s in own :: s.Posted?
  }

  /** No branch is looked up again once a lookup of it was answered. */
  predicate AnsweredOnce(own: seq<Sent>) {
    forall i, j | 0 <= i < j < |own| && own[i].Looked? && own[j].Looked? && own[i].branch == own[j].branch :: own[i].tip.Err?
  }

  lemma {:induction false} UnknownWasNotAnswered(own: seq<Sent>, branch: string, i: nat)
    requires KnownTip(own, branch).None? && i < |own| && own[i].Looked? && own[i].branch == branch
    ensures own[i].tip.Err?
  {
    if i < |own| - 1 {
      UnknownWasNotAnswered(own[..|own| - 1], branch, i);
    }
  }

  /** In every run of turns, a branch is looked up again only after its lookups failed; a dry run only looks up. */
  lemma {:induction false} TurnsAnswerOnce(
      candidates: seq<(Action, Run)>, dryRun: bool, turns: seq<seq<Sent>>, fates: seq<Fate>)
    requires HaveBranches(candidates) && |turns| <= |candidates|
    requires AreTurns(candidates, dryRun, turns, fates)
    ensures AnsweredOnce(Flatten(turns)) && (dryRun ==> OnlyLookups(Flatten(turns)))
  {
    if turns != [] {
      var n := |turns| - 1;
      var before, own := Flatten(turns[..n]), turns[n];
      var run := candidates[n].1;
      TurnsAnswerOnce(candidates, dryRun, turns[..n], fates);
      TurnDecides(KnownTip(before, run.branch.value), run, dryRun, own, FateAt(fates, n));
      var all := before + own;
      forall i, j | 0 <= i < j < |all| && all[i].Looked? && all[j].Looked? && all[i].branch == all[j].branch
        ensures all[i].tip.Err?
      {
        if j >= |before| {
          assert own[j - |before|] in own;
          assert j == |before|;
          UnknownWasNotAnswered(before, run.branch.value, i);
        }
      }
    }
  }

  /** The report of the retries is what their requests add up to. */
  lemma {:induction false} TurnsTell(candidates: seq<(Action, Run)>, dryRun: bool, turns: seq<seq<Sent>>, fates: seq<Fate>)
    requires HaveBranches(candidates) && |turns| == |fates| <= |candidates|
    requires AreTurns(candidates, dryRun, turns, fates)
    ensures Tells(ReportOf(ActionsOf(candidates), fates), Flatten(turns))
  {
    if turns != [] {
      var n := |turns| - 1;
      EarlierTurns(candidates, dryRun, turns, fates);
      TurnsTell(candidates, dryRun, turns[..n], fates[..n]);
      LastTurnTells(candidates, dryRun, turns, fates);
    }
  }

  lemma EarlierTurns(candidates: seq<(Action, Run)>, dryRun: bool, turns: seq<seq<Sent>>, fates: seq<Fate>)
    requires HaveBranches(candidates) && 0 < |turns| == |fates| <= |candidates|
    requires AreTurns(candidates, dryRun, turns, fates)
    ensures var n := |turns| - 1; AreTurns(candidates, dryRun, turns[..n], fates[..n])
  {
    TurnIsDecided(candidates, dryRun, turns, fates);
    FewerFates(candidates, dryRun, turns[..|turns| - 1], fates, |turns| - 1);
  }

  lemma LastTurnTells(candidates: seq<(Action, Run)>, dryRun: bool, turns: seq<seq<Sent>>, fates: seq<Fate>)
    requires HaveBranches(candidates) && 0 < |turns| == |fates| <= |candidates|
    requires AreTurns(candidates, dryRun, turns, fates)
    requires var n := |turns| - 1; Tells(ReportOf(ActionsOf(candidates), fates[..n]), Flatten(turns[..n]))
    ensures Tells(ReportOf(ActionsOf(candidates), fates), Flatten(turns))
  {
    var n := |turns| - 1;
    TurnIsDecided(candidates, dryRun, turns, fates);
    TellsOneMore(ReportOf(ActionsOf(candidates), fates[..n]), Flatten(turns[..n]), turns[n], candidates[n].0, fates[n]);
  }

  lemma TurnIsDecided(candidates: seq<(Action, Run)>, dryRun: bool, turns: seq<seq<Sent>>, fates: seq<Fate>)
    requires HaveBranches(candidates) && 0 < |turns| <= |candidates| && AreTurns(candidates, dryRun, turns, fates)
    ensures var n := |turns| - 1;
            Decides(turns[n], candidates[n].0, FateAt(fates, n)) && AreTurns(candidates, dryRun, turns[..n], fates)
  {
    var n := |turns| - 1;
    TurnDecides(KnownTip(Flatten(turns[..n]), candidates[n].1.branch.value), candidates[n].1, dryRun, turns[n], FateAt(fates, n));
  }

  /** The same when the last turn ended the program. */
  lemma BrokenTurnsTell(candidates: seq<(Action, Run)>, dryRun: bool, turns: seq<seq<Sent>>, fates: seq<Fate>)
    requires HaveBranches(candidates) && |turns| == |fates| + 1 <= |candidates|
    requires AreTurns(candidates, dryRun, turns, fates)
    ensures Tells(ReportOf(ActionsOf(candidates), fates), Flatten(turns))
  {
    var n := |turns| - 1;
    TurnIsDecided(candidates, dryRun, turns, fates);
    TurnsTell(candidates, dryRun, turns[..n], fates);
    TotalsAdd(Flatten(turns[..n]), turns[n]);
    DecidedTotals(turns[n], candidates[n].0, None);
  }

  lemma {:induction false} FewerFates(
      candidates: seq<(Action, Run)>, dryRun: bool, turns: seq<seq<Sent>>, fates: seq<Fate>, n: nat)
    requires HaveBranches(candidates) && |turns| <= n <= |fates| && |turns| <= |candidates|
    requires AreTurns(candidates, dryRun, turns, fates)
    ensures AreTurns(candidates, dryRun, turns, fates[..n])
  {
    if turns != [] {
      FewerFates(candidates, dryRun, turns[..|turns| - 1], fates, n);
    }
  }

  predicate AllFollow(server: Server, candidates: seq<(Action, Run)>, fates: seq<Fate>, dryRun: bool)
    requires HaveBranches(candidates) && |fates| <= |candidates|
  {
    forall i | 0 <= i < |fates| :: Follows(fates[i], server.Tip(candidates[i].1.branch.value), candidates[i].1, dryRun)
  }

  lemma {:induction false} KnownIsHonest(server: Server, own: seq<Sent>, branch: string)
    requires server.stable && Honest(server, own) && KnownTip(own, branch).Some?
    ensures KnownTip(own, branch).value == server.Tip(branch)
  {
    assert own[|own| - 1] in own;
    if !(own[|own| - 1].Looked? && own[|own| - 1].branch == branch && own[|own| - 1].tip.Ok?) {
      KnownIsHonest(server, own[..|own| - 1], branch);
    }
  }

  /** With stable tips, every candidate is decided as a lookup of its own would decide it, failures aside. */
  lemma {:induction false} TurnsFollow(
      server: Server, candidates: seq<(Action, Run)>, dryRun: bool, turns: seq<seq<Sent>>, fates: seq<Fate>, n: nat)
    requires HaveBranches(candidates) && n <= |turns| <= |candidates| && n <= |fates| && server.stable
    requires AreTurns(candidates, dryRun, turns, fates) && Honest(server, Flatten(turns))
    ensures AllFollow(server, candidates, fates[..n], dryRun)
    decreases |turns|
  {
    if n > 0 {
      var k := |turns| - 1;
      var before, run := Flatten(turns[..k]), candidates[k].1;
      assert forall s :: s in before || s in turns[k] ==> s in Flatten(turns);
      TurnsFollow(server, candidates, dryRun, turns[..k], fates, Min(n, k));
      if n == |turns| {
        if KnownTip(before, run.branch.value).Some? {
          KnownIsHonest(server, before, run.branch.value);
        } else {
          assert turns[k][0] in turns[k];
        }
        assert Follows(fates[k], server.Tip(run.branch.value), run, dryRun);
      }
    }
  }

  /**
   The retry loop. The requests of every candidate are those of its turn, and decide its fate: it is
   performed exactly if its request was accepted, and failed exactly if that request, or a lookup of
   its own branch, failed. With stable tips a candidate is decided as a lookup of its own would decide.
   */
  method ExecuteRetries(server: Server, candidates: seq<(Action, Run)>, dryRun: bool)
    returns (report: Report, finished: bool, ghost fates: seq<Fate>, ghost turns: seq<seq<Sent>>)
    requires HaveBranches(candidates)
    modifies server`requests
    ensures server.requests == old(server.requests) + Flatten(turns)
    ensures |fates| <= |candidates| && report == ReportOf(ActionsOf(candidates), fates) && Tells(report, Flatten(turns))
    ensures |turns| == |fates| + (if finished then 0 else 1) <= |candidates| && (finished ==> |fates| == |candidates|)
    ensures AreTurns(candidates, dryRun, turns, fates)
    ensures server.stable ==> AllFollow(server, candidates, fates, dryRun)
  {
    report, finished, fates, turns := RunTurns(server, candidates, dryRun);
    if finished {
      TurnsTell(candidates, dryRun, turns, fates);
    } else {
      BrokenTurnsTell(candidates, dryRun, turns, fates);
    }
    if server.stable {
      TurnsFollow(server, candidates, dryRun, turns, fates, |fates|);
    }
  }

  method RunTurns(server: Server, candidates: seq<(Action, Run)>, dryRun: bool)
    returns (report: Report, finished: bool, ghost fates: seq<Fate>, ghost turns: seq<seq<Sent>>)
    requires HaveBranches(candidates)
    modifies server`requests
    ensures server.requests == old(server.requests) + Flatten(turns) && Honest(server, Flatten(turns))
    ensures |fates| <= |candidates| && report == ReportOf(ActionsOf(candidates), fates)
    ensures |turns| == |fates| + (if finished then 0 else 1) <= |candidates| && (finished ==> |fates| == |candidates|)
    ensures AreTurns(candidates, dryRun, turns, fates)
  {
    report := Report([], [], 0);
    var cache: map<string, Option<string>> := map[];
    fates, turns := [], [];
    for i := 0 to |candidates|
      invariant |fates| == i == |turns| && report == ReportOf(ActionsOf(candidates), fates)
      invariant server.requests == old(server.requests) + Flatten(turns) && Honest(server, Flatten(turns))
      invariant CacheSound(cache, Flatten(turns)) && AreTurns(candidates, dryRun, turns, fates)
    {
      var fate;
      fate, cache, turns := TakeTurn(server, cache, candidates, i, dryRun, turns, fates, old(server.requests));
      if fate.None? {
        return report, false, fates, turns;
      }
      OneMoreFate(ActionsOf(candidates), fates, fate.value);
      report := Extended(report, candidates[i].0, fate.value);
      fates := fates + [fate.value];
    }
    finished := true;
  }

  /** The turn of the next candidate. */
  method TakeTurn(server: Server, cache: map<string, Option<string>>, candidates: seq<(Action, Run)>, n: nat, dryRun: bool,
                  ghost turns: seq<seq<Sent>>, ghost fates: seq<Fate>, ghost before: seq<Sent>)
    returns (fate: Option<Fate>, next: map<string, Option<string>>, ghost more: seq<seq<Sent>>)
    requires HaveBranches(candidates) && |turns| == |fates| == n < |candidates| && AreTurns(candidates, dryRun, turns, fates)
    requires server.requests == before + Flatten(turns) && Honest(server, Flatten(turns)) && CacheSound(cache, Flatten(turns))
    modifies server`requests
    ensures server.requests == before + Flatten(more) && Honest(server, Flatten(more)) && CacheSound(next, Flatten(more))
    ensures |more| == |turns| + 1 && AreTurns(candidates, dryRun, more, if fate.Some? then fates + [fate.value] else fates)
  {
    ghost var own;
    fate, next, own := RetryOne(server, cache, candidates[n].0, candidates[n].1, dryRun, Flatten(turns));
    TurnAdded(candidates, dryRun, turns, fates, own, fate);
    more := turns + [own];
    assert before + Flatten(turns) + own == before + Flatten(more);
  }

  lemma TurnAdded(
      candidates: seq<(Action, Run)>, dryRun: bool, turns: seq<seq<Sent>>, fates: seq<Fate>, own: seq<Sent>,
      fate: Option<Fate>)
    requires HaveBranches(candidates) && |turns| == |fates| < |candidates| && AreTurns(candidates, dryRun, turns, fates)
    requires IsTurn(KnownTip(Flatten(turns), candidates[|turns|].1.branch.value), candidates[|turns|].1, dryRun, own, fate)
    ensures Flatten(turns + [own]) == Flatten(turns) + own
    ensures AreTurns(candidates, dryRun, turns + [own], if fate.Some? then fates + [fate.value] else fates)
  {
    assert (turns + [own])[..|turns|] == turns;
    if fate.Some? {
      MoreFates(candidates, dryRun, turns, fates, fate.value);
    }
  }

  // ---------------------------------------------------------------------------------------------
  // What is sent, on the runs and their texts
  // ---------------------------------------------------------------------------------------------

  /** An answered lookup, before place k, told this tip of the branch. */
  ghost predicate WasTip(own: seq<Sent>, k: nat, branch: Option<string>, sha: string) {
    exists l | 0 <= l < |own| && l < k :: own[l].Looked? && branch == Some(own[l].branch) && own[l].tip == Ok(Some(sha))
  }

  /**
   The request at place k is one that may be sent: to cancel a waiting run that has a newer one, or to
   retry a failed run whose commit an earlier lookup still found at the tip of its branch.
   */
  ghost predicate AllowedAt(own: seq<Sent>, k: nat, runs: seq<Run>, current: int)
    requires k < |own|
  {
    match own[k]
    case Looked(_, _) => true
    case Posted(Cancel, id, _) => exists i: nat, n: nat | MayCancel(runs, current, i, n) :: runs[i].id == id
    case Posted(Retry, id, _) => exists i: nat, n: nat | MayRetry(runs, current, i, n) ::
      runs[i].id == id && WasTip(own, k, runs[i].branch, runs[i].sha)
  }

  ghost predicate AllAllowed(own: seq<Sent>, runs: seq<Run>, current: int) {
    forall k | 0 <= k < |own| :: AllowedAt(own, k, runs, current)
  }

  lemma AllowedTogether(a: seq<Sent>, b: seq<Sent>, runs: seq<Run>, current: int)
    requires AllAllowed(a, runs, current) && AllAllowed(b, runs, current)
    ensures AllAllowed(a + b, runs, current)
  {
    forall k | 0 <= k < |a + b| ensures AllowedAt(a + b, k, runs, current) {
      if k < |a| {
        assert AllowedAt(a, k, runs, current);
        StillTip(a, b, k);
      } else {
        assert AllowedAt(b, k - |a|, runs, current);
        TipBehind(a, b, k - |a|);
      }
    }
  }

  lemma StillTip(a: seq<Sent>, b: seq<Sent>, k: nat)
    ensures forall branch, sha | WasTip(a, k, branch, sha) :: WasTip(a + b, k, branch, sha)
  {
    forall branch, sha | WasTip(a, k, branch, sha) ensures WasTip(a + b, k, branch, sha) {
      var l :| 0 <= l < |a| && l < k && a[l].Looked? && branch == Some(a[l].branch) && a[l].tip == Ok(Some(sha));
      assert (a + b)[l] == a[l];
    }
  }

  lemma TipBehind(a: seq<Sent>, b: seq<Sent>, k: nat)
    ensures forall branch, sha | WasTip(b, k, branch, sha) :: WasTip(a + b, |a| + k, branch, sha)
  {
    forall branch, sha | WasTip(b, k, branch, sha) ensures WasTip(a + b, |a| + k, branch, sha) {
      var l :| 0 <= l < |b| && l < k && b[l].Looked? && branch == Some(b[l].branch) && b[l].tip == Ok(Some(sha));
      assert (a + b)[|a| + l] == b[l];
    }
  }

  lemma {:induction false} KnownWasLooked(own: seq<Sent>, branch: string, sha: string)
    requires KnownTip(own, branch) == Some(Some(sha))
    ensures WasTip(own, |own|, Some(branch), sha)
  {
    var n := |own| - 1;
    if own[n].Looked? && own[n].branch == branch && own[n].tip.Ok? {
      assert own[n].tip == Ok(Some(sha));
    } else {
      KnownWasLooked(own[..n], branch, sha);
      StillTip(own[..n], [own[n]], n);
      assert own == own[..n] + [own[n]];
    }
  }

  lemma CancellationsAreAllowed(actions: seq<Action>, own: seq<Sent>, runs: seq<Run>, current: int)
    requires actions == Cancellations(runs, runs, current) && |own| <= |actions|
    requires forall k | 0 <= k < |own| :: own[k].Posted? && own[k].kind == actions[k].kind && own[k].id == actions[k].id
    ensures AllAllowed(own, runs, current)
  {
    forall k | 0 <= k < |own| ensures AllowedAt(own, k, runs, current) {
      assert actions[k] in actions;
      CancelsExactly(runs, current, actions[k]);
    }
  }

  /** The turns of the retries ask only for runs that may be retried, at their tip. */
  lemma {:induction false} TurnsAreAllowed(
      candidates: seq<(Action, Run)>, dryRun: bool, turns: seq<seq<Sent>>, fates: seq<Fate>, runs: seq<Run>, current: int)
    requires HaveBranches(candidates) && |turns| <= |candidates| && AreTurns(candidates, dryRun, turns, fates)
    requires forall i | 0 <= i < |candidates| :: candidates[i].1 in Candidates(runs, runs, current)
    ensures AllAllowed(Flatten(turns), runs, current)
  {
    if turns != [] {
      var n := |turns| - 1;
      var before, own, run := Flatten(turns[..n]), turns[n], candidates[n].1;
      TurnsAreAllowed(candidates, dryRun, turns[..n], fates, runs, current);
      RetriesExactly(runs, current, run);
      assert run in Candidates(runs, runs, current);
      forall k | 0 <= k < |before + own| ensures AllowedAt(before + own, k, runs, current) {
        if k < |before| {
          assert AllowedAt(before, k, runs, current);
          StillTip(before, own, k);
        } else {
          TurnIsAllowed(before, run, dryRun, own, FateAt(fates, n), k - |before|);
        }
      }
    }
  }

  lemma DecidedPost(tip: Option<string>, run: Run, dryRun: bool, rest: seq<Sent>, fate: Option<Fate>)
    requires IsDecided(tip, run, dryRun, rest, fate) && rest != []
    ensures |rest| == 1 && rest[0].Posted? && rest[0].kind == Retry && rest[0].id == run.id
    ensures tip == Some(run.sha) && !dryRun
  {
  }

  lemma TurnIsAllowed(before: seq<Sent>, run: Run, dryRun: bool, own: seq<Sent>, fate: Option<Fate>, k: nat)
    requires run.branch.Some? && IsTurn(KnownTip(before, run.branch.value), run, dryRun, own, fate) && k < |own|
    ensures own[k].Posted? ==>
              && !dryRun && own[k].kind == Retry && own[k].id == run.id
              && WasTip(before + own, |before| + k, run.branch, run.sha)
  {
    var known := KnownTip(before, run.branch.value);
    if own[k].Posted? && known.Some? {
      DecidedPost(known.value, run, dryRun, own, fate);
      KnownWasLooked(before, run.branch.value, run.sha);
      StillTip(before, own, |before|);
    } else if own[k].Posted? {
      assert own[1..] != [] by {
        assert own[0].Looked?;
      }
      DecidedPost(own[0].tip.value, run, dryRun, own[1..], fate);
      assert own[k] == own[1..][k - 1];
      assert (before + own)[|before|] == own[0];
    }
  }

  /**
   Both loops. The performed actions are exactly the requests that were accepted, in their order, and
   the errors the requests that failed. When the loops run to their end, performed, skipped and failed
   actions together are as many as were planned, and the exit code is 1 exactly when one failed. A dry
   run sends nothing but lookups. Every request, refused or not, is for a waiting run that has a newer one
   or for a failed run whose commit is still the tip: work in progress is never touched.
   */
  method Reconcile(server: Server, runs: seq<Run>, current: int, dryRun: bool)
    returns (code: Option<int>, performed: seq<Action>, skipped: seq<Skip>, errors: nat, ghost own: seq<Sent>)
    modifies server
    ensures server.requests == old(server.requests) + own
    ensures Accepted(own) == KeysOf(performed) && Failures(own) == errors
    ensures var planned := |Cancellations(runs, runs, current)| + |Candidates(runs, runs, current)|;
            && |performed| + |skipped| + errors <= planned
            && (code.Some? ==> |performed| + |skipped| + errors == planned)
    ensures code.Some? ==> code.value == if errors > 0 then 1 else 0
    ensures dryRun ==> performed == [] && OnlyLookups(own)
    ensures ArePlanned(performed, runs, current)
    ensures AllAllowed(own, runs, current)
  {
    var first, finished, sent := CancelAll(server, runs, current, dryRun);
    performed, skipped, errors, own := first.performed, first.skipped, first.errors, sent;
    if !finished {
      return None, performed, skipped, errors, own;
    }
    var second, completed, later := RetryAll(server, runs, current, dryRun);
    TotalsAdd(sent, later);
    KeysAdd(first.performed, second.performed);
    AllowedTogether(sent, later, runs, current);
    own := own + later;
    performed, skipped, errors := performed + second.performed, skipped + second.skipped, errors + second.errors;
    code := if !completed then None else Some(if errors > 0 then 1 else 0);
  }

  lemma KeysAdd(a: seq<Action>, b: seq<Action>)
    ensures KeysOf(a + b) == KeysOf(a) + KeysOf(b)
  {
  }

  function Total(report: Report): nat {
    |report.performed| + |report.skipped| + report.errors
  }

  predicate ArePlanned(performed: seq<Action>, runs: seq<Run>, current: int) {
    forall a | a in performed ::
      if a.kind == Cancel then a in Cancellations(runs, runs, current) else IsCandidate(a, runs, current)
  }

  predicate IsCandidate(a: Action, runs: seq<Run>, current: int) {
    exists r | r in Candidates(runs, runs, current) :: a == RetryOf(r)
  }

  /** The plan of cancellations and its loop. */
  method CancelAll(server: Server, runs: seq<Run>, current: int, dryRun: bool)
    returns (report: Report, finished: bool, ghost own: seq<Sent>)
    modifies server
    ensures server.requests == old(server.requests) + own && Tells(report, own)
    ensures Total(report) <= |Cancellations(runs, runs, current)|
            && (finished ==> Total(report) == |Cancellations(runs, runs, current)|)
    ensures dryRun ==> report.performed == [] && own == []
    ensures ArePlanned(report.performed, runs, current) && AllAllowed(own, runs, current)
  {
    var actions := PlanSupersededCancellations(runs, current);
    CancellationsAre(runs, runs, current);
    ghost var fates;
    report, finished, fates, own := ExecuteCancellations(server, actions, dryRun);
    ReportCountsEveryAction(actions, fates);
    if dryRun {
      SkippedTell(actions, fates);
    } else if finished {
      CancellationsTell(actions, own, fates);
    } else {
      BrokenCancellationsTell(actions, own, fates);
    }
    CancellationsAreAllowed(actions, own, runs, current);
    forall a | a in report.performed ensures a in Cancellations(runs, runs, current) && a.kind == Cancel {
      var i :| 0 <= i < |fates| && actions[i] == a;
    }
  }

  /** The plan of retries and its loop. */
  method RetryAll(server: Server, runs: seq<Run>, current: int, dryRun: bool)
    returns (report: Report, finished: bool, ghost own: seq<Sent>)
    modifies server
    ensures server.requests == old(server.requests) + own && Tells(report, own)
    ensures Total(report) <= |Candidates(runs, runs, current)|
            && (finished ==> Total(report) == |Candidates(runs, runs, current)|)
    ensures dryRun ==> report.performed == [] && OnlyLookups(own)
    ensures ArePlanned(report.performed, runs, current) && AllAllowed(own, runs, current)
  {
    var candidates := PlanRetryCandidates(runs, current);
    CandidatesAre(runs, runs, current);
    assert forall i | 0 <= i < |candidates| :: Candidates(runs, runs, current)[i] in Candidates(runs, runs, current);
    ghost var fates, turns;
    report, finished, fates, turns := ExecuteRetries(server, candidates, dryRun);
    own := Flatten(turns);
    ReportCountsEveryAction(ActionsOf(candidates), fates);
    TurnsAnswerOnce(candidates, dryRun, turns, fates);
    RetriedAreCandidates(candidates, fates, runs, current);
    TurnsAreAllowed(candidates, dryRun, turns, fates, runs, current);
    if dryRun {
      NothingAccepted(own);
    }
  }

  lemma {:induction false} NothingAccepted(own: seq<Sent>)
    requires OnlyLookups(own)
    ensures Accepted(own) == []
  {
    if own != [] {
      assert own[|own| - 1] in own;
      NothingAccepted(own[..|own| - 1]);
    }
  }

  lemma RetriedAreCandidates(candidates: seq<(Action, Run)>, fates: seq<Fate>, runs: seq<Run>, current: int)
    requires |fates| <= |candidates| == |Candidates(runs, runs, current)|
    requires forall i | 0 <= i < |candidates| ::
             candidates[i] == (RetryOf(Candidates(runs, runs, current)[i]), Candidates(runs, runs, current)[i])
    ensures ArePlanned(ReportOf(ActionsOf(candidates), fates).performed, runs, current)
  {
    ReportCountsEveryAction(ActionsOf(candidates), fates);
    forall a | a in ReportOf(ActionsOf(candidates), fates).performed
      ensures a.kind == Retry && IsCandidate(a, runs, current)
    {
      var i :| 0 <= i < |fates| && ActionsOf(candidates)[i] == a;
      assert candidates[i].1 in Candidates(runs, runs, current);
    }
  }
}
