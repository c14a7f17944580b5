/**
 The audit log: every event stores a hash of its content together with the hash of the event before it.
 Hashes are free terms, so two of them are equal only if they were made from the same parts. The time of
 an event is not part of its hash.
 */
module AuditChain {
  import opened Basics

  datatype Body = Body(actor: Option<nat>, action: string, targetType: string, targetId: string, details: string)

  /** `Foreign` stands for any text that is not the hash of an event. */
  datatype Hash = Genesis | Foreign(text: string) | Chained(previous: Hash, sequence: int, body: Body)

  datatype Event = Event(body: Body, occurredAt: int, sequence: int, previous: Hash, recorded: Hash)

  /** The same event, apart from its time. */
  predicate Same(a: Event, b: Event) {
    a.(occurredAt := 0) == b.(occurredAt := 0)
  }

  function HashBefore(events: seq<Event>, i: nat): Hash
    requires i <= |events|
  {
    if i == 0 then Genesis else events[i - 1].recorded
  }

  predicate IsLinked(events: seq<Event>, i: nat)
    requires i < |events|
  {
    && events[i].sequence == i && events[i].previous == HashBefore(events, i)
    && events[i].recorded == Chained(events[i].previous, i, events[i].body)
  }

  /** The events, in the order of their sequence numbers, form an unbroken chain. */
  predicate Intact(events: seq<Event>) {
    forall i | 0 <= i < |events| :: IsLinked(events, i)
  }

  lemma FrontIsIntact(events: seq<Event>, n: nat)
    requires n <= |events| && forall k | 0 <= k < n :: IsLinked(events, k)
    ensures Intact(events[..n])
  {
    forall k | 0 <= k < n ensures IsLinked(events[..n], k) {
      assert IsLinked(events, k);
    }
  }

  class AuditLog {
    var events: seq<Event>

    constructor ()
      ensures events == []
    {
      events := [];
    }

    /** Appends an event that goes on from the last one. */
    method RecordEvent(body: Body, now: int)
      modifies this
      ensures |events| == |old(events)| + 1 && events[..|old(events)|] == old(events)
      ensures var e := events[|old(events)|]; e.body == body && e.occurredAt == now
      ensures Intact(old(events)) ==> Intact(events)
    {
      var sequence := if events == [] then 0 else events[|events| - 1].sequence + 1;
      var previous := if events == [] then Genesis else events[|events| - 1].recorded;
      ghost var before := events;
      events := events + [Event(body, now, sequence, previous, Chained(previous, sequence, body))];
      if Intact(before) {
        assert before != [] ==> IsLinked(before, |before| - 1);
        forall i | 0 <= i < |events| ensures IsLinked(events, i) {
          if i < |before| {
            assert IsLinked(before, i);
          }
        }
      }
    }

    /** Goes through the chain; it says that the chain is intact, or names the first event that is not linked. */
    method VerifyAuditChain() returns (ok: bool, first: Option<nat>)
      ensures ok <==> Intact(events)
      ensures ok <==> first.None?
      ensures first.Some? ==> first.value < |events| && !IsLinked(events, first.value) && Intact(events[..first.value])
    {
      var expectedHash := Genesis;
      var expectedSequence := 0;
      for i := 0 to |events|
        invariant expectedSequence == i && expectedHash == HashBefore(events, i)
        invariant forall k | 0 <= k < i :: IsLinked(events, k)
      {
        var e := events[i];
        FrontIsIntact(events, i);
        if e.sequence != expectedSequence || e.previous != expectedHash {
          assert !IsLinked(events, i);
          return false, Some(i);
        }
        if Chained(e.previous, e.sequence, e.body) != e.recorded {
          assert !IsLinked(events, i);
          return false, Some(i);
        }
        expectedHash := e.recorded;
        expectedSequence := expectedSequence + 1;
      }
      return true, None;
    }
  }

  /** Two intact logs with a hash in common have the same events up to there: one remembered hash vouches for all before it. */
  lemma {:induction false} OneHashVouchesForAllBefore(a: seq<Event>, b: seq<Event>, k: nat, l: nat)
    requires Intact(a) && Intact(b) && k < |a| && l < |b| && a[k].recorded == b[l].recorded
    ensures k == l && forall i | 0 <= i <= k :: Same(a[i], b[i])
  {
    assert IsLinked(a, k) && IsLinked(b, l);
    if k > 0 {
      OneHashVouchesForAllBefore(a, b, k - 1, l - 1);
    }
  }

  /**
   An altered event goes unnoticed exactly when nothing but its time was altered, or when it is the
   last one and its hash was computed anew.
   */
  lemma AlterationIsNoticedExactly(events: seq<Event>, i: nat, other: Event)
    requires Intact(events) && i < |events|
    ensures Intact(events[i := other]) <==>
            Same(other, events[i]) || (i == |events| - 1 && IsLinked(events[i := other], i))
  {
    var altered := events[i := other];
    assert IsLinked(events, i);
    if Intact(altered) {
      assert IsLinked(altered, i);
      if i + 1 < |events| {
        assert IsLinked(altered, i + 1) && IsLinked(events, i + 1);
      }
    }
    if Same(other, events[i]) || (i == |events| - 1 && IsLinked(altered, i)) {
      forall k | 0 <= k < |altered| ensures IsLinked(altered, k) {
        assert IsLinked(events, k);
      }
    }
  }

  /** Removing events is noticed exactly when events are left behind the gap: cutting off the end never is. */
  lemma RemovalIsNoticedExactly(events: seq<Event>, i: nat, j: nat)
    requires Intact(events) && i < j <= |events|
    ensures Intact(events[..i] + events[j..]) <==> j == |events|
  {
    var left := events[..i] + events[j..];
    if j < |events| {
      assert left[i] == events[j] && IsLinked(events, j);
      assert !IsLinked(left, i);
    } else {
      forall k | 0 <= k < |left| ensures IsLinked(left, k) {
        assert IsLinked(events, k);
      }
    }
  }
}
