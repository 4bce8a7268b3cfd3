/** What the dispatch passes visit, over every script of callbacks. */
module EventWalk {
  import opened Options
  import opened Tailq
  import opened EventState
  import opened EventInvariant
  import opened EventPass

  /** The pass looked at the event among its first `n` visits. */
  ghost predicate Seen(v: seq<Visit>, n: nat, x: Id) {
    exists k :: 0 <= k < n && k < |v| && v[k].e == x
  }

  lemma {:induction false} SeenLater(v: seq<Visit>, n: nat, x: Id)
    requires v != [] && Seen(v[1..], n, x)
    ensures Seen(v, n + 1, x)
  {
    var k :| 0 <= k < n && k < |v[1..]| && v[1..][k].e == x;
    assert v[k + 1].e == x;
  }

  /** Every state of a walk, and its end, comes after its beginning. */
  lemma {:induction false} WalkWithin(base: State, cur: Option<Id>, ready: set<int>, v: seq<Visit>, end: State)
    requires Walk(base, cur, ready, v, end)
    requires v != []
    ensures Within(v[0].s, end)
    ensures forall k :: 0 < k < |v| ==> Within(v[0].s, v[k].s)
    decreases |v|
  {
    var next := Begin(v[1..], end);
    if |v| > 1 {
      WalkWithin(base, Link(v[0].s, v[0].e), ready, v[1..], end);
      WithinTrans(v[0].s, next, end);
      forall k | 0 < k < |v| ensures Within(v[0].s, v[k].s) {
        assert v[k] == v[1..][k - 1];
        if k > 1 {
          WithinTrans(v[0].s, next, v[k].s);
        }
      }
    }
  }

  /** Every later visit is of an event inserted strictly later than the first. */
  lemma {:induction false} WalkFrom(base: State, cur: Option<Id>, ready: set<int>, v: seq<Visit>, end: State, k: nat)
    requires Walk(base, cur, ready, v, end) && k < |v|
    ensures if k == 0 then v[0].e == cur.value else Stamp(base, cur.value) < Stamp(base, v[k].e)
    decreases k
  {
    if k > 0 {
      var n := Link(v[0].s, v[0].e);
      assert v[k] == v[1..][k - 1];
      WalkFrom(base, n, ready, v[1..], end, k - 1);
      assert At(v[0].s.link, v[0].e) == n;
    }
  }

  /** The rest of a walk is a walk. */
  lemma {:induction false} WalkDrop(base: State, cur: Option<Id>, ready: set<int>, v: seq<Visit>, end: State, i: nat)
    requires Walk(base, cur, ready, v, end) && i < |v|
    ensures Walk(base, Some(v[i].e), ready, v[i..], end)
    decreases i
  {
    if i > 0 {
      WalkDrop(base, Link(v[0].s, v[0].e), ready, v[1..], end, i - 1);
      assert v[1..][i - 1..] == v[i..];
    } else {
      assert v[0..] == v;
    }
  }

  /** Visits are in strictly increasing order of insertion: no event is visited twice. */
  lemma {:induction false} WalkAscends(base: State, cur: Option<Id>, ready: set<int>, v: seq<Visit>, end: State, i: nat, j: nat)
    requires Walk(base, cur, ready, v, end) && i < j < |v|
    ensures Stamp(base, v[i].e) < Stamp(base, v[j].e)
  {
    WalkDrop(base, cur, ready, v, end, i);
    assert v[j] == v[i..][j - i];
    WalkFrom(base, Some(v[i].e), ready, v[i..], end, j - i);
  }

  /** A walk that starts in the queue of its start never leaves it. */
  lemma {:induction false} WalkStays(base: State, cur: Option<Id>, ready: set<int>, v: seq<Visit>, end: State)
    requires Walk(base, cur, ready, v, end) && (cur.Some? ==> cur.value in base.readq)
    ensures forall k :: 0 <= k < |v| ==> v[k].e in base.readq
    decreases |v|
  {
    if v != [] {
      WalkStays(base, Link(v[0].s, v[0].e), ready, v[1..], end);
      assert forall k :: 0 < k < |v| ==> v[k] == v[1..][k - 1];
    }
  }

  /** A called event is on neither queue at the end. */
  lemma {:induction false} WalkCalledGone(base: State, cur: Option<Id>, ready: set<int>, v: seq<Visit>, end: State)
    requires Walk(base, cur, ready, v, end)
    ensures forall k :: 0 <= k < |v| && v[k].called ==> v[k].e !in end.readq && v[k].e !in end.writeq
    decreases |v|
  {
    if v != [] {
      WalkCalledGone(base, Link(v[0].s, v[0].e), ready, v[1..], end);
      if |v| > 1 {
        WalkWithin(base, Link(v[0].s, v[0].e), ready, v[1..], end);
      }
      assert forall k :: 0 < k < |v| ==> v[k] == v[1..][k - 1];
    }
  }

  /** Stepping along a link loses only the event just visited. */
  lemma StepAhead(base: State, s: State, e: Id, z: Id)
    requires InOrder(base.h.stamp, base.readq) && OnPath(base, s)
    requires e in base.readq && z in s.readq && Stamp(base, e) <= Stamp(base, z) && z != e
    ensures Link(s, e).Some? && Stamp(base, Link(s, e).value) <= Stamp(base, z) && Link(s, e).value in base.readq
  {
    var i :| 0 <= i < |base.readq| && base.readq[i] == e;
    assert z in base.readq;
    var j :| 0 <= j < |base.readq| && base.readq[j] == z;
    assert Count(base.h.stamp, base.readq[i]) != Count(base.h.stamp, base.readq[j]);
    assert At(s.link, e).Some? && Count(base.h.stamp, At(s.link, e).value) <= Count(base.h.stamp, z);
  }

  /** Completeness at the end: an event that the pass leaves queued has been visited. */
  lemma {:induction false} WalkReaches(base: State, cur: Option<Id>, ready: set<int>, v: seq<Visit>, end: State, z: Id)
    requires InOrder(base.h.stamp, base.readq) && Walk(base, cur, ready, v, end)
    requires cur.Some? && cur.value in base.readq && Stamp(base, cur.value) <= Stamp(base, z) && z in end.readq
    ensures Seen(v, |v|, z)
    decreases |v|
  {
    WalkWithin(base, cur, ready, v, end);
    if z == v[0].e {
      assert v[0].e == z;
    } else {
      StepAhead(base, v[0].s, v[0].e, z);
      WalkReaches(base, Link(v[0].s, v[0].e), ready, v[1..], end, z);
      SeenLater(v, |v| - 1, z);
    }
  }

  /**
   Completeness on the way: an event that is queued when the pass has come to an event
   behind it has been visited before.
   */
  lemma {:induction false} WalkComplete(base: State, cur: Option<Id>, ready: set<int>, v: seq<Visit>, end: State,
                                        z: Id, k: nat)
    requires InOrder(base.h.stamp, base.readq) && Walk(base, cur, ready, v, end)
    requires cur.Some? && cur.value in base.readq && Stamp(base, cur.value) <= Stamp(base, z)
    requires k < |v| && z in v[k].s.readq && Stamp(base, z) < Stamp(base, v[k].e)
    ensures Seen(v, k, z)
    decreases |v|
  {
    if k > 0 {
      WalkWithin(base, cur, ready, v, end);
      if z == v[0].e {
        assert v[0].e == z;
      } else {
        StepAhead(base, v[0].s, v[0].e, z);
        assert v[1..][k - 1] == v[k];
        WalkComplete(base, Link(v[0].s, v[0].e), ready, v[1..], end, z, k - 1);
        SeenLater(v, k - 1, z);
      }
    }
  }
}
