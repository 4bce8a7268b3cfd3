/** What every library operation keeps: flags mirror queues, links, stamps, deadline order. */
module EventInvariant {
  import opened Options
  import opened Tailq
  import opened Timeval
  import opened EventState

  /** The flag bit is set exactly when the event is on the queue, once. */
  ghost predicate Mirrors(ev: map<Id, Event>, f: Flag, q: seq<Id>) {
    Distinct(q) && forall e :: f in Get(ev, e).flags <==> e in q
  }

  ghost predicate Mirrored(s: State) {
    && Mirrors(s.ev, READ, s.readq)
    && Mirrors(s.ev, WRITE, s.writeq)
    && Mirrors(s.ev, TIMEOUT, s.timeq)
    && Mirrors(s.ev, ADD, s.addq)
  }

  /** The links of queued events thread the queue. */
  ghost predicate Threaded(link: map<Id, Option<Id>>, q: seq<Id>) {
    forall i {:trigger At(link, q[i])} :: 0 <= i < |q| ==> At(link, q[i]) == IdAt(q, i + 1)
  }

  /** Every link, live or stale, leads to an event that entered the queue later. */
  ghost predicate Ascending(link: map<Id, Option<Id>>, stamp: map<Id, nat>) {
    forall x {:trigger At(link, x)} :: At(link, x).Some? ==> 0 < Count(stamp, x) < Count(stamp, At(link, x).value)
  }

  ghost predicate Bounded(stamp: map<Id, nat>, n: nat) {
    forall x :: Count(stamp, x) <= n
  }

  /** The queue is in order of insertion. */
  ghost predicate InOrder(stamp: map<Id, nat>, q: seq<Id>) {
    && (forall x :: x in q ==> 0 < Count(stamp, x))
    && (forall i, j :: 0 <= i < j < |q| ==> Count(stamp, q[i]) < Count(stamp, q[j]))
  }

  /** Earlier deadline, or the same deadline armed more recently. */
  ghost predicate Before(ev: map<Id, Event>, armed: map<Id, nat>, x: Id, y: Id) {
    var dx, dy := Get(ev, x).deadline, Get(ev, y).deadline;
    Less(dx, dy) || (dx == dy && Count(armed, x) > Count(armed, y))
  }

  ghost predicate Sorted(ev: map<Id, Event>, armed: map<Id, nat>, q: seq<Id>) {
    forall i, j :: 0 <= i < j < |q| ==> Before(ev, armed, q[i], q[j])
  }

  ghost predicate Linked(s: State) {
    && Threaded(s.link, s.readq)
    && Ascending(s.link, s.h.stamp)
    && Bounded(s.h.stamp, s.h.inserts)
    && InOrder(s.h.stamp, s.readq)
  }

  ghost predicate Timed(s: State) {
    Bounded(s.h.armed, s.h.arms) && Sorted(s.ev, s.h.armed, s.timeq)
  }

  ghost predicate Inv(s: State) {
    Mirrored(s) && Linked(s) && Timed(s)
  }

  lemma StartInv()
    ensures Inv(START)
  {}

  // ----- removals ----------------------------------------------------------------

  /** Taking an element out keeps any pairwise order. */
  lemma {:induction false} WithoutOrder(q: seq<Id>, e: Id, i: nat, j: nat) returns (i': nat, j': nat)
    requires Distinct(q) && i < j < |Without(q, e)|
    ensures i' < j' < |q| && Without(q, e)[i] == q[i'] && Without(q, e)[j] == q[j']
  {
    i', j' := i, j;
    if e in q {
      var k := IndexOf(q, e);
      i', j' := if i < k then i else i + 1, if j < k then j else j + 1;
      WithoutAt(q, e, i);
      WithoutAt(q, e, j);
    }
  }

  /** Rewriting one record with the flag clear mirrors the queue without the event. */
  lemma {:induction false} MirrorsRemove(ev: map<Id, Event>, f: Flag, q: seq<Id>, e: Id, v: Event)
    requires Mirrors(ev, f, q) && f !in v.flags
    ensures Mirrors(ev[e := v], f, Without(q, e))
  {
    WithoutKeeps(q, e);
    forall x ensures f in Get(ev[e := v], x).flags <==> x in Without(q, e) {
      assert f in Get(ev, x).flags <==> x in q;
    }
  }

  lemma {:induction false} WithoutSorted(ev: map<Id, Event>, armed: map<Id, nat>, q: seq<Id>, e: Id)
    requires Sorted(ev, armed, q) && Distinct(q)
    ensures Sorted(ev, armed, Without(q, e))
  {
    forall i, j | 0 <= i < j < |Without(q, e)| ensures Before(ev, armed, Without(q, e)[i], Without(q, e)[j]) {
      var i', j' := WithoutOrder(q, e, i, j);
      assert Before(ev, armed, q[i'], q[j']);
    }
  }

  /** Removing an event from the read queue moves its predecessor's link past it. */
  lemma {:induction false} UnlinkThreads(link: map<Id, Option<Id>>, q: seq<Id>, e: Id)
    requires Threaded(link, q) && Distinct(q)
    ensures Threaded(Unlink(link, q, e), Without(q, e))
  {
    if e in q {
      var link', q', k := Unlink(link, q, e), Without(q, e), IndexOf(q, e);
      assert At(link, q[k]) == IdAt(q, k + 1);
      forall i | 0 <= i < |q'| ensures At(link', q'[i]) == IdAt(q', i + 1) {
        var j := if i < k then i else i + 1;
        assert q'[i] == q[j];
        assert At(link, q[j]) == IdAt(q, j + 1);
        assert i + 1 < |q'| ==> q'[i + 1] == q[if i + 1 < k then i + 1 else i + 2];
      }
    }
  }

  lemma {:induction false} UnlinkAscends(link: map<Id, Option<Id>>, stamp: map<Id, nat>, q: seq<Id>, e: Id)
    requires Threaded(link, q) && Distinct(q) && Ascending(link, stamp)
    ensures Ascending(Unlink(link, q, e), stamp)
  {
    if e in q && IndexOf(q, e) > 0 {
      var link', k := Unlink(link, q, e), IndexOf(q, e);
      var p := q[k - 1];
      assert At(link, q[k - 1]) == IdAt(q, k);
      forall x | At(link', x).Some? ensures 0 < Count(stamp, x) < Count(stamp, At(link', x).value) {
        assert At(link', x) == if x == p then At(link, e) else At(link, x);
      }
    }
  }

  lemma {:induction false} WithoutInOrder(stamp: map<Id, nat>, q: seq<Id>, e: Id)
    requires InOrder(stamp, q) && Distinct(q)
    ensures InOrder(stamp, Without(q, e))
  {
    WithoutKeeps(q, e);
    forall i, j | 0 <= i < j < |Without(q, e)|
      ensures Count(stamp, Without(q, e)[i]) < Count(stamp, Without(q, e)[j])
    {
      var i', j' := WithoutOrder(q, e, i, j);
    }
  }

  lemma EventDelInv(s: State, e: Id)
    requires Inv(s)
    ensures Inv(EventDel(s, e))
  {
    var v := Ev(s, e).(flags := Ev(s, e).flags - {ADD, TIMEOUT, READ, WRITE});
    MirrorsRemove(s.ev, READ, s.readq, e, v);
    MirrorsRemove(s.ev, WRITE, s.writeq, e, v);
    MirrorsRemove(s.ev, TIMEOUT, s.timeq, e, v);
    MirrorsRemove(s.ev, ADD, s.addq, e, v);
    UnlinkThreads(s.link, s.readq, e);
    UnlinkAscends(s.link, s.h.stamp, s.readq, e);
    WithoutInOrder(s.h.stamp, s.readq, e);
    WithoutSorted(s.ev, s.h.armed, s.timeq, e);
    SameDeadlinesSorted(s.ev, s.h.armed, Without(s.timeq, e), e, v);
  }

  lemma NoteInv(s: State, op: Op)
    requires Inv(s)
    ensures Inv(Note(s, op))
  {}

  // ----- insertions --------------------------------------------------------------

  /** Inserting a freshly armed event at its place keeps the deadline order. */
  lemma {:induction false} PlaceSorts(ev: map<Id, Event>, armed: map<Id, nat>, q: seq<Id>, e: Id, n: nat, v: Event)
    requires Sorted(ev, armed, q) && Bounded(armed, n) && e !in q
    ensures var k := Place(ev, q, v.deadline);
      Sorted(ev[e := v], armed[e := n + 1], q[..k] + [e] + q[k..])
  {
    var k := Place(ev, q, v.deadline);
    PlacedSorts(ev, ev[e := v], armed, armed[e := n + 1], q, e, n, k);
  }

  lemma {:induction false} PlacedSorts(ev: map<Id, Event>, ev': map<Id, Event>, armed: map<Id, nat>, armed': map<Id, nat>,
                    q: seq<Id>, e: Id, n: nat, k: nat)
    requires Sorted(ev, armed, q) && Bounded(armed, n) && e !in q && k <= |q|
    requires Count(armed', e) == n + 1 && forall x :: x != e ==> Count(armed', x) == Count(armed, x)
    requires forall x :: x != e ==> Get(ev', x) == Get(ev, x)
    requires forall i :: 0 <= i < k ==> Less(Get(ev, q[i]).deadline, Get(ev', e).deadline)
    requires k < |q| ==> Leq(Get(ev', e).deadline, Get(ev, q[k]).deadline)
    ensures Sorted(ev', armed', q[..k] + [e] + q[k..])
  {
    var t := q[..k] + [e] + q[k..];
    forall i, j | 0 <= i < j < |t| ensures Before(ev', armed', t[i], t[j]) {
      var i0, j0 := if i < k then i else i - 1, if j < k then j else j - 1;
      assert t[i] == if i == k then e else q[i0];
      assert t[j] == if j == k then e else q[j0];
      if i != k && j != k {
        assert Before(ev, armed, q[i0], q[j0]);
      } else if i == k && k < j0 {
        assert Before(ev, armed, q[k], q[j0]);
      }
    }
  }

  lemma {:induction false} Bump(m: map<Id, nat>, n: nat, e: Id)
    requires Bounded(m, n)
    ensures Bounded(m[e := n + 1], n + 1)
  {
    var m' := m[e := n + 1];
    forall x ensures Count(m', x) <= n + 1 {
      assert Count(m, x) <= n;
    }
  }

  /** Rewriting one record keeps a mirror when it leaves that flag as it was. */
  lemma {:induction false} MirrorsSame(ev: map<Id, Event>, f: Flag, q: seq<Id>, e: Id, v: Event)
    requires Mirrors(ev, f, q) && (f in v.flags <==> f in Get(ev, e).flags)
    ensures Mirrors(ev[e := v], f, q)
  {
    forall x ensures f in Get(ev[e := v], x).flags <==> x in q {
      assert f in Get(ev, x).flags <==> x in q;
    }
  }

  /** Rewriting one record with the flag set mirrors the queue with the event put in anywhere. */
  lemma {:induction false} MirrorsInsert(ev: map<Id, Event>, f: Flag, q: seq<Id>, t: seq<Id>, k: nat, e: Id, v: Event)
    requires Mirrors(ev, f, q) && Distinct(t) && e !in t && k <= |t| && f in v.flags
    requires forall x :: x in t <==> x in q && x != e
    ensures Mirrors(ev[e := v], f, t[..k] + [e] + t[k..])
  {
    var t' := t[..k] + [e] + t[k..];
    assert t == t[..k] + t[k..];
    assert forall x :: x in t' <==> x == e || x in t;
    forall x ensures f in Get(ev[e := v], x).flags <==> x in t' {
      assert f in Get(ev, x).flags <==> x in q;
    }
  }

  lemma {:induction false} ArmMirrors(s: State, e: Id, d: Time, i: nat)
    requires Mirrored(s) && i <= |Without(s.timeq, e)|
    ensures Mirrored(ArmAt(s, e, d, i))
  {
    var v := Ev(s, e).(deadline := d, flags := Ev(s, e).flags + {TIMEOUT});
    WithoutKeeps(s.timeq, e);
    MirrorsInsert(s.ev, TIMEOUT, s.timeq, Without(s.timeq, e), i, e, v);
    MirrorsSame(s.ev, READ, s.readq, e, v);
    MirrorsSame(s.ev, WRITE, s.writeq, e, v);
    MirrorsSame(s.ev, ADD, s.addq, e, v);
  }

  lemma ArmSorts(s: State, e: Id, d: Time)
    requires Timed(s) && Distinct(s.timeq)
    ensures Timed(Arm(s, e, d))
  {
    WithoutKeeps(s.timeq, e);
    WithoutSorted(s.ev, s.h.armed, s.timeq, e);
    PlaceSorts(s.ev, s.h.armed, Without(s.timeq, e), e, s.h.arms,
               Ev(s, e).(deadline := d, flags := Ev(s, e).flags + {TIMEOUT}));
    Bump(s.h.armed, s.h.arms, e);
  }

  lemma ArmInv(s: State, e: Id, d: Time)
    requires Inv(s)
    ensures Inv(Arm(s, e, d))
  {
    ArmMirrors(s, e, d, Place(s.ev, Without(s.timeq, e), d));
    ArmSorts(s, e, d);
  }

  lemma PostponeInv(s: State, e: Id)
    requires Inv(s)
    ensures Inv(Postpone(s, e))
  {
    if ADD !in Ev(s, e).flags {
      TailMirrors(s, ADD, s.addq, e);
    }
  }

  /** Setting a flag and appending to its queue touches no other mirror and no deadline. */
  lemma {:induction false} TailMirrors(s: State, f: Flag, q: seq<Id>, e: Id)
    requires Inv(s) && Mirrors(s.ev, f, q) && f !in Ev(s, e).flags && f != TIMEOUT
    ensures var ev := SetFlag(s, e, f).ev;
      && Mirrors(ev, f, q + [e])
      && (f != READ ==> Mirrors(ev, READ, s.readq))
      && (f != WRITE ==> Mirrors(ev, WRITE, s.writeq))
      && (f != ADD ==> Mirrors(ev, ADD, s.addq))
      && Mirrors(ev, TIMEOUT, s.timeq)
      && Sorted(ev, s.h.armed, s.timeq)
  {
    var v := Ev(s, e).(flags := Ev(s, e).flags + {f});
    MirrorsInsert(s.ev, f, q, q, |q|, e, v);
    assert q[..|q|] + [e] + q[|q|..] == q + [e];
    if f != READ { MirrorsSame(s.ev, READ, s.readq, e, v); }
    if f != WRITE { MirrorsSame(s.ev, WRITE, s.writeq, e, v); }
    if f != ADD { MirrorsSame(s.ev, ADD, s.addq, e, v); }
    MirrorsSame(s.ev, TIMEOUT, s.timeq, e, v);
    SameDeadlinesSorted(s.ev, s.h.armed, s.timeq, e, v);
  }

  lemma {:induction false} SameDeadlinesSorted(ev: map<Id, Event>, armed: map<Id, nat>, q: seq<Id>, e: Id, v: Event)
    requires Sorted(ev, armed, q) && (e in q ==> v.deadline == Get(ev, e).deadline)
    ensures Sorted(ev[e := v], armed, q)
  {
    forall i, j | 0 <= i < j < |q| ensures Before(ev[e := v], armed, q[i], q[j]) {
      assert Before(ev, armed, q[i], q[j]);
    }
  }

  lemma {:induction false} TailThreads(link: map<Id, Option<Id>>, stamp: map<Id, nat>, n: nat, q: seq<Id>, e: Id)
    requires Threaded(link, q) && Ascending(link, stamp) && Bounded(stamp, n) && InOrder(stamp, q)
    requires Distinct(q) && e !in q
    ensures Threaded(LinkTail(link, q, e), q + [e])
    ensures Ascending(LinkTail(link, q, e), stamp[e := n + 1])
  {
    var link', q', stamp' := LinkTail(link, q, e), q + [e], stamp[e := n + 1];
    forall i | 0 <= i < |q'| ensures At(link', q'[i]) == IdAt(q', i + 1) {
      if i < |q| {
        assert At(link, q[i]) == IdAt(q, i + 1);
      }
    }
    forall x | At(link', x).Some? ensures 0 < Count(stamp', x) < Count(stamp', At(link', x).value) {
      assert x != e;
      if q == [] || x != q[|q| - 1] {
        assert At(link', x) == At(link, x);
      }
    }
  }

  lemma AddReadInv(s: State, e: Id)
    requires Inv(s)
    ensures Inv(AddRead(s, e))
  {
    if READ in Ev(s, e).events && READ !in Ev(s, e).flags {
      TailThreads(s.link, s.h.stamp, s.h.inserts, s.readq, e);
      Bump(s.h.stamp, s.h.inserts, e);
      TailMirrors(s, READ, s.readq, e);
    }
  }

  lemma AddWriteInv(s: State, e: Id)
    requires Inv(s)
    ensures Inv(AddWrite(s, e))
  {
    if WRITE in Ev(s, e).events && WRITE !in Ev(s, e).flags {
      TailMirrors(s, WRITE, s.writeq, e);
    }
  }

  lemma AddPostInv(s: State, e: Id)
    requires Inv(s)
    ensures Inv(AddPost(s, e))
  {
    AddReadInv(s, e);
    AddWriteInv(AddRead(s, e), e);
  }

  lemma {:induction false} EventAddInv(s: State, e: Id, tv: Option<Time>, now: Time)
    requires Inv(s)
    ensures Inv(EventAdd(s, e, tv, now))
  {
    var s1 := if tv.Some? then Arm(s, e, Plus(now, tv.value)) else s;
    if tv.Some? {
      ArmInv(s, e, Plus(now, tv.value));
    }
    if s1.inloop {
      PostponeInv(s1, e);
      NoteInv(Postpone(s1, e), Requested(e));
    } else {
      AddPostInv(s1, e);
    }
  }

  lemma EventSetInv(s: State, e: Id, fd: int, events: set<Flag>)
    requires Inv(s) && Unqueued(s, e)
    ensures Inv(EventSet(s, e, fd, events))
  {
    SameDeadlinesSorted(s.ev, s.h.armed, s.timeq, e, Ev(s, e).(fd := fd, events := events, flags := {INIT}));
  }

  /** event_set keeps the invariants exactly if the event is on no queue: it forgets the flags of a queued one. */
  lemma EventSetExactly(s: State, e: Id, fd: int, events: set<Flag>)
    requires Inv(s)
    ensures Inv(EventSet(s, e, fd, events)) <==> Unqueued(s, e)
  {
    if Unqueued(s, e) {
      EventSetInv(s, e, fd, events);
    } else {
      FlagsForgotten(s.ev, READ, s.readq, e, fd, events);
      FlagsForgotten(s.ev, WRITE, s.writeq, e, fd, events);
      FlagsForgotten(s.ev, TIMEOUT, s.timeq, e, fd, events);
      FlagsForgotten(s.ev, ADD, s.addq, e, fd, events);
    }
  }

  lemma {:induction false} FlagsForgotten(ev: map<Id, Event>, f: Flag, q: seq<Id>, e: Id, fd: int, events: set<Flag>)
    requires Mirrors(ev, f, q) && f != INIT
    ensures Mirrors(ev[e := Get(ev, e).(fd := fd, events := events, flags := {INIT})], f, q) <==> f !in Get(ev, e).flags
  {
    var ev' := ev[e := Get(ev, e).(fd := fd, events := events, flags := {INIT})];
    assert f !in Get(ev', e).flags;
    if f !in Get(ev, e).flags {
      forall x ensures f in Get(ev', x).flags <==> x in q {
        assert f in Get(ev, x).flags <==> x in q;
      }
    }
  }

  lemma ExecInv(s: State, c: Call)
    requires Inv(s)
    ensures Inv(Exec(s, c))
  {
    match c
    case Add(e, tv, now) => EventAddInv(s, e, tv, now);
    case Del(e) => EventDelInv(s, e);
    case Set(e, fd, events) => if Unqueued(s, e) { EventSetInv(s, e, fd, events); }
  }

  lemma {:induction false} ExecAllInv(s: State, cs: seq<Call>)
    requires Inv(s)
    ensures Inv(ExecAll(s, cs))
    decreases |cs|
  {
    if cs != [] {
      ExecInv(s, cs[0]);
      ExecAllInv(Exec(s, cs[0]), cs[1..]);
    }
  }

  lemma FireInv(s: State, e: Id, kind: Flag, script: Script)
    requires Inv(s)
    ensures Inv(Fire(s, e, kind, script))
  {
    ExecAllInv(s.(h := s.h.(log := s.h.log + [Firing(e, kind)])), script(|s.h.log|));
  }
}
