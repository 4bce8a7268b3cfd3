/** Postponed additions, replayed after the passes, against the calls that asked for them. */
module EventReplay {
  import opened Options
  import opened Tailq
  import opened Timeval
  import opened EventState
  import opened EventInvariant
  import opened EventPass
  import opened EventLoop
  import opened EventStable
  import opened EventTurns

  /** The members of `q` that the operations do not delete. */
  function Survivors(q: seq<Id>, ops: seq<Op>): (r: seq<Id>)
    ensures forall x :: x in r <==> x in q && Deleted(x) !in ops
  {
    if q == [] then [] else (if Deleted(q[0]) in ops then [] else [q[0]]) + Survivors(q[1..], ops)
  }

  /** Is `x` deleted after position `k`? */
  ghost predicate Cancelled(ops: seq<Op>, k: int, x: Id) {
    exists j :: 0 <= j < |ops| && k < j && ops[j] == Deleted(x)
  }

  /** The position of the first request for `x` that no later deletion cancels; -1 if there is none. */
  function FirstRequest(ops: seq<Op>, x: Id): (i: int)
    ensures -1 <= i < |ops|
    ensures i >= 0 ==> ops[i] == Requested(x) && !Cancelled(ops, i, x)
    ensures forall k :: 0 <= k < |ops| && ops[k] == Requested(x) && (i < 0 || k < i) ==> Cancelled(ops, k, x)
    decreases |ops|
  {
    if ops == [] then -1 else
    var n := |ops| - 1;
    var i := FirstRequest(ops[..n], x);
    assert forall k :: 0 <= k < n && Cancelled(ops[..n], k, x) ==> Cancelled(ops, k, x) by {
      forall k | 0 <= k < n && Cancelled(ops[..n], k, x) ensures Cancelled(ops, k, x) {
        var j :| k < j < n && ops[..n][j] == Deleted(x);
        assert ops[j] == Deleted(x);
      }
    }
    if ops[n] == Deleted(x) then
      assert forall k :: 0 <= k < n ==> Cancelled(ops, k, x);
      -1
    else if ops[n] == Requested(x) && i < 0 then n
    else i
  }

  /** Which events the operations leave to be added. */
  ghost predicate Wanted(ops: seq<Op>, x: Id) {
    FirstRequest(ops, x) >= 0
  }

  /**
   The postponed queue that the operations leave: each wanted event once, in order of
   its first request since its last deletion.
   */
  ghost predicate Replays(q: seq<Id>, ops: seq<Op>) {
    && (forall x :: x in q <==> Wanted(ops, x))
    && (forall i, j :: 0 <= i < j < |q| ==> FirstRequest(ops, q[i]) < FirstRequest(ops, q[j]))
  }

  /** How one more operation changes what is wanted. */
  lemma {:induction false} FirstRequestStep(ops: seq<Op>, op: Op, x: Id)
    ensures FirstRequest(ops + [op], x) ==
      if op == Deleted(x) then -1
      else if op == Requested(x) && !Wanted(ops, x) then |ops|
      else FirstRequest(ops, x)
  {
    assert (ops + [op])[..|ops|] == ops;
  }

  lemma {:induction false} ReplaysRequest(q: seq<Id>, ops: seq<Op>, e: Id)
    requires Replays(q, ops)
    ensures Replays(if e in q then q else q + [e], ops + [Requested(e)])
  {
    var ops', q' := ops + [Requested(e)], if e in q then q else q + [e];
    forall x ensures FirstRequest(ops', x) == if x == e && !Wanted(ops, x) then |ops| else FirstRequest(ops, x) {
      FirstRequestStep(ops, Requested(e), x);
    }
  }

  lemma {:induction false} ReplaysDelete(q: seq<Id>, ops: seq<Op>, e: Id)
    requires Replays(q, ops) && Distinct(q)
    ensures Replays(Without(q, e), ops + [Deleted(e)])
  {
    var ops', q' := ops + [Deleted(e)], Without(q, e);
    WithoutKeeps(q, e);
    forall x ensures FirstRequest(ops', x) == if x == e then -1 else FirstRequest(ops, x) {
      FirstRequestStep(ops, Deleted(e), x);
    }
    forall i, j | 0 <= i < j < |q'| ensures FirstRequest(ops', q'[i]) < FirstRequest(ops', q'[j]) {
      var i', j' := WithoutOrder(q, e, i, j);
      assert q'[i] in q' && q'[j] in q';
      assert FirstRequest(ops, q[i']) < FirstRequest(ops, q[j']);
    }
  }

  lemma {:induction false} SurvivorsDelete(q: seq<Id>, ops: seq<Op>, e: Id)
    requires Distinct(q)
    ensures Survivors(q, ops + [Deleted(e)]) == Without(Survivors(q, ops), e)
  {
    if q != [] {
      var x, t, t' := q[0], Survivors(q[1..], ops), Survivors(q[1..], ops + [Deleted(e)]);
      SurvivorsDelete(q[1..], ops, e);
      WithoutCons(x, t, e);
      assert Survivors(q, ops) == if Deleted(x) in ops then t else [x] + t;
      assert Survivors(q, ops + [Deleted(e)]) == if x == e || Deleted(x) in ops then t' else [x] + t';
    }
  }

  lemma {:induction false} TailIndex(q: seq<Id>, x: Id)
    requires q != [] && x in q
    ensures IndexOf(q, x) == if x == q[0] then 0 else 1 + IndexOf(q[1..], x)
  {}

  lemma {:induction false} WithoutCons(x: Id, t: seq<Id>, e: Id)
    requires x !in t
    ensures Without([x] + t, e) == if x == e then Without(t, e) else [x] + Without(t, e)
  {
    var q := [x] + t;
    assert q[0] == x && q[1..] == t;
    if x == e {
      assert q[..0] + q[0 + 1..] == t;
    } else if e in t {
      WithoutTail(q, e);
    } else {
      assert e !in q;
    }
  }

  lemma {:induction false} WithoutTail(q: seq<Id>, e: Id)
    requires q != [] && q[0] != e && e in q[1..]
    ensures Without(q, e) == [q[0]] + Without(q[1..], e)
  {
    var t := q[1..];
    var a, b := Without(q, e), Without(t, e);
    TailIndex(q, e);
    assert |a| == 1 + |b|;
    forall k | 0 <= k < |a| ensures a[k] == if k == 0 then q[0] else b[k - 1] {
      WithoutAt(q, e, k);
      if k > 0 {
        WithoutAt(t, e, k - 1);
      }
    }
  }

  lemma {:induction false} SurvivorsRequest(q: seq<Id>, ops: seq<Op>, e: Id)
    ensures Survivors(q, ops + [Requested(e)]) == Survivors(q, ops)
  {
    if q != [] {
      SurvivorsRequest(q[1..], ops, e);
    }
  }

  /** During the passes that began in `base`, the queues are what the operations so far make them. */
  ghost predicate Replayed(base: State, s: State) {
    && s.inloop && Distinct(base.readq) && Distinct(base.writeq)
    && s.readq == Survivors(base.readq, s.h.ops)
    && s.writeq == Survivors(base.writeq, s.h.ops)
    && Replays(s.addq, s.h.ops)
  }

  lemma EventDelReplayed(base: State, s: State, e: Id)
    requires Inv(s) && Replayed(base, s)
    ensures Replayed(base, EventDel(s, e))
  {
    SurvivorsDelete(base.readq, s.h.ops, e);
    SurvivorsDelete(base.writeq, s.h.ops, e);
    ReplaysDelete(s.addq, s.h.ops, e);
  }

  lemma ExecReplayed(base: State, s: State, c: Call)
    requires Inv(s) && Replayed(base, s)
    ensures Replayed(base, Exec(s, c))
  {
    match c {
      case Add(e, tv, now) =>
        SurvivorsRequest(base.readq, s.h.ops, e);
        SurvivorsRequest(base.writeq, s.h.ops, e);
        ReplaysRequest(s.addq, s.h.ops, e);
        var s1 := if tv.Some? then Arm(s, e, Plus(now, tv.value)) else s;
        assert ADD in Ev(s1, e).flags <==> ADD in Ev(s, e).flags;
      case Del(e) => EventDelReplayed(base, s, e);
      case Set(e, fd, events) =>
    }
  }

  lemma ReplayedStable(base: State)
    ensures Stable(s => Replayed(base, s), c => true)
  {
    forall s, c | Inv(s) && Replayed(base, s) ensures Replayed(base, Exec(s, c)) {
      ExecReplayed(base, s, c);
    }
    forall s, e | Inv(s) && Replayed(base, s) ensures Replayed(base, EventDel(s, e)) {
      EventDelReplayed(base, s, e);
    }
  }

  // ----- the drain -----------------------------------------------------------------

  /** The members of `q` with interest `f` that are not among `have`. */
  function Newcomers(ev: map<Id, Event>, q: seq<Id>, f: Flag, have: seq<Id>): seq<Id> {
    if q == [] then [] else
    var rest := Newcomers(ev, q[1..], f, have);
    if f in Get(ev, q[0]).events && q[0] !in have then [q[0]] + rest else rest
  }

  lemma {:induction false} NewcomersSame(ev: map<Id, Event>, ev': map<Id, Event>, q: seq<Id>, f: Flag,
                                         have: seq<Id>, have': seq<Id>)
    requires forall x :: x in q ==> Get(ev', x).events == Get(ev, x).events && (x in have' <==> x in have)
    ensures Newcomers(ev', q, f, have') == Newcomers(ev, q, f, have)
  {
    if q != [] {
      NewcomersSame(ev, ev', q[1..], f, have, have');
    }
  }

  /** One postponed addition, in the queues. */
  lemma DrainStepQueues(s: State)
    requires Inv(s) && s.addq != []
    ensures var e, t := s.addq[0], AddPost(PopAdd(s), s.addq[0]);
      && Inv(t) && t.addq == s.addq[1..] && e !in s.addq[1..]
      && t.readq == (if READ in Ev(s, e).events && e !in s.readq then s.readq + [e] else s.readq)
      && t.writeq == (if WRITE in Ev(s, e).events && e !in s.writeq then s.writeq + [e] else s.writeq)
  {
    PopAddInv(s);
    AddPostInv(PopAdd(s), s.addq[0]);
    assert READ in Ev(s, s.addq[0]).flags <==> s.addq[0] in s.readq;
    assert WRITE in Ev(s, s.addq[0]).flags <==> s.addq[0] in s.writeq;
  }

  /** One postponed addition, in the event records. */
  lemma DrainStepRecords(s: State)
    requires s.addq != []
    ensures var e, t := s.addq[0], AddPost(PopAdd(s), s.addq[0]);
      && (forall x :: x != e ==> Get(t.ev, x) == Get(s.ev, x))
      && Get(t.ev, e).events == Get(s.ev, e).events && Get(t.ev, e).deadline == Get(s.ev, e).deadline
      && Get(t.ev, e).flags == Get(s.ev, e).flags - {ADD} + Get(s.ev, e).events * {READ, WRITE}
  {
    var e := s.addq[0];
    var a := PopAdd(s);
    var b := AddRead(a, e);
    var c := AddWrite(b, e);
    assert Get(b.ev, e).flags == Get(a.ev, e).flags + Get(s.ev, e).events * {READ};
    assert Get(c.ev, e).flags == Get(b.ev, e).flags + Get(s.ev, e).events * {WRITE};
  }

  /** The newcomers that remain once the first postponed event has had its turn. */
  lemma {:induction false} NewcomersStep(ev: map<Id, Event>, ev': map<Id, Event>, q: seq<Id>, f: Flag, have: seq<Id>, have': seq<Id>)
    requires q != [] && q[0] !in q[1..]
    requires have' == if f in Get(ev, q[0]).events && q[0] !in have then have + [q[0]] else have
    requires forall x :: Get(ev', x).events == Get(ev, x).events
    ensures have + Newcomers(ev, q, f, have) == have' + Newcomers(ev', q[1..], f, have')
  {
    NewcomersSame(ev, ev', q[1..], f, have, have');
    var x, rest := q[0], Newcomers(ev, q[1..], f, have);
    if f in Get(ev, x).events && x !in have {
      assert Newcomers(ev, q, f, have) == [x] + rest;
      assert have + ([x] + rest) == have' + rest;
    } else {
      assert Newcomers(ev, q, f, have) == rest;
    }
  }

  /** The drain appends to each queue the postponed events that want it and are not on it. */
  lemma {:induction false} DrainQueues(s: State)
    requires Inv(s)
    ensures Drain(s).readq == s.readq + Newcomers(s.ev, s.addq, READ, s.readq)
    ensures Drain(s).writeq == s.writeq + Newcomers(s.ev, s.addq, WRITE, s.writeq)
    decreases |s.addq|
  {
    if s.addq != [] {
      var t := DrainFront(s);
      DrainQueues(t);
    }
  }

  lemma DrainFront(s: State) returns (t: State)
    requires Inv(s) && s.addq != []
    ensures Inv(t) && |t.addq| < |s.addq| && Drain(s) == Drain(t)
    ensures s.readq + Newcomers(s.ev, s.addq, READ, s.readq) == t.readq + Newcomers(t.ev, t.addq, READ, t.readq)
    ensures s.writeq + Newcomers(s.ev, s.addq, WRITE, s.writeq) == t.writeq + Newcomers(t.ev, t.addq, WRITE, t.writeq)
  {
    t := AddPost(PopAdd(s), s.addq[0]);
    DrainStepQueues(s);
    DrainStepRecords(s);
    NewcomersStep(s.ev, t.ev, s.addq, READ, s.readq, t.readq);
    NewcomersStep(s.ev, t.ev, s.addq, WRITE, s.writeq, t.writeq);
  }

  /** An ordering by first request leaves no choice: the postponed queue is determined. */
  lemma {:induction false} ReplaysUnique(p: seq<Id>, q: seq<Id>, ops: seq<Op>)
    requires Replays(p, ops) && Replays(q, ops)
    ensures p == q
  {
    forall x ensures x in Members(p) <==> x in Members(q) {
      assert x in p <==> Wanted(ops, x);
      assert x in q <==> Wanted(ops, x);
    }
    SameKeysEqual(p, q, ops);
  }

  ghost predicate ByRequest(q: seq<Id>, ops: seq<Op>) {
    forall i, j :: 0 <= i < j < |q| ==> FirstRequest(ops, q[i]) < FirstRequest(ops, q[j])
  }

  function Members(q: seq<Id>): set<Id> {
    set x | x in q
  }

  lemma {:induction false} SameKeysEqual(p: seq<Id>, q: seq<Id>, ops: seq<Op>)
    requires ByRequest(p, ops) && ByRequest(q, ops) && Members(p) == Members(q)
    ensures p == q
    decreases |p|
  {
    NoMembers(p);
    NoMembers(q);
    if p != [] {
      assert p[0] in Members(p) && q[0] in Members(q);
      assert p[0] in q && q[0] in p;
      HeadLeast(p, ops, q[0]);
      HeadOnly(q, ops, p[0]);
      forall x ensures x in Members(p[1..]) <==> x in Members(q[1..]) {
        TailMember(p, ops, x);
        TailMember(q, ops, x);
        assert x in Members(p) <==> x in Members(q);
      }
      SameKeysEqual(p[1..], q[1..], ops);
    }
  }

  lemma {:induction false} NoMembers(q: seq<Id>)
    ensures q == [] <==> Members(q) == {}
  {
    if q != [] {
      assert q[0] in Members(q);
    }
  }

  lemma {:induction false} HeadLeast(q: seq<Id>, ops: seq<Op>, x: Id)
    requires ByRequest(q, ops) && x in q
    ensures FirstRequest(ops, q[0]) <= FirstRequest(ops, x)
  {
    var i :| 0 <= i < |q| && q[i] == x;
  }

  lemma {:induction false} HeadOnly(q: seq<Id>, ops: seq<Op>, x: Id)
    requires ByRequest(q, ops) && x in q && FirstRequest(ops, x) <= FirstRequest(ops, q[0])
    ensures x == q[0]
  {
    var i :| 0 <= i < |q| && q[i] == x;
  }

  lemma {:induction false} TailMember(p: seq<Id>, ops: seq<Op>, x: Id)
    requires ByRequest(p, ops) && p != []
    ensures x in p[1..] <==> x in p && x != p[0]
  {
    if x in p[1..] {
      var i :| 0 <= i < |p[1..]| && p[1..][i] == x;
      assert FirstRequest(ops, p[0]) < FirstRequest(ops, p[i + 1]);
    }
  }

  /** During and after the passes, the queues are what the calls made so far make them. */
  lemma PassesReplayed(s: State, sel: Select, script: Script)
    requires Settled(s)
    ensures var w := WritePass(s, sel, script).s; Replayed(s, w) && Inv(w)
  {
    var P, C, s0 := (t: State) => Replayed(s, t), (c: Call) => true, Enter(s);
    EnterInv(s);
    ReplayedStable(s);
    NoOpsSurvive(s.readq);
    NoOpsSurvive(s.writeq);
    assert P(s0);
    PassStable(P, C, s0, IdAt(s.readq, 0), sel.readable * Fds(s, s.readq), READ, script);
    var m := ReadPass(s, sel, script).s;
    assert P(m);
    PassStable(P, C, m, IdAt(m.writeq, 0), sel.writable * Fds(s, s.writeq), WRITE, script);
    assert P(WritePass(s, sel, script).s);
  }

  /** `r` is what deletions leave of `q`, in its order. */
  ghost predicate Kept(q: seq<Id>, r: seq<Id>, ops: seq<Op>) {
    && (forall x :: x in r <==> x in q && Deleted(x) !in ops)
    && (forall i, j :: 0 <= i < j < |r| ==> r[i] in q && r[j] in q && IndexOf(q, r[i]) < IndexOf(q, r[j]))
  }

  /** `r` holds who is wanted with this interest and not in `have`, by first request since last deletion. */
  ghost predicate Joining(r: seq<Id>, have: seq<Id>, ops: seq<Op>, ev: map<Id, Event>, f: Flag) {
    && (forall x :: x in r <==> Wanted(ops, x) && f in Get(ev, x).events && x !in have)
    && (forall i, j :: 0 <= i < j < |r| ==> FirstRequest(ops, r[i]) < FirstRequest(ops, r[j]))
  }

  lemma {:induction false} SurvivorsKept(q: seq<Id>, ops: seq<Op>)
    requires Distinct(q)
    ensures Kept(q, Survivors(q, ops), ops)
  {
    if q != [] {
      var t, r := Survivors(q[1..], ops), Survivors(q, ops);
      SurvivorsKept(q[1..], ops);
      forall i, j | 0 <= i < j < |r| ensures r[i] in q && r[j] in q && IndexOf(q, r[i]) < IndexOf(q, r[j]) {
        var d := |r| - |t|;
        assert r[j] == t[j - d] && r[j] in q[1..];
        if i >= d {
          assert r[i] == t[i - d] && r[i] in q[1..];
        }
        TailIndex(q, r[i]);
        TailIndex(q, r[j]);
      }
    }
  }

  lemma {:induction false} NewcomersAll(ev: map<Id, Event>, q: seq<Id>, f: Flag, have: seq<Id>, x: Id)
    ensures x in Newcomers(ev, q, f, have) <==> x in q && f in Get(ev, x).events && x !in have
  {
    if q != [] {
      NewcomersAll(ev, q[1..], f, have, x);
      assert x in q <==> x == q[0] || x in q[1..];
    }
  }

  /** Newcomers keep the order in which they were postponed. */
  lemma {:induction false} NewcomersOrder(ev: map<Id, Event>, q: seq<Id>, f: Flag, have: seq<Id>, i: nat, j: nat)
      returns (i': nat, j': nat)
    requires i < j < |Newcomers(ev, q, f, have)|
    ensures i' < j' < |q| && q[i'] == Newcomers(ev, q, f, have)[i] && q[j'] == Newcomers(ev, q, f, have)[j]
  {
    var t, r := Newcomers(ev, q[1..], f, have), Newcomers(ev, q, f, have);
    if |r| == |t| {
      i', j' := NewcomersOrder(ev, q[1..], f, have, i, j);
      i', j' := i' + 1, j' + 1;
    } else if i > 0 {
      i', j' := NewcomersOrder(ev, q[1..], f, have, i - 1, j - 1);
      i', j' := i' + 1, j' + 1;
    } else {
      NewcomersAll(ev, q[1..], f, have, t[j - 1]);
      var k :| 0 <= k < |q[1..]| && q[1..][k] == t[j - 1];
      i', j' := 0, k + 1;
    }
  }

  lemma {:induction false} ReplayedQueue(s: State, w: State, ops: seq<Op>, ev: map<Id, Event>, q: seq<Id>, f: Flag)
    requires Distinct(q) && Replays(w.addq, ops)
    ensures var r := Survivors(q, ops); Kept(q, r, ops) && Joining(Newcomers(ev, w.addq, f, r), r, ops, ev, f)
  {
    var before := Survivors(q, ops);
    var r := Newcomers(ev, w.addq, f, before);
    SurvivorsKept(q, ops);
    forall x ensures x in r <==> Wanted(ops, x) && f in Get(ev, x).events && x !in before {
      NewcomersAll(ev, w.addq, f, before, x);
    }
    forall i, j | 0 <= i < j < |r| ensures FirstRequest(ops, r[i]) < FirstRequest(ops, r[j]) {
      var i', j' := NewcomersOrder(ev, w.addq, f, before, i, j);
    }
  }

  /**
   Postponed additions refine replay.  After the drain each queue is what the deletions in
   the passes left of it, in its order, followed by the events that were requested in the
   passes and not deleted since, that want this queue and are not on it, in order of first
   request since last deletion.  `ops` are the deletions and requests that the turns of the
   passes and the calls of their callbacks make.
   */
  lemma PostponedRefineReplay(s: State, sel: Select, script: Script)
      returns (oldR: seq<Id>, newR: seq<Id>, oldW: seq<Id>, newW: seq<Id>)
    requires Settled(s)
    ensures var t := Drained(s, sel, script);
      var ops := PassOps(ReadPass(s, sel, script).visits, WritePass(s, sel, script).visits, script);
      && t.readq == oldR + newR && Kept(s.readq, oldR, ops) && Joining(newR, oldR, ops, t.ev, READ)
      && t.writeq == oldW + newW && Kept(s.writeq, oldW, ops) && Joining(newW, oldW, ops, t.ev, WRITE)
  {
    var w, t := WritePass(s, sel, script).s, Drained(s, sel, script);
    var ops := PassOps(ReadPass(s, sel, script).visits, WritePass(s, sel, script).visits, script);
    PassesAdd(s, sel, script);
    PassesReplayed(s, sel, script);
    assert Inv(Leave(w));
    DrainQueues(Leave(w));
    oldR, oldW := Survivors(s.readq, ops), Survivors(s.writeq, ops);
    newR, newW := Newcomers(w.ev, w.addq, READ, oldR), Newcomers(w.ev, w.addq, WRITE, oldW);
    ReplayedQueue(s, w, ops, w.ev, s.readq, READ);
    ReplayedQueue(s, w, ops, w.ev, s.writeq, WRITE);
    forall x ensures Get(t.ev, x).events == Get(w.ev, x).events {
      DrainRecords(Leave(w), x);
    }
  }

  lemma {:induction false} NoOpsSurvive(q: seq<Id>)
    ensures Survivors(q, []) == q
  {
    if q != [] {
      NoOpsSurvive(q[1..]);
    }
  }

  // ----- event_pending ---------------------------------------------------------------

  datatype Answer = Answer(events: set<Flag>, tv: Option<Time>)

  /** event_pending: the bits it returns and the time it stores, if any. */
  function EventPending(s: State, e: Id, mask: set<Flag>, wantTime: bool): Answer {
    var v := Ev(s, e);
    var flags := if ADD in v.flags then v.flags + v.events * {READ, WRITE} else v.flags;
    var m := mask * {TIMEOUT, READ, WRITE};
    Answer(flags * m, if wantTime && TIMEOUT in flags * m then Some(v.deadline) else None)
  }

  /**
   event_pending by the queues: a bit is answered exactly if it is asked for and the event
   is on that queue, or is postponed and wants it; the stored time is the deadline, given
   exactly if it is asked for and EV_TIMEOUT is answered.
   */
  lemma PendingExactly(s: State, e: Id, mask: set<Flag>, wantTime: bool)
    requires Inv(s)
    ensures var a := EventPending(s, e, mask, wantTime);
      && (TIMEOUT in a.events <==> TIMEOUT in mask && e in s.timeq)
      && (READ in a.events <==> READ in mask && (e in s.readq || (e in s.addq && READ in Ev(s, e).events)))
      && (WRITE in a.events <==> WRITE in mask && (e in s.writeq || (e in s.addq && WRITE in Ev(s, e).events)))
      && ADD !in a.events && INIT !in a.events
      && a.tv == if wantTime && TIMEOUT in mask && e in s.timeq then Some(Ev(s, e).deadline) else None
  {
    var v := Get(s.ev, e);
    assert (ADD in v.flags <==> e in s.addq) && (TIMEOUT in v.flags <==> e in s.timeq);
    assert (READ in v.flags <==> e in s.readq) && (WRITE in v.flags <==> e in s.writeq);
  }

  lemma {:induction false} DrainRecords(s: State, x: Id)
    requires Inv(s)
    ensures var v, v' := Get(s.ev, x), Get(Drain(s).ev, x);
      && v'.deadline == v.deadline && v'.events == v.events && v'.fd == v.fd
      && v'.flags == if x in s.addq then v.flags - {ADD} + v.events * {READ, WRITE} else v.flags
    decreases |s.addq|
  {
    if s.addq != [] {
      DrainStepQueues(s);
      DrainStepRecords(s);
      DrainRecords(AddPost(PopAdd(s), s.addq[0]), x);
      assert x in s.addq <==> x == s.addq[0] || x in s.addq[1..];
    }
  }

  /** All that the drain changes besides the queues: the bits of the queues joined and left. */
  lemma DrainEffect(s: State)
    requires Inv(s)
    ensures var t := Drain(s);
      && t.addq == [] && t.timeq == s.timeq && t.inloop == s.inloop && t.fds == s.fds && t.fdsz == s.fdsz
      && t.h.log == s.h.log
    ensures forall x :: var v, v' := Get(s.ev, x), Get(Drain(s).ev, x);
      && v'.deadline == v.deadline && v'.events == v.events && v'.fd == v.fd
      && v'.flags == if x in s.addq then v.flags - {ADD} + v.events * {READ, WRITE} else v.flags
  {
    DrainInv(s);
    DrainLog(s);
    DrainGlobals(s);
    forall x ensures var v, v' := Get(s.ev, x), Get(Drain(s).ev, x);
      && v'.deadline == v.deadline && v'.events == v.events && v'.fd == v.fd
      && v'.flags == if x in s.addq then v.flags - {ADD} + v.events * {READ, WRITE} else v.flags
    {
      DrainRecords(s, x);
    }
  }

  lemma {:induction false} DrainGlobals(s: State)
    ensures Drain(s).fds == s.fds && Drain(s).fdsz == s.fdsz && Drain(s).inloop == s.inloop
    decreases |s.addq|
  {
    if s.addq != [] {
      DrainGlobals(AddPost(PopAdd(s), s.addq[0]));
    }
  }

  /** What event_pending answers does not depend on whether the drain has happened yet. */
  lemma PendingAcrossDrain(s: State, e: Id, mask: set<Flag>, wantTime: bool)
    requires Inv(s)
    ensures EventPending(Drain(s), e, mask, wantTime) == EventPending(s, e, mask, wantTime)
  {
    DrainRecords(s, e);
    DrainInv(s);
    assert ADD in Get(s.ev, e).flags <==> e in s.addq;
    assert ADD !in Get(Drain(s).ev, e).flags;
    var a, b := EventPending(s, e, mask, wantTime), EventPending(Drain(s), e, mask, wantTime);
    assert forall f :: f in a.events <==> f in b.events;
  }
}
