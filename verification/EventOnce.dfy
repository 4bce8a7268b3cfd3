/** Which events one loop iteration visits and calls. */
module EventOnce {
  import opened Options
  import opened Tailq
  import opened Timeval
  import opened EventState
  import opened EventInvariant
  import opened EventPass
  import opened EventWalk
  import opened EventLoop
  import opened EventStable

  /** A pass visits events in strictly increasing order of insertion, from wherever it starts. */
  lemma {:induction false} PassAscends(s: State, cur: Option<Id>, ready: set<int>, kind: Flag, script: Script, i: nat, j: nat)
    requires Inv(s) && s.inloop && i < j < |Pass(s, cur, ready, kind, script).visits|
    ensures var v := Pass(s, cur, ready, kind, script).visits; Stamp(s, v[i].e) < Stamp(s, v[j].e)
  {
    var r := Pass(s, cur, ready, kind, script);
    PassStart(s);
    PassWalks(s, s, cur, ready, kind, script);
    WalkAscends(s, cur, ready, r.visits, r.s, i, j);
  }

  /** Both passes end, and neither visits an event twice, whatever the callbacks do. */
  lemma PassesVisitOnce(s: State, sel: Select, script: Script)
    requires Inv(s)
    ensures var v := ReadPass(s, sel, script).visits; forall i, j :: 0 <= i < j < |v| ==> v[i].e != v[j].e
    ensures var v := WritePass(s, sel, script).visits; forall i, j :: 0 <= i < j < |v| ==> v[i].e != v[j].e
  {
    var v, m, w := ReadPass(s, sel, script).visits, ReadPass(s, sel, script).s, WritePass(s, sel, script).visits;
    forall i, j | 0 <= i < j < |v| ensures v[i].e != v[j].e {
      EnterInv(s);
      PassAscends(Enter(s), IdAt(s.readq, 0), sel.readable * Fds(s, s.readq), READ, script, i, j);
    }
    forall i, j | 0 <= i < j < |w| ensures w[i].e != w[j].e {
      PassAscends(m, IdAt(m.writeq, 0), sel.writable * Fds(s, s.writeq), WRITE, script, i, j);
    }
  }

  lemma OrderedIndex(s: State, x: Id, y: Id)
    requires Inv(s) && x in s.readq && y in s.readq
    ensures IndexOf(s.readq, x) < IndexOf(s.readq, y) <==> Stamp(s, x) < Stamp(s, y)
  {
    var i, j := IndexOf(s.readq, x), IndexOf(s.readq, y);
    assert i < j ==> Count(s.h.stamp, s.readq[i]) < Count(s.h.stamp, s.readq[j]);
    assert j < i ==> Count(s.h.stamp, s.readq[j]) < Count(s.h.stamp, s.readq[i]);
  }

  /** The read pass visits only events of the queue it started with, in queue order. */
  lemma {:induction false} ReadPassOrder(s: State, sel: Select, script: Script, i: nat, j: nat)
    requires Inv(s) && i <= j < |ReadPass(s, sel, script).visits|
    ensures var v := ReadPass(s, sel, script).visits;
      && v[i].e in s.readq && v[j].e in s.readq
      && (i < j ==> IndexOf(s.readq, v[i].e) < IndexOf(s.readq, v[j].e))
  {
    var s0, r, cur := Enter(s), ReadPass(s, sel, script), IdAt(s.readq, 0);
    var ready := sel.readable * Fds(s, s.readq);
    EnterInv(s);
    PassWalks(s0, s0, cur, ready, READ, script);
    WalkStays(s0, cur, ready, r.visits, r.s);
    if i < j {
      WalkAscends(s0, cur, ready, r.visits, r.s, i, j);
      OrderedIndex(s, r.visits[i].e, r.visits[j].e);
    }
  }

  /**
   The read pass misses no event that is still queued when its turn comes: when the pass
   has come to an event further back in the queue, or to its end.
   */
  lemma ReadPassComplete(s: State, sel: Select, script: Script, z: Id)
    requires Inv(s) && z in s.readq
    ensures var r := ReadPass(s, sel, script); z in r.s.readq ==> Seen(r.visits, |r.visits|, z)
    ensures var v := ReadPass(s, sel, script).visits;
      forall k :: 0 <= k < |v| && z in v[k].s.readq && v[k].e in s.readq ==>
        IndexOf(s.readq, z) < IndexOf(s.readq, v[k].e) ==> Seen(v, k, z)
  {
    var s0, r, cur := Enter(s), ReadPass(s, sel, script), Some(s.readq[0]);
    var ready := sel.readable * Fds(s, s.readq);
    EnterInv(s);
    PassWalks(s0, s0, cur, ready, READ, script);
    FirstLeast(s, z);
    if z in r.s.readq {
      WalkReaches(s0, cur, ready, r.visits, r.s, z);
    }
    forall k | 0 <= k < |r.visits| && z in r.visits[k].s.readq && r.visits[k].e in s.readq
      ensures IndexOf(s.readq, z) < IndexOf(s.readq, r.visits[k].e) ==> Seen(r.visits, k, z)
    {
      OrderedIndex(s, z, r.visits[k].e);
      if Stamp(s, z) < Stamp(s, r.visits[k].e) {
        WalkComplete(s0, cur, ready, r.visits, r.s, z, k);
      }
    }
  }

  lemma FirstLeast(s: State, z: Id)
    requires Inv(s) && z in s.readq
    ensures Stamp(s, s.readq[0]) <= Stamp(s, z)
  {
    var i := IndexOf(s.readq, z);
    assert i > 0 ==> Count(s.h.stamp, s.readq[0]) < Count(s.h.stamp, s.readq[i]);
  }

  // ----- one callback per iteration ------------------------------------------------

  /**
   The read and write queues of clients that give each event one fixed interest.
   An event interested in both is never on the write queue alone, and an event not
   interested in reading never had a read link.
   */
  ghost predicate Coupled(s: State, kinds: Id -> set<Flag>) {
    && (forall x :: Get(s.ev, x).events == kinds(x) || Get(s.ev, x).events == {})
    && (forall x :: x in s.readq ==> READ in kinds(x))
    && (forall x :: x in s.writeq ==> WRITE in kinds(x))
    && (forall x {:trigger At(s.link, x)} :: At(s.link, x).Some? ==> READ in kinds(x))
    && (forall x :: x in s.writeq && READ in kinds(x) ==> x in s.readq)
  }

  ghost predicate Fixed(c: Call, kinds: Id -> set<Flag>) {
    c.Set? ==> c.events == kinds(c.e)
  }

  /** No callback from the n-th on changes an event's interest. */
  ghost predicate FixedFrom(script: Script, n: nat, kinds: Id -> set<Flag>) {
    forall k, c :: n <= k && c in script(k) ==> Fixed(c, kinds)
  }

  lemma EventDelCoupled(s: State, e: Id, kinds: Id -> set<Flag>)
    requires Inv(s) && Coupled(s, kinds)
    ensures Coupled(EventDel(s, e), kinds)
  {
    var t := EventDel(s, e);
    WithoutKeeps(s.readq, e);
    WithoutKeeps(s.writeq, e);
    forall x | At(t.link, x).Some? ensures READ in kinds(x) {
      assert At(s.link, x).Some? || x in s.readq;
    }
  }

  lemma AddPostCoupled(s: State, e: Id, kinds: Id -> set<Flag>)
    requires Inv(s) && Coupled(s, kinds)
    ensures Coupled(AddPost(s, e), kinds)
  {
    var m := AddRead(s, e);
    assert Get(s.ev, e).events == kinds(e) || Get(s.ev, e).events == {};
    assert Coupled(m, kinds) by {
      forall x | At(m.link, x).Some? ensures READ in kinds(x) {
        assert At(s.link, x).Some? || x in s.readq;
      }
    }
    AddReadInv(s, e);
    AddWriteCoupled(m, e, kinds);
  }

  lemma AddWriteCoupled(s: State, e: Id, kinds: Id -> set<Flag>)
    requires Inv(s) && Coupled(s, kinds) && (READ in Ev(s, e).events ==> e in s.readq)
    ensures Coupled(AddWrite(s, e), kinds)
  {
    assert Get(s.ev, e).events == kinds(e) || Get(s.ev, e).events == {};
  }

  lemma ArmCoupled(s: State, e: Id, d: Time, kinds: Id -> set<Flag>)
    requires Coupled(s, kinds)
    ensures Coupled(Arm(s, e, d), kinds)
  {
    assert Get(s.ev, e).events == kinds(e) || Get(s.ev, e).events == {};
  }

  lemma PostponeCoupled(s: State, e: Id, kinds: Id -> set<Flag>)
    requires Coupled(s, kinds)
    ensures Coupled(Note(Postpone(s, e), Requested(e)), kinds)
  {
    assert Get(s.ev, e).events == kinds(e) || Get(s.ev, e).events == {};
  }

  lemma {:induction false} EventAddCoupled(s: State, e: Id, tv: Option<Time>, now: Time, kinds: Id -> set<Flag>)
    requires Inv(s) && Coupled(s, kinds)
    ensures Coupled(EventAdd(s, e, tv, now), kinds)
  {
    var s1 := if tv.Some? then Arm(s, e, Plus(now, tv.value)) else s;
    if tv.Some? {
      ArmInv(s, e, Plus(now, tv.value));
      ArmCoupled(s, e, Plus(now, tv.value), kinds);
    }
    if s1.inloop {
      PostponeCoupled(s1, e, kinds);
    } else {
      AddPostCoupled(s1, e, kinds);
    }
  }

  lemma ExecCoupled(s: State, c: Call, kinds: Id -> set<Flag>)
    requires Inv(s) && Coupled(s, kinds) && Fixed(c, kinds)
    ensures Coupled(Exec(s, c), kinds)
  {
    match c {
      case Add(e, tv, now) => EventAddCoupled(s, e, tv, now, kinds);
      case Del(e) => EventDelCoupled(s, e, kinds);
      case Set(e, fd, events) =>
    }
  }

  lemma CoupledStable(kinds: Id -> set<Flag>)
    ensures Stable(s => Coupled(s, kinds), c => Fixed(c, kinds))
  {
    forall s, c | Inv(s) && Coupled(s, kinds) && Fixed(c, kinds) ensures Coupled(Exec(s, c), kinds) {
      ExecCoupled(s, c, kinds);
    }
    forall s, e | Inv(s) && Coupled(s, kinds) ensures Coupled(EventDel(s, e), kinds) {
      EventDelCoupled(s, e, kinds);
    }
  }

  lemma CoupledLoopStable(kinds: Id -> set<Flag>)
    ensures LoopStable(s => Coupled(s, kinds), c => Fixed(c, kinds))
  {
    CoupledStable(kinds);
    forall s: State | Inv(s) && Coupled(s, kinds) && s.timeq != [] ensures Coupled(Expire(s), kinds) {
      assert Get(s.ev, s.timeq[0]).events == kinds(s.timeq[0]) || Get(s.ev, s.timeq[0]).events == {};
    }
    forall s: State | Inv(s) && Coupled(s, kinds) && s.addq != [] ensures Coupled(DrainOne(s), kinds) {
      assert Get(s.ev, s.addq[0]).events == kinds(s.addq[0]) || Get(s.ev, s.addq[0]).events == {};
      PopAddInv(s);
      AddPostCoupled(PopAdd(s), s.addq[0], kinds);
    }
  }

  /** Clients whose events keep one interest keep the queues coupled, over every run. */
  lemma {:induction false} RunCoupled(acts: seq<Action>, script: Script, kinds: Id -> set<Flag>)
    requires Settled(START) && FixedFrom(script, 0, kinds)
    requires forall a :: a in acts && a.Outside? ==> Fixed(a.c, kinds)
    ensures Coupled(Run(START, acts, script), kinds)
  {
    var P, C := (t: State) => Coupled(t, kinds), (c: Call) => Fixed(c, kinds);
    CoupledLoopStable(kinds);
    assert P(START);
    RunStable(P, C, START, acts, script);
    assert P(Run(START, acts, script));
  }

  lemma ReadCoupled(s: State, sel: Select, script: Script, kinds: Id -> set<Flag>)
    requires Inv(s) && Coupled(s, kinds) && FixedFrom(script, |s.h.log|, kinds)
    ensures Coupled(ReadPass(s, sel, script).s, kinds)
  {
    var P, C := (t: State) => Coupled(t, kinds), (c: Call) => Fixed(c, kinds);
    CoupledLoopStable(kinds);
    assert P(s);
    PassesStable(P, C, s, sel, script);
    assert P(ReadPass(s, sel, script).s);
  }

  /** The write pass looks only at the first writer and at events still on the read queue. */
  lemma {:induction false} WriteVisits(s: State, sel: Select, script: Script, kinds: Id -> set<Flag>, k: nat)
    requires Inv(s) && Coupled(s, kinds) && FixedFrom(script, |s.h.log|, kinds)
    requires k < |WritePass(s, sel, script).visits|
    ensures var m, x := ReadPass(s, sel, script).s, WritePass(s, sel, script).visits[k].e;
      m.writeq != [] && (x in m.readq || (k == 0 && x == m.writeq[0]))
    ensures var m := ReadPass(s, sel, script).s;
      READ !in kinds(m.writeq[0]) ==> |WritePass(s, sel, script).visits| == 1
  {
    var m, w := ReadPass(s, sel, script).s, WritePass(s, sel, script);
    var ready, cur := sel.writable * Fds(s, s.writeq), IdAt(m.writeq, 0);
    ReadCoupled(s, sel, script, kinds);
    PassStart(m);
    PassWalks(m, m, cur, ready, WRITE, script);
    assert m.writeq != [] && w.visits[0].e == m.writeq[0] && w.visits[0].s == m;
    if READ in kinds(m.writeq[0]) {
      WalkStays(m, cur, ready, w.visits, w.s);
    } else {
      assert At(m.link, m.writeq[0]).None?;
      assert Walk(m, None, ready, w.visits[1..], w.s);
    }
  }

  /** An event called in the read pass is on neither queue when the write pass starts. */
  lemma {:induction false} ReadCalledGone(s: State, sel: Select, script: Script, i: nat)
    requires Inv(s)
    requires var v := ReadPass(s, sel, script).visits; i < |v| && v[i].called
    ensures var r := ReadPass(s, sel, script); r.visits[i].e !in r.s.readq && r.visits[i].e !in r.s.writeq
  {
    var s0, r, ready := Enter(s), ReadPass(s, sel, script), sel.readable * Fds(s, s.readq);
    EnterInv(s);
    PassWalks(s0, s0, IdAt(s.readq, 0), ready, READ, script);
    WalkCalledGone(s0, IdAt(s.readq, 0), ready, r.visits, r.s);
  }

  /** The write pass does not even visit an event that the read pass called. */
  lemma {:induction false} CalledNotRevisited(s: State, sel: Select, script: Script, kinds: Id -> set<Flag>, i: nat, j: nat)
    requires Inv(s) && Coupled(s, kinds) && FixedFrom(script, |s.h.log|, kinds)
    requires var v := ReadPass(s, sel, script).visits; i < |v| && v[i].called
    requires j < |WritePass(s, sel, script).visits|
    ensures ReadPass(s, sel, script).visits[i].e != WritePass(s, sel, script).visits[j].e
  {
    ReadCalledGone(s, sel, script, i);
    WriteVisits(s, sel, script, kinds, j);
  }

  /**
   If every event keeps one interest, no event gets two descriptor callbacks in one
   iteration: not in one pass, and not one in each.
   */
  lemma {:induction false} AtMostOneCallback(s: State, sel: Select, script: Script, kinds: Id -> set<Flag>, i: nat, j: nat)
    requires Inv(s) && Coupled(s, kinds) && FixedFrom(script, |s.h.log|, kinds)
    requires var v := ReadPass(s, sel, script).visits + WritePass(s, sel, script).visits;
      i < j < |v| && v[i].called && v[j].called
    ensures var v := ReadPass(s, sel, script).visits + WritePass(s, sel, script).visits; v[i].e != v[j].e
  {
    var v, w := ReadPass(s, sel, script).visits, WritePass(s, sel, script).visits;
    PassesVisitOnce(s, sel, script);
    forall x, y | 0 <= x < |v| && 0 <= y < |w| && v[x].called ensures v[x].e != w[y].e {
      CalledNotRevisited(s, sel, script, kinds, x, y);
    }
    CalledApart(v, w, i, j);
  }

  lemma {:induction false} CalledApart(v: seq<Visit>, w: seq<Visit>, i: nat, j: nat)
    requires forall x, y :: 0 <= x < y < |v| ==> v[x].e != v[y].e
    requires forall x, y :: 0 <= x < y < |w| ==> w[x].e != w[y].e
    requires forall x, y :: 0 <= x < |v| && 0 <= y < |w| && v[x].called ==> v[x].e != w[y].e
    requires i < j < |v + w| && (v + w)[i].called
    ensures (v + w)[i].e != (v + w)[j].e
  {}

  // ----- a called event's old deadline ---------------------------------------------

  ghost predicate Unarming(c: Call, e: Id) {
    !(c.Add? && c.e == e && c.tv.Some?)
  }

  /** No callback from the n-th up to the m-th sets the event's deadline. */
  ghost predicate UnarmedBetween(script: Script, n: nat, m: nat, e: Id) {
    forall k, c :: n <= k < m && c in script(k) ==> Unarming(c, e)
  }

  lemma UnarmedStable(e: Id)
    ensures Stable((s: State) => e !in s.timeq, c => Unarming(c, e))
  {
    forall s, c | Inv(s) && e !in s.timeq && Unarming(c, e) ensures e !in Exec(s, c).timeq {
      WithoutKeeps(s.timeq, c.e);
      if c.Add? && c.tv.Some? {
        var q := Without(s.timeq, c.e);
        assert forall i :: 0 <= i <= |q| ==> e !in q[..i] + [c.e] + q[i..];
      }
    }
    forall s, x | Inv(s) && e !in s.timeq ensures e !in EventDel(s, x).timeq {
      WithoutKeeps(s.timeq, x);
    }
  }

  lemma CalledNow(s: State, e: Id, ready: set<int>, kind: Flag, script: Script)
    requires Inv(s) && s.inloop && Hit(s, e, ready)
    requires UnarmedBetween(script, |s.h.log|, |Pass(s, Some(e), ready, kind, script).s.h.log|, e)
    ensures e !in Pass(s, Some(e), ready, kind, script).s.timeq
  {
    var P, C := (x: State) => e !in x.timeq, (c: Call) => Unarming(c, e);
    var t := Visited(s, e, ready, kind, script);
    UnarmedStable(e);
    EventDelInv(s, e);
    WithoutKeeps(s.timeq, e);
    RankDrops(s, e, ready, kind, script);
    VisitedLog(s, e, ready, kind, script);
    PassLog(t, Link(s, e), ready, kind, script);
    assert P(EventDel(s, e));
    FireStable(P, C, EventDel(s, e), e, kind, script);
    PassStable(P, C, t, Link(s, e), ready, kind, script);
    assert P(Pass(s, Some(e), ready, kind, script).s);
  }

  lemma {:induction false} CalledUnarmed(s: State, cur: Option<Id>, ready: set<int>, kind: Flag, script: Script, k: nat)
    requires Inv(s) && s.inloop
    requires var r := Pass(s, cur, ready, kind, script); var v := r.visits;
      k < |v| && v[k].called && UnarmedBetween(script, |v[k].s.h.log|, |r.s.h.log|, v[k].e)
    ensures var r := Pass(s, cur, ready, kind, script);
      r.visits[k].e !in r.s.timeq && |r.visits[k].s.h.log| <= |r.s.h.log|
    decreases k
  {
    if k == 0 {
      CalledNow(s, cur.value, ready, kind, script);
      PassLog(s, cur, ready, kind, script);
    } else {
      var t := PassAfterFirst(s, cur, ready, kind, script, k);
      CalledUnarmed(t, Link(s, cur.value), ready, kind, script, k - 1);
    }
  }

  lemma {:induction false} PassAfterFirst(s: State, cur: Option<Id>, ready: set<int>, kind: Flag, script: Script, k: nat) returns (t: State)
    requires Inv(s) && s.inloop && 0 < k < |Pass(s, cur, ready, kind, script).visits|
    ensures cur.Some? && Inv(t) && t.inloop
    ensures var r, r' := Pass(s, cur, ready, kind, script), Pass(t, Link(s, cur.value), ready, kind, script);
      k - 1 < |r'.visits| && r.visits[k] == r'.visits[k - 1] && r.s == r'.s
  {
    t := Visited(s, cur.value, ready, kind, script);
    RankDrops(s, cur.value, ready, kind, script);
  }

  lemma {:induction false} UnarmedNoTimeout(s: State, now: Time, script: Script, n: nat, e: Id)
    requires Inv(s) && e !in s.timeq && UnarmedBetween(script, |s.h.log|, |Timeouts(s, now, script, n).h.log|, e)
    ensures var log := Timeouts(s, now, script, n).h.log;
      Extends(s.h.log, log) && forall k :: |s.h.log| <= k < |log| ==> log[k] != Firing(e, TIMEOUT)
    decreases n
  {
    if n == 0 || !Due(s, now) {
      assert Timeouts(s, now, script, n) == s;
    } else {
      var t := UnarmedRound(s, now, script, n, e);
      UnarmedNoTimeout(t, now, script, n - 1, e);
      SilentOn(s.h.log, t.h.log, Timeouts(t, now, script, n - 1).h.log, e);
    }
  }

  lemma {:induction false} SilentOn(a: seq<Firing>, b: seq<Firing>, c: seq<Firing>, e: Id)
    requires Extends(a, b) && Extends(b, c) && |b| == |a| + 1 && b[|a|] != Firing(e, TIMEOUT)
    requires forall k :: |b| <= k < |c| ==> c[k] != Firing(e, TIMEOUT)
    ensures Extends(a, c) && forall k :: |a| <= k < |c| ==> c[k] != Firing(e, TIMEOUT)
  {}

  lemma {:induction false} UnarmedRound(s: State, now: Time, script: Script, n: nat, e: Id) returns (t: State)
    requires Inv(s) && e !in s.timeq && Due(s, now) && n > 0
    requires UnarmedBetween(script, |s.h.log|, |Timeouts(s, now, script, n).h.log|, e)
    ensures Timeouts(s, now, script, n) == Timeouts(t, now, script, n - 1)
    ensures Inv(t) && e !in t.timeq && Extends(s.h.log, t.h.log) && |t.h.log| == |s.h.log| + 1
    ensures t.h.log[|s.h.log|] != Firing(e, TIMEOUT)
  {
    var P, C := (x: State) => e !in x.timeq, (c: Call) => Unarming(c, e);
    UnarmedStable(e);
    assert P(s);
    t := RoundStable(P, C, s, now, script, n);
    assert P(t);
  }

  /**
   An event called in the read pass whose deadline no callback sets again, from that call
   to the end of the iteration, is not called for its deadline in the same iteration.
   */
  lemma {:induction false} OldDeadlineSilent(s: State, sel: Select, script: Script, k: nat)
    requires Inv(s)
    requires var v := ReadPass(s, sel, script).visits;
      k < |v| && v[k].called && UnarmedBetween(script, |v[k].s.h.log|, |Iterate(s, sel, script).h.log|, v[k].e)
    ensures var e, n := ReadPass(s, sel, script).visits[k].e, |Recalculated(s, sel, script).h.log|;
      var log := Iterate(s, sel, script).h.log;
      forall j :: n <= j < |log| ==> log[j] != Firing(e, TIMEOUT)
  {
    var r, w := ReadPass(s, sel, script), WritePass(s, sel, script);
    var e, m := r.visits[k].e, r.s;
    EnterInv(s);
    IterateLog(s, sel, script);
    CalledUnarmed(Enter(s), IdAt(s.readq, 0), sel.readable * Fds(s, s.readq), READ, script, k);
    UnarmedStable(e);
    var P, C := (x: State) => e !in x.timeq, (c: Call) => Unarming(c, e);
    assert P(m) && Obeys(script, |m.h.log|, |w.s.h.log|, C);
    PassStable(P, C, m, IdAt(m.writeq, 0), sel.writable * Fds(s, s.writeq), WRITE, script);
    assert P(w.s);
    RecalculatedSettled(s, sel, script);
    UnarmedNoTimeout(Recalculated(s, sel, script), sel.now, script, sel.rounds, e);
  }
}
