/**
 The two dispatch passes.  Both walk `ev_read_next`, the write pass too, and both call
 back into the library; while they run, additions are postponed and deletions are not.
 */
module EventPass {
  import opened Options
  import opened Tailq
  import opened Timeval
  import opened EventState
  import opened EventInvariant

  /** How a state may differ from an earlier one of the same passes. */
  ghost predicate Within(s: State, t: State) {
    && s.inloop && t.inloop
    && t.h.stamp == s.h.stamp && t.h.inserts == s.h.inserts
    && t.fds == s.fds && t.fdsz == s.fdsz
    && |s.h.log| <= |t.h.log|
    && (forall x :: x in t.readq ==> x in s.readq)
    && (forall x :: x in t.writeq ==> x in s.writeq)
    && (forall x :: x in t.readq || x in t.writeq ==>
          Get(t.ev, x).fd == Get(s.ev, x).fd && Get(t.ev, x).events == Get(s.ev, x).events)
  }

  /**
   The links of the events in `r`, queued or already removed, stay in `r` and skip no
   queued event.
   */
  ghost predicate Closed(link: map<Id, Option<Id>>, stamp: map<Id, nat>, q: seq<Id>, r: seq<Id>) {
    && (forall z :: z in q ==> z in r)
    && (forall x {:trigger At(link, x)} :: x in r && At(link, x).Some? ==> At(link, x).value in r)
    && (forall x, z {:trigger At(link, x), z in q} :: x in r && z in q && Count(stamp, x) < Count(stamp, z) ==>
          At(link, x).Some? && Count(stamp, At(link, x).value) <= Count(stamp, z))
  }

  ghost predicate Reaches(s: State, r: seq<Id>) {
    Closed(s.link, s.h.stamp, s.readq, r)
  }

  /** Everything that holds of `s` when the pass began in `base`. */
  ghost predicate PassInv(base: State, s: State) {
    Inv(s) && Within(base, s) && Reaches(s, base.readq)
  }

  /** A queue threaded by its own links skips nothing. */
  lemma ThreadedClosed(s: State)
    requires Inv(s)
    ensures Reaches(s, s.readq)
  {
    var q := s.readq;
    forall x | x in q
      ensures At(s.link, x).Some? ==> At(s.link, x).value in q
      ensures forall z :: z in q && Stamp(s, x) < Stamp(s, z) ==>
          At(s.link, x).Some? && Count(s.h.stamp, At(s.link, x).value) <= Count(s.h.stamp, z)
    {
      var i :| 0 <= i < |q| && q[i] == x;
      assert At(s.link, q[i]) == IdAt(q, i + 1);
      forall z | z in q && Stamp(s, x) < Stamp(s, z)
        ensures At(s.link, x).Some? && Count(s.h.stamp, At(s.link, x).value) <= Count(s.h.stamp, z)
      {
        var j :| 0 <= j < |q| && q[j] == z;
      }
    }
  }

  lemma PassStart(s: State)
    requires Inv(s) && s.inloop
    ensures PassInv(s, s)
  {
    ThreadedClosed(s);
  }

  lemma {:induction false} NextInOrder(stamp: map<Id, nat>, q: seq<Id>, k: nat, z: Id)
    requires InOrder(stamp, q) && 0 < k < |q| && z in q && z != q[k]
    requires Count(stamp, q[k - 1]) < Count(stamp, z)
    ensures Count(stamp, q[k]) < Count(stamp, z)
  {
    var j :| 0 <= j < |q| && q[j] == z;
    assert k < j;
  }

  /** A removal from the read queue leaves links that still skip only removed events. */
  lemma {:induction false} UnlinkClosed(link: map<Id, Option<Id>>, stamp: map<Id, nat>, q: seq<Id>, e: Id, r: seq<Id>)
    requires Threaded(link, q) && InOrder(stamp, q) && Distinct(q)
    requires Closed(link, stamp, q, r)
    ensures Closed(Unlink(link, q, e), stamp, Without(q, e), r)
  {
    WithoutKeeps(q, e);
    if e in q && IndexOf(q, e) > 0 {
      var k, link' := IndexOf(q, e), Unlink(link, q, e);
      var p := q[k - 1];
      assert link' == link[p := At(link, q[k])];
      assert forall x :: At(link', x) == if x == p then At(link, q[k]) else At(link, x);
      SkipClosed(link, link', stamp, q, Without(q, e), k, r);
    }
  }

  lemma {:induction false} SkipClosed(link: map<Id, Option<Id>>, link': map<Id, Option<Id>>, stamp: map<Id, nat>,
                   q: seq<Id>, q': seq<Id>, k: nat, r: seq<Id>)
    requires InOrder(stamp, q) && Closed(link, stamp, q, r)
    requires 0 < k < |q| && forall x :: x in q' ==> x in q && x != q[k]
    requires forall x :: At(link', x) == if x == q[k - 1] then At(link, q[k]) else At(link, x)
    ensures Closed(link', stamp, q', r)
  {
    assert q[k] in q;
    forall x, z | x in r && z in q' && Count(stamp, x) < Count(stamp, z)
      ensures At(link', x).Some? && Count(stamp, At(link', x).value) <= Count(stamp, z)
    {
      if x == q[k - 1] {
        NextInOrder(stamp, q, k, z);
      }
    }
  }

  lemma EventDelWithin(s: State, e: Id)
    requires Inv(s) && s.inloop
    ensures Within(s, EventDel(s, e))
  {
    WithoutKeeps(s.readq, e);
    WithoutKeeps(s.writeq, e);
  }

  lemma EventDelPass(base: State, s: State, e: Id)
    requires PassInv(base, s)
    ensures PassInv(base, EventDel(s, e)) && Within(s, EventDel(s, e))
  {
    EventDelInv(s, e);
    EventDelWithin(s, e);
    WithinTrans(base, s, EventDel(s, e));
    UnlinkClosed(s.link, s.h.stamp, s.readq, e, base.readq);
  }

  lemma WithinTrans(a: State, b: State, c: State)
    requires Within(a, b) && Within(b, c)
    ensures Within(a, c)
  {}

  lemma {:induction false} EventAddWithin(s: State, e: Id, tv: Option<Time>, now: Time)
    requires Inv(s) && s.inloop
    ensures Within(s, EventAdd(s, e, tv, now))
    ensures EventAdd(s, e, tv, now).link == s.link && EventAdd(s, e, tv, now).readq == s.readq
    ensures EventAdd(s, e, tv, now).writeq == s.writeq
  {
    if tv.Some? {
      ArmWithin(s, e, Plus(now, tv.value));
    }
    PostponeWithin(if tv.Some? then Arm(s, e, Plus(now, tv.value)) else s, e);
  }

  lemma ArmWithin(s: State, e: Id, d: Time)
    requires s.inloop
    ensures var t := Arm(s, e, d);
      Within(s, t) && t.link == s.link && t.readq == s.readq && t.writeq == s.writeq
  {}

  lemma PostponeWithin(s: State, e: Id)
    requires s.inloop
    ensures var t := Note(Postpone(s, e), Requested(e));
      Within(s, t) && t.link == s.link && t.readq == s.readq && t.writeq == s.writeq
  {}

  lemma EventSetWithin(s: State, e: Id, fd: int, events: set<Flag>)
    requires Inv(s) && s.inloop && Unqueued(s, e)
    ensures Within(s, EventSet(s, e, fd, events))
  {
    assert e !in s.readq && e !in s.writeq;
  }

  lemma ExecPass(base: State, s: State, c: Call)
    requires PassInv(base, s)
    ensures PassInv(base, Exec(s, c)) && Within(s, Exec(s, c))
  {
    ExecInv(s, c);
    match c {
      case Add(e, tv, now) =>
        EventAddWithin(s, e, tv, now);
        WithinTrans(base, s, EventAdd(s, e, tv, now));
      case Del(e) =>
        EventDelPass(base, s, e);
      case Set(e, fd, events) =>
        if Unqueued(s, e) {
          EventSetWithin(s, e, fd, events);
          WithinTrans(base, s, EventSet(s, e, fd, events));
        }
    }
  }

  lemma {:induction false} ExecAllPass(base: State, s: State, cs: seq<Call>)
    requires PassInv(base, s)
    ensures PassInv(base, ExecAll(s, cs)) && Within(s, ExecAll(s, cs))
    decreases |cs|
  {
    if cs != [] {
      ExecPass(base, s, cs[0]);
      ExecAllPass(base, Exec(s, cs[0]), cs[1..]);
      WithinTrans(s, Exec(s, cs[0]), ExecAll(s, cs));
    }
  }

  lemma FirePass(base: State, s: State, e: Id, kind: Flag, script: Script)
    requires PassInv(base, s)
    ensures var t := Fire(s, e, kind, script); PassInv(base, t) && Within(s, t)
  {
    var s1 := s.(h := s.h.(log := s.h.log + [Firing(e, kind)]));
    assert Within(s, s1);
    WithinTrans(base, s, s1);
    ExecAllPass(base, s1, script(|s.h.log|));
    WithinTrans(s, s1, Fire(s, e, kind, script));
  }

  /** Has select reported the event's descriptor? */
  predicate Hit(s: State, e: Id, ready: set<int>) {
    Ev(s, e).fd in ready
  }

  /** One round of a pass: delete and call the event if it is ready. */
  function Visited(s: State, e: Id, ready: set<int>, kind: Flag, script: Script): State {
    if Hit(s, e, ready) then Fire(EventDel(s, e), e, kind, script) else s
  }

  lemma VisitedPass(base: State, s: State, e: Id, ready: set<int>, kind: Flag, script: Script)
    requires PassInv(base, s)
    ensures var t := Visited(s, e, ready, kind, script); PassInv(base, t) && Within(s, t)
  {
    if Hit(s, e, ready) {
      EventDelPass(base, s, e);
      FirePass(base, EventDel(s, e), e, kind, script);
      WithinTrans(s, EventDel(s, e), Fire(EventDel(s, e), e, kind, script));
    }
  }

  /** A turn of a pass: the event looked at, the state it was looked at in, and whether it was called. */
  datatype Visit = Visit(e: Id, s: State, called: bool)

  datatype PassResult = PassResult(s: State, visits: seq<Visit>)

  ghost function Rank(s: State, cur: Option<Id>): int {
    if cur.Some? then 1 + s.h.inserts - Stamp(s, cur.value) else 0
  }

  /** The next turn exists only for an event inserted strictly later. */
  lemma RankDrops(s: State, e: Id, ready: set<int>, kind: Flag, script: Script)
    requires Inv(s) && s.inloop
    ensures var t := Visited(s, e, ready, kind, script);
      && Inv(t) && t.inloop && Rank(t, Link(s, e)) < Rank(s, Some(e)) && 0 <= Rank(s, Some(e))
  {
    PassStart(s);
    VisitedPass(s, s, e, ready, kind, script);
    assert Count(s.h.stamp, e) <= s.h.inserts;
    assert At(s.link, e).Some? ==> Count(s.h.stamp, e) < Count(s.h.stamp, At(s.link, e).value);
  }

  /**
   A dispatch pass from `cur` on.  It terminates for every script: every link leads to an
   event inserted strictly later, and a pass inserts nothing.
   */
  ghost function Pass(s: State, cur: Option<Id>, ready: set<int>, kind: Flag, script: Script): PassResult
    requires Inv(s) && s.inloop
    decreases Rank(s, cur)
  {
    if cur.None? then PassResult(s, []) else
    RankDrops(s, cur.value, ready, kind, script);
    var r := Pass(Visited(s, cur.value, ready, kind, script), Link(s, cur.value), ready, kind, script);
    r.(visits := [Visit(cur.value, s, Hit(s, cur.value, ready))] + r.visits)
  }

  /** The state that follows the first turn of a pass is the second turn's, or the last one. */
  function Begin(v: seq<Visit>, end: State): State {
    if v == [] then end else v[0].s
  }

  /** What one turn does, as far as the walk is concerned. */
  ghost predicate Turn(v: Visit, ready: set<int>, next: State) {
    && Within(v.s, next)
    && (v.called <==> Hit(v.s, v.e, ready))
    && (v.called ==> v.e !in next.readq && v.e !in next.writeq)
    && (!v.called ==> next == v.s)
  }

  /** The part of `PassInv` that the walk itself rests on. */
  ghost predicate OnPath(base: State, s: State) {
    && Ascending(s.link, base.h.stamp)
    && Closed(s.link, base.h.stamp, s.readq, base.readq)
  }

  /** The visits of a pass begun in `base`, from `cur` to the end. */
  ghost predicate Walk(base: State, cur: Option<Id>, ready: set<int>, v: seq<Visit>, end: State)
    decreases |v|
  {
    if v == [] then cur.None? && OnPath(base, end) else
    && cur == Some(v[0].e)
    && OnPath(base, v[0].s)
    && Turn(v[0], ready, Begin(v[1..], end))
    && Walk(base, Link(v[0].s, v[0].e), ready, v[1..], end)
  }

  lemma VisitedTurn(base: State, s: State, e: Id, ready: set<int>, kind: Flag, script: Script)
    requires PassInv(base, s)
    ensures Turn(Visit(e, s, Hit(s, e, ready)), ready, Visited(s, e, ready, kind, script))
  {
    VisitedPass(base, s, e, ready, kind, script);
    if Hit(s, e, ready) {
      EventDelPass(base, s, e);
      WithoutKeeps(s.readq, e);
      WithoutKeeps(s.writeq, e);
      FirePass(base, EventDel(s, e), e, kind, script);
    }
  }

  lemma {:induction false} PassWalks(base: State, s: State, cur: Option<Id>, ready: set<int>, kind: Flag, script: Script)
    requires PassInv(base, s)
    ensures var r := Pass(s, cur, ready, kind, script);
      && PassInv(base, r.s) && Within(s, r.s)
      && Walk(base, cur, ready, r.visits, r.s) && Begin(r.visits, r.s) == s
    decreases Rank(s, cur)
  {
    if cur.Some? {
      var t := Visited(s, cur.value, ready, kind, script);
      VisitedPass(base, s, cur.value, ready, kind, script);
      VisitedTurn(base, s, cur.value, ready, kind, script);
      RankDrops(s, cur.value, ready, kind, script);
      PassWalks(base, t, Link(s, cur.value), ready, kind, script);
      var r := Pass(s, cur, ready, kind, script);
      assert r.visits[1..] == Pass(t, Link(s, cur.value), ready, kind, script).visits;
      WithinTrans(s, t, r.s);
    }
  }
}
