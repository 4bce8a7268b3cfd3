/** What the loop as written does not guarantee: for each, runs from the start that show it. */
module EventWitness {
  import opened Options
  import opened Tailq
  import opened Timeval
  import opened EventState
  import opened EventInvariant
  import opened EventPass
  import opened EventLoop
  import opened EventStable
  import opened EventOnce
  import opened EventFds
  import opened EventReplay
  import opened EventStale

  // ----- clients that set and add their events, one after the other --------------------

  function Enrol(s: State, ids: seq<Id>, kinds: Id -> set<Flag>, fds: Id -> int): State
    decreases |ids|
  {
    if ids == [] then s else Enrol(EnrolOne(s, ids[0], kinds, fds), ids[1..], kinds, fds)
  }

  function EnrolOne(s: State, e: Id, kinds: Id -> set<Flag>, fds: Id -> int): State {
    Exec(Exec(s, Set(e, fds(e), kinds(e))), Add(e, None, Time(0, 0)))
  }

  /** The members of `ids` with this interest. */
  function Wanting(ids: seq<Id>, f: Flag, kinds: Id -> set<Flag>): seq<Id> {
    if ids == [] then [] else Only(ids[0], f, kinds) + Wanting(ids[1..], f, kinds)
  }

  function Only(e: Id, f: Flag, kinds: Id -> set<Flag>): seq<Id> {
    if f in kinds(e) then [e] else []
  }

  lemma OneWanting(e: Id, f: Flag, kinds: Id -> set<Flag>)
    ensures Wanting([e], f, kinds) == Only(e, f, kinds)
  {
    assert [e][1..] == [];
    assert Wanting([], f, kinds) == [];
  }

  /** `t` is `s` with the events of `ids` enrolled. */
  ghost predicate Enrolled(s: State, ids: seq<Id>, kinds: Id -> set<Flag>, fds: Id -> int, t: State) {
    && t.readq == s.readq + Wanting(ids, READ, kinds)
    && t.writeq == s.writeq + Wanting(ids, WRITE, kinds)
    && t.timeq == s.timeq && t.h.log == s.h.log
    && EnrolledRecords(s, ids, kinds, fds, t)
  }

  ghost predicate EnrolledRecords(s: State, ids: seq<Id>, kinds: Id -> set<Flag>, fds: Id -> int, t: State) {
    forall x :: if x in ids then Ev(t, x).fd == fds(x) && Ev(t, x).events == kinds(x) else Ev(t, x) == Ev(s, x)
  }

  lemma EnrolOneState(s: State, e: Id, kinds: Id -> set<Flag>, fds: Id -> int)
    requires Settled(s) && Ev(s, e) == BLANK
    ensures var t := EnrolOne(s, e, kinds, fds); Settled(t) && Enrolled(s, [e], kinds, fds, t)
  {
    var s1 := EventSet(s, e, fds(e), kinds(e));
    assert s1 == Exec(s, Set(e, fds(e), kinds(e)));
    ExecSettled(s, Set(e, fds(e), kinds(e)));
    ExecSettled(s1, Add(e, None, Time(0, 0)));
    assert Ev(s1, e) == Event(fds(e), kinds(e), Time(0, 0), {INIT});
    AddFresh(s1, e);
    OneWanting(e, READ, kinds);
    OneWanting(e, WRITE, kinds);
    forall x | x !in [e] ensures Ev(EnrolOne(s, e, kinds, fds), x) == Ev(s, x) {
      assert Ev(s1, x) == Ev(s, x);
    }
  }

  /** Adding, without a deadline, an event that is on no queue. */
  lemma AddFresh(s: State, e: Id)
    requires !s.inloop && Unqueued(s, e)
    ensures var t := Exec(s, Add(e, None, Time(0, 0)));
      && t.readq == s.readq + (if READ in Ev(s, e).events then [e] else [])
      && t.writeq == s.writeq + (if WRITE in Ev(s, e).events then [e] else [])
      && t.timeq == s.timeq && t.h.log == s.h.log
      && Ev(t, e).fd == Ev(s, e).fd && Ev(t, e).events == Ev(s, e).events
      && forall x :: x != e ==> Ev(t, x) == Ev(s, x)
  {
    var m := AddRead(s, e);
    assert Exec(s, Add(e, None, Time(0, 0))) == AddWrite(m, e);
    assert WRITE !in Ev(m, e).flags && Ev(m, e).events == Ev(s, e).events;
  }

  lemma {:induction false} EnrolState(s: State, ids: seq<Id>, kinds: Id -> set<Flag>, fds: Id -> int)
    requires Settled(s) && Distinct(ids) && forall x :: x in ids ==> Ev(s, x) == BLANK
    ensures var t := Enrol(s, ids, kinds, fds); Settled(t) && Enrolled(s, ids, kinds, fds, t)
    decreases |ids|
  {
    if ids != [] {
      var t := EnrolFirst(s, ids, kinds, fds);
      EnrolState(t, ids[1..], kinds, fds);
      EnrolJoin(s, ids, kinds, fds, t, Enrol(s, ids, kinds, fds));
    }
  }

  lemma {:induction false} EnrolFirst(s: State, ids: seq<Id>, kinds: Id -> set<Flag>, fds: Id -> int) returns (t: State)
    requires Settled(s) && ids != [] && Distinct(ids) && forall x :: x in ids ==> Ev(s, x) == BLANK
    ensures Settled(t) && Enrolled(s, [ids[0]], kinds, fds, t) && Enrol(s, ids, kinds, fds) == Enrol(t, ids[1..], kinds, fds)
    ensures Distinct(ids[1..]) && forall x :: x in ids[1..] ==> Ev(t, x) == BLANK
  {
    t := EnrolOne(s, ids[0], kinds, fds);
    EnrolOneState(s, ids[0], kinds, fds);
  }

  lemma {:induction false} EnrolJoin(s: State, ids: seq<Id>, kinds: Id -> set<Flag>, fds: Id -> int, t: State, u: State)
    requires ids != [] && Distinct(ids)
    requires Enrolled(s, [ids[0]], kinds, fds, t) && Enrolled(t, ids[1..], kinds, fds, u)
    ensures Enrolled(s, ids, kinds, fds, u)
  {
    WantingJoin(s.readq, ids, READ, kinds, u.readq);
    WantingJoin(s.writeq, ids, WRITE, kinds, u.writeq);
    RecordsJoin(s, ids, kinds, fds, t, u);
  }

  lemma {:induction false} Associative(a: seq<Id>, b: seq<Id>, c: seq<Id>)
    ensures (a + b) + c == a + (b + c)
  {}

  lemma {:induction false} WantingJoin(q: seq<Id>, ids: seq<Id>, f: Flag, kinds: Id -> set<Flag>, r: seq<Id>)
    requires ids != [] && r == (q + Wanting([ids[0]], f, kinds)) + Wanting(ids[1..], f, kinds)
    ensures r == q + Wanting(ids, f, kinds)
  {
    OneWanting(ids[0], f, kinds);
    Associative(q, Only(ids[0], f, kinds), Wanting(ids[1..], f, kinds));
  }

  lemma {:induction false} RecordsJoin(s: State, ids: seq<Id>, kinds: Id -> set<Flag>, fds: Id -> int, t: State, u: State)
    requires ids != [] && Distinct(ids)
    requires EnrolledRecords(s, [ids[0]], kinds, fds, t) && EnrolledRecords(t, ids[1..], kinds, fds, u)
    ensures EnrolledRecords(s, ids, kinds, fds, u)
  {
    forall x ensures if x in ids then Ev(u, x).fd == fds(x) && Ev(u, x).events == kinds(x) else Ev(u, x) == Ev(s, x) {
      assert x in ids <==> x == ids[0] || x in ids[1..];
    }
  }

  function EnrolActs(ids: seq<Id>, kinds: Id -> set<Flag>, fds: Id -> int): seq<Action> {
    if ids == [] then [] else
    [Outside(Set(ids[0], fds(ids[0]), kinds(ids[0]))), Outside(Add(ids[0], None, Time(0, 0)))]
      + EnrolActs(ids[1..], kinds, fds)
  }

  lemma {:induction false} RunTwo(s: State, c: Call, d: Call, acts: seq<Action>, script: Script)
    requires Settled(s)
    ensures Settled(Exec(Exec(s, c), d))
    ensures Run(s, [Outside(c), Outside(d)] + acts, script) == Run(Exec(Exec(s, c), d), acts, script)
  {
    var all := [Outside(c), Outside(d)] + acts;
    ExecSettled(s, c);
    ExecSettled(Exec(s, c), d);
    assert all[1..][1..] == acts;
    assert Run(s, all, script) == Run(Act(s, all[0], script), all[1..], script);
  }

  lemma {:induction false} EnrolRun(s: State, ids: seq<Id>, kinds: Id -> set<Flag>, fds: Id -> int, script: Script)
    requires Settled(s)
    ensures Run(s, EnrolActs(ids, kinds, fds), script) == Enrol(s, ids, kinds, fds)
    decreases |ids|
  {
    if ids != [] {
      var e := ids[0];
      RunTwo(s, Set(e, fds(e), kinds(e)), Add(e, None, Time(0, 0)), EnrolActs(ids[1..], kinds, fds), script);
      EnrolRun(EnrolOne(s, e, kinds, fds), ids[1..], kinds, fds, script);
    }
  }

  lemma {:induction false} EnrolFixed(ids: seq<Id>, kinds: Id -> set<Flag>, fds: Id -> int)
    ensures forall a :: a in EnrolActs(ids, kinds, fds) ==> a.Outside? && Fixed(a.c, kinds) && Describes(a.c, fds)
    ensures |EnrolActs(ids, kinds, fds)| == 2 * |ids|
  {
    if ids != [] {
      EnrolFixed(ids[1..], kinds, fds);
    }
  }

  /** The run is one of calls from outside that keep to the interests and descriptors, and it ends in `s`. */
  ghost predicate Reaches(acts: seq<Action>, kinds: Id -> set<Flag>, fds: Id -> int, script: Script, s: State) {
    && (forall a :: a in acts ==> a.Outside? && Fixed(a.c, kinds) && Describes(a.c, fds))
    && Settled(START) && Run(START, acts, script) == s
  }

  /** The state that a run from the start reaches by enrolling `ids`. */
  lemma {:induction false} Reach(ids: seq<Id>, kinds: Id -> set<Flag>, fds: Id -> int, script: Script) returns (acts: seq<Action>, s: State)
    requires Distinct(ids) && FixedFrom(script, 0, kinds)
    ensures Reaches(acts, kinds, fds, script, s) && |acts| == 2 * |ids|
    ensures Settled(s) && Coupled(s, kinds) && Enrolled(START, ids, kinds, fds, s)
  {
    StartInv();
    acts, s := EnrolActs(ids, kinds, fds), Enrol(START, ids, kinds, fds);
    EnrolState(START, ids, kinds, fds);
    EnrolRun(START, ids, kinds, fds, script);
    EnrolFixed(ids, kinds, fds);
    RunCoupled(acts, script, kinds);
  }

  // ----- deleted events are called ---------------------------------------------------

  /**
   When the read pass comes to an event, the event is off the read queue exactly when it
   has been deleted since the pass began.
   */
  lemma {:induction false} StaleVisitExactly(s: State, sel: Select, script: Script, k: nat)
    requires Settled(s) && k < |ReadPass(s, sel, script).visits|
    ensures var v := ReadPass(s, sel, script).visits[k];
      v.e !in v.s.readq <==> Deleted(v.e) in v.s.h.ops
  {
    ReadPassOrder(s, sel, script, k, k);
    ReadPassReplayed(s, sel, script, k);
  }

  lemma {:induction false} ReadPassReplayed(s: State, sel: Select, script: Script, k: nat)
    requires Settled(s) && k < |ReadPass(s, sel, script).visits|
    ensures Replayed(s, ReadPass(s, sel, script).visits[k].s)
  {
    var P, C, s0 := (t: State) => Replayed(s, t), (c: Call) => true, Enter(s);
    EnterInv(s);
    ReplayedStable(s);
    NoOpsSurvive(s.readq);
    NoOpsSurvive(s.writeq);
    assert P(s0);
    PassStable(P, C, s0, IdAt(s.readq, 0), sel.readable * Fds(s, s.readq), READ, script);
    assert P(ReadPass(s, sel, script).visits[k].s);
  }

  lemma DeletingCallback(s: State, a: Id, script: Script, b: Id)
    requires Inv(s) && script(|s.h.log|) == [Del(b)]
    ensures var t := Fire(s, a, READ, script); b !in t.readq && Ev(t, b).fd == Ev(s, b).fd
  {
    var u := Logged(s, Firing(a, READ));
    assert [Del(b)][1..] == [];
    assert Fire(s, a, READ, script) == ExecAll(Exec(u, Del(b)), []) == EventDel(u, b);
    WithoutKeeps(s.readq, b);
  }

  /**
   event_del does not stop a callback: when the first reader's callback deletes the second,
   which the loop has already saved as next, the second is called although it is off every queue.
   */
  lemma DeletedStillCalled(s: State, sel: Select, script: Script)
    requires Inv(s) && |s.readq| >= 2 && script(|s.h.log|) == [Del(s.readq[1])]
    requires Ev(s, s.readq[0]).fd in sel.readable && Ev(s, s.readq[1]).fd in sel.readable
    ensures var v := ReadPass(s, sel, script).visits;
      |v| >= 2 && v[1].e == s.readq[1] && v[1].called && v[1].e !in v[1].s.readq
  {
    var s0, a, b := Enter(s), s.readq[0], s.readq[1];
    var ready := sel.readable * Fds(s, s.readq);
    EnterInv(s);
    assert a in s.readq && b in s.readq;
    assert At(s.link, s.readq[0]) == IdAt(s.readq, 1);
    var t := Visited(s0, a, ready, READ, script);
    RankDrops(s0, a, ready, READ, script);
    EventDelInv(s0, a);
    DeletingCallback(EventDel(s0, a), a, script, b);
    var rest := Pass(t, Some(b), ready, READ, script);
    RankDrops(t, b, ready, READ, script);
    assert rest.visits[0] == Visit(b, t, true);
  }

  lemma TwoWanting(x: Id, y: Id, f: Flag, kinds: Id -> set<Flag>)
    ensures Wanting([x, y], f, kinds) == Only(x, f, kinds) + Only(y, f, kinds)
  {
    assert [x, y][1..] == [y];
    OneWanting(y, f, kinds);
  }

  /** It happens to any two readers: four calls, and a first callback that deletes the second. */
  lemma DeletedCalledReached(x: Id, y: Id, kinds: Id -> set<Flag>, fds: Id -> int, sel: Select, script: Script)
      returns (acts: seq<Action>, s: State)
    requires x != y && READ in kinds(x) && READ in kinds(y) && FixedFrom(script, 0, kinds)
    requires fds(x) in sel.readable && fds(y) in sel.readable && script(0) == [Del(y)]
    ensures Reaches(acts, kinds, fds, script, s) && |acts| == 4 && Settled(s)
    ensures var v := ReadPass(s, sel, script).visits; |v| >= 2 && v[1].e == y && v[1].called && y !in v[1].s.readq
  {
    acts, s := Reach([x, y], kinds, fds, script);
    TwoWanting(x, y, READ, kinds);
    assert s.readq == [x, y];
    DeletedStillCalled(s, sel, script);
  }

  // ----- readers are called for writing ----------------------------------------------

  /** The first two turns of a write pass whose first writer has a successor on the read queue. */
  lemma WritePassGoesOn(m: State, x: Id, y: Id, ready: set<int>, script: Script)
    requires Inv(m) && m.inloop && Link(m, x) == Some(y) && x != y && script(|m.h.log|) == []
    ensures var v := Pass(m, Some(x), ready, WRITE, script).visits;
      |v| >= 2 && v[1].e == y && (v[1].called <==> Ev(m, y).fd in ready)
  {
    var t := Visited(m, x, ready, WRITE, script);
    RankDrops(m, x, ready, WRITE, script);
    var rest := Pass(t, Some(y), ready, WRITE, script);
    RankDrops(t, y, ready, WRITE, script);
    assert rest.visits[0] == Visit(y, t, Hit(t, y, ready));
    assert Ev(t, y).fd == Ev(m, y).fd;
  }

  lemma ReaderCalled(s: State, x: Id, y: Id, w: Id, sel: Select, script: Script)
    requires Settled(s) && sel.readable == {} && Ev(s, y).fd in sel.writable && script(|s.h.log|) == []
    requires |s.readq| >= 2 && s.readq[0] == x && s.readq[1] == y && s.writeq != [] && s.writeq[0] == x
    requires w in s.writeq && Ev(s, w).fd == Ev(s, y).fd
    ensures var v := WritePass(s, sel, script).visits; |v| >= 2 && v[1].e == y && v[1].called
  {
    var m := Enter(s);
    EnterInv(s);
    assert sel.readable * Fds(s, s.readq) == {};
    IdlePass(m, IdAt(s.readq, 0), READ, script);
    assert ReadPass(s, sel, script).s == m;
    assert At(s.link, s.readq[0]) == IdAt(s.readq, 1);
    WritePassGoesOn(m, x, y, sel.writable * Fds(s, s.writeq), script);
  }

  lemma ThreeWanting(x: Id, y: Id, w: Id, f: Flag, kinds: Id -> set<Flag>)
    ensures Wanting([x, y, w], f, kinds) == Only(x, f, kinds) + Wanting([y, w], f, kinds)
  {
    assert [x, y, w][1..] == [y, w];
  }

  /**
   The write pass reports EV_WRITE to an event that only reads, whenever there is an
   impostor among the client's events: enrol them and let its descriptor be writable.
   */
  lemma ImpostorCalled(x: Id, y: Id, w: Id, kinds: Id -> set<Flag>, fds: Id -> int, sel: Select, script: Script)
      returns (acts: seq<Action>, s: State)
    requires Impostor(kinds, fds, x, y, w) && sel.readable == {} && fds(y) in sel.writable
    requires FixedFrom(script, 0, kinds) && script(0) == []
    ensures Reaches(acts, kinds, fds, script, s) && Settled(s) && WRITE !in Ev(s, y).events && y !in s.writeq
    ensures var v := WritePass(s, sel, script).visits; |v| >= 2 && v[1].e == y && v[1].called
  {
    var ids := ImpostorIds(x, y, w, kinds, fds);
    acts, s := Reach(ids, kinds, fds, script);
    EnrolledQueues(ids, kinds, fds, s);
    EnrolledEvent(ids, kinds, fds, s, y);
    EnrolledEvent(ids, kinds, fds, s, w);
    ReaderCalled(s, x, y, w, sel, script);
  }

  lemma {:induction false} EnrolledQueues(ids: seq<Id>, kinds: Id -> set<Flag>, fds: Id -> int, s: State)
    requires Enrolled(START, ids, kinds, fds, s)
    ensures s.readq == Wanting(ids, READ, kinds) && s.writeq == Wanting(ids, WRITE, kinds)
    ensures s.timeq == [] && s.h.log == []
  {}

  lemma {:induction false} EnrolledEvent(ids: seq<Id>, kinds: Id -> set<Flag>, fds: Id -> int, s: State, e: Id)
    requires Enrolled(START, ids, kinds, fds, s) && e in ids
    ensures Ev(s, e).fd == fds(e) && Ev(s, e).events == kinds(e)
  {}

  /** The event `y` comes right after the first writer `x` on the read queue, and `w` writes. */
  ghost predicate Behind(ids: seq<Id>, x: Id, y: Id, w: Id, kinds: Id -> set<Flag>) {
    && x in ids && y in ids && w in ids
    && (var q := Wanting(ids, READ, kinds); |q| >= 2 && q[0] == x && q[1] == y)
    && (var q := Wanting(ids, WRITE, kinds); q != [] && q[0] == x && y !in q && w in q)
  }

  /** The events to enrol, so that the impostor comes right after the first writer on the read queue. */
  lemma ImpostorIds(x: Id, y: Id, w: Id, kinds: Id -> set<Flag>, fds: Id -> int) returns (ids: seq<Id>)
    requires Impostor(kinds, fds, x, y, w)
    ensures Distinct(ids) && Behind(ids, x, y, w, kinds)
  {
    if w == x {
      ids := [x, y];
      TwoWanting(x, y, READ, kinds);
      TwoWanting(x, y, WRITE, kinds);
      assert Wanting(ids, READ, kinds) == [x, y] && Wanting(ids, WRITE, kinds) == [x];
    } else {
      ids := [x, y, w];
      TwoWanting(y, w, READ, kinds);
      TwoWanting(y, w, WRITE, kinds);
      ThreeWanting(x, y, w, READ, kinds);
      ThreeWanting(x, y, w, WRITE, kinds);
      assert Wanting(ids, READ, kinds) == [x] + ([y] + Only(w, READ, kinds)) && Wanting(ids, WRITE, kinds) == [x, w];
      assert ids[0] == x && ids[1] == y && ids[2] == w;
    }
  }

  // ----- the timeout loop ------------------------------------------------------------

  /**
   A timeout callback that sets its own deadline to a time that has come keeps the timeout
   loop going: it has not ended after any number of rounds.
   */
  lemma {:induction false} TimeoutsNeverEnd(s: State, e: Id, now: Time, n: nat)
    requires Inv(s) && s.timeq == [e] && Due(s, now) && Normal(now)
    ensures Due(Timeouts(s, now, (k: nat) => [Add(e, Some(Time(0, 0)), now)], n), now)
    decreases n
  {
    if n > 0 {
      var c := Add(e, Some(Time(0, 0)), now);
      var script: Script := k => [c];
      var s1 := Logged(Expire(s), Firing(e, TIMEOUT));
      var t := Fire(Expire(s), e, TIMEOUT, script);
      ExpireInv(s);
      assert [c][1..] == [];
      assert t == ExecAll(Exec(s1, c), []) == Exec(s1, c);
      ExecInv(s1, c);
      ArmAlone(s1, e, now);
      TimeoutsNeverEnd(t, e, now, n - 1);
    }
  }

  lemma ArmAlone(s: State, e: Id, now: Time)
    requires s.timeq == [] && Normal(now)
    ensures var t := Exec(s, Add(e, Some(Time(0, 0)), now)); t.timeq == [e] && Due(t, now)
  {
    assert Plus(now, Time(0, 0)) == now;
    var a := Arm(s, e, now);
    assert a.timeq == [e] && Ev(a, e).deadline == now;
  }

  /** A timeout callback can queue a descriptor that the sets, already sized, do not hold. */
  lemma TimeoutCallbackOverflows(s: State, now: Time, script: Script, x: Id)
    requires Settled(s) && Due(s, now) && script(|s.h.log|) == [Add(x, None, now)]
    requires x !in s.readq && READ in Ev(s, x).events && Ev(s, x).fd >= Bits(s.fdsz)
    ensures !Fits(Timeouts(s, now, script, 1))
  {
    var e, c := s.timeq[0], Add(x, None, now);
    var s1 := Logged(Expire(s), Firing(e, TIMEOUT));
    var t := Fire(Expire(s), e, TIMEOUT, script);
    assert [c][1..] == [];
    assert t == ExecAll(Exec(s1, c), []) == Exec(s1, c);
    assert READ !in Ev(s, x).flags;
    assert x in t.readq && Ev(t, x).fd == Ev(s, x).fd && t.fdsz == s.fdsz;
    assert Timeouts(s, now, script, 1) == t;
    assert Queued(t, x);
  }

  // ----- writers are missed ----------------------------------------------------------

  lemma {:induction false} TopOne(s: State, q: seq<Id>, e: Id, m: int)
    requires q == [] || q == [e]
    ensures Top(s, q, m) == if q == [e] && Ev(s, e).fd > m then Ev(s, e).fd else m
  {}

  lemma SecondWriterMissed(s: State, x: Id, y: Id, kinds: Id -> set<Flag>, sel: Select, script: Script)
    requires Settled(s) && Coupled(s, kinds) && FixedFrom(script, |s.h.log|, kinds) && Idle(sel)
    requires s.writeq == [y, x] && (s.readq == [] || s.readq == [y]) && s.timeq == [] && 0 < Ev(s, y).fd < Ev(s, x).fd
    ensures var t := Recalculated(s, sel, script); t.timeq == [] && t.fds == Ev(s, y).fd && !Bounding(t)
  {
    assert s.writeq[1] == x;
    TopOne(s, s.readq, y, 0);
    TopOne(s, [y], y, Top(s, s.readq, 0));
    assert IdleMax(s) == Ev(s, y).fd;
    LargerWriterDropped(s, sel, script, kinds, x);
    IdleStates(s, sel, script);
  }

  /** An iteration in which nothing expires. */
  lemma NothingExpires(s: State, sel: Select, script: Script)
    requires Settled(s) && Recalculated(s, sel, script).timeq == []
    ensures Run(s, [Loop(sel)], script) == Recalculated(s, sel, script) && Quiet(s, [Loop(sel)], script)
  {
    NothingExpiresQuiet(s, sel, script);
    NothingExpiresAct(s, sel, script);
    RunLast(s, Loop(sel), script);
  }

  lemma NothingExpiresAct(s: State, sel: Select, script: Script)
    requires Settled(s) && Recalculated(s, sel, script).timeq == []
    ensures Act(s, Loop(sel), script) == Recalculated(s, sel, script)
  {}

  lemma NothingExpiresQuiet(s: State, sel: Select, script: Script)
    requires Settled(s) && Recalculated(s, sel, script).timeq == []
    ensures Quiet(s, [Loop(sel)], script)
  {
    var acts, t := [Loop(sel)], Recalculated(s, sel, script);
    assert acts[1..] == [];
    assert RoundsStay(t, sel.now, script, sel.rounds, Told(t));
  }

  lemma RunLast(s: State, a: Action, script: Script)
    requires Settled(s)
    ensures Settled(Act(s, a, script)) && Run(s, [a], script) == Act(s, a, script)
  {
    ActSettled(s, a, script);
    assert [a][1..] == [];
  }

  /**
   Any write-only event with a larger descriptor, behind any other writer, is missed: one
   idle iteration after they are added, select is told of the smaller descriptor only.
   */
  lemma LargerWriterMissed(x: Id, y: Id, kinds: Id -> set<Flag>, fds: Id -> int, sel: Select, script: Script)
      returns (acts: seq<Action>, s: State)
    requires WRITE in kinds(x) && READ !in kinds(x) && WRITE in kinds(y) && x != y && 0 < fds(y) < fds(x)
    requires Idle(sel) && FixedFrom(script, 0, kinds)
    ensures Reaches(acts, kinds, fds, script, s) && |acts| == 4 && Settled(s) && x in s.writeq && Ev(s, x).fd == fds(x)
    ensures var b := Begun(s);
      && Quiet(b, [Loop(sel)], script) && !Sound(Run(b, [Loop(sel)], script))
      && Run(b, [Loop(sel)], script).fds == fds(y)
  {
    acts, s := Reach([y, x], kinds, fds, script);
    EnrolledWriters(s, x, y, kinds, fds);
    SecondWriterDropped(s, x, y, kinds, sel, script);
  }

  lemma EnrolledWriters(s: State, x: Id, y: Id, kinds: Id -> set<Flag>, fds: Id -> int)
    requires WRITE in kinds(x) && READ !in kinds(x) && WRITE in kinds(y) && Enrolled(START, [y, x], kinds, fds, s)
    ensures s.writeq == [y, x] && x in s.writeq && (s.readq == [] || s.readq == [y]) && s.timeq == [] && s.h.log == []
    ensures Ev(s, x).fd == fds(x) && Ev(s, y).fd == fds(y)
  {
    TwoWanting(y, x, READ, kinds);
    TwoWanting(y, x, WRITE, kinds);
    assert s.readq == Only(y, READ, kinds) && s.writeq == [y, x] && s.writeq[1] == x;
  }

  lemma SecondWriterDropped(s: State, x: Id, y: Id, kinds: Id -> set<Flag>, sel: Select, script: Script)
    requires Settled(s) && Coupled(s, kinds) && FixedFrom(script, |s.h.log|, kinds) && Idle(sel)
    requires s.writeq == [y, x] && (s.readq == [] || s.readq == [y]) && s.timeq == [] && 0 < Ev(s, y).fd < Ev(s, x).fd
    ensures var b := Begun(s);
      && b.writeq == s.writeq && Ev(b, x) == Ev(s, x) && Quiet(b, [Loop(sel)], script)
      && !Sound(Run(b, [Loop(sel)], script)) && Run(b, [Loop(sel)], script).fds == Ev(s, y).fd
  {
    LoopCoupled(s, Begin, script, kinds);
    SecondWriterMissed(Begun(s), x, y, kinds, sel, script);
    NothingExpires(Begun(s), sel, script);
  }
}
