/** The descriptor bound given to select, and the size of the descriptor sets. */
module EventFds {
  import opened Options
  import opened Tailq
  import opened Timeval
  import opened EventState
  import opened EventInvariant
  import opened EventPass
  import opened EventWalk
  import opened EventLoop
  import opened EventStable
  import opened EventOnce
  import opened EventReplay

  ghost predicate Queued(s: State, x: Id) {
    x in s.readq || x in s.writeq
  }

  /** select is told of every queued descriptor. */
  ghost predicate Bounding(s: State) {
    forall x :: Queued(s, x) ==> Ev(s, x).fd <= s.fds
  }

  /** The descriptors that a set of so many bytes can hold. */
  function Bits(fdsz: int): int {
    8 * fdsz
  }

  /** FD_SET stays inside the descriptor sets for every queued event. */
  ghost predicate Fits(s: State) {
    forall x :: Queued(s, x) ==> 0 <= Ev(s, x).fd < Bits(s.fdsz)
  }

  predicate Interested(v: Event) {
    READ in v.events || WRITE in v.events
  }

  /** The sets never shrink and always hold the bound, and a full scan bounds every queued descriptor. */
  lemma {:induction false} RecalcHolds(s: State, max: nat)
    ensures var t := Recalc(s, max); s.fdsz <= t.fdsz && 0 <= t.fds < Bits(t.fdsz)
    ensures max == 0 ==> Bounding(Recalc(s, max))
  {
    var t := Recalc(s, max);
    assert (t.fds + 1 + 63) / 64 * 64 >= t.fds + 1;
    if max == 0 {
      forall x | Queued(t, x) ensures Ev(t, x).fd <= t.fds {
        assert Ev(t, x) == Ev(s, x);
      }
    }
  }

  lemma {:induction false} DrainFds(s: State, x: Id)
    ensures Get(Drain(s).ev, x).fd == Get(s.ev, x).fd && Drain(s).fdsz == s.fdsz
    decreases |s.addq|
  {
    if s.addq != [] {
      DrainFds(AddPost(PopAdd(s), s.addq[0]), x);
    }
  }

  /** Whoever is queued after the drain was left queued by the passes or was postponed, with that interest. */
  lemma DrainedFrom(s: State, sel: Select, script: Script, x: Id)
    requires Inv(s)
    ensures var w, d := WritePass(s, sel, script).s, Drained(s, sel, script);
      && (x in d.readq <==> x in w.readq || (x in w.addq && READ in Ev(w, x).events))
      && (x in d.writeq <==> x in w.writeq || (x in w.addq && WRITE in Ev(w, x).events))
      && Ev(d, x).fd == Ev(w, x).fd && d.fdsz == s.fdsz
  {
    var w := Leave(WritePass(s, sel, script).s);
    assert Inv(w);
    DrainQueues(w);
    DrainFds(w, x);
    NewcomersAll(w.ev, w.addq, READ, w.readq, x);
    NewcomersAll(w.ev, w.addq, WRITE, w.writeq, x);
  }

  /** An event that a walk visits and leaves queued was not called, with the descriptor it still has. */
  lemma {:induction false} VisitedFd(base: State, cur: Option<Id>, ready: set<int>, v: seq<Visit>, end: State, k: nat)
    requires Walk(base, cur, ready, v, end) && k < |v| && Queued(end, v[k].e)
    ensures !v[k].called && Ev(v[k].s, v[k].e).fd == Ev(end, v[k].e).fd
  {
    WalkCalledGone(base, cur, ready, v, end);
    WalkDrop(base, cur, ready, v, end, k);
    WalkWithin(base, Some(v[k].e), ready, v[k..], end);
    assert v[k..][0] == v[k];
  }

  /** The event was visited by one of the two passes. */
  ghost predicate Reached(s: State, sel: Select, script: Script, x: Id)
    requires Inv(s)
  {
    || (exists k :: 0 <= k < |ReadPass(s, sel, script).visits| && ReadPass(s, sel, script).visits[k].e == x)
    || (exists k :: 0 <= k < |WritePass(s, sel, script).visits| && WritePass(s, sel, script).visits[k].e == x)
  }

  lemma {:induction false} ReachedByRead(s: State, sel: Select, script: Script, k: nat)
    requires Inv(s) && k < |ReadPass(s, sel, script).visits|
    requires Queued(WritePass(s, sel, script).s, ReadPass(s, sel, script).visits[k].e)
    ensures Ev(WritePass(s, sel, script).s, ReadPass(s, sel, script).visits[k].e).fd <= MaxFd(s, sel, script)
  {
    var s0, r, w := Enter(s), ReadPass(s, sel, script), WritePass(s, sel, script);
    var ready := sel.readable * Fds(s, s.readq);
    EnterInv(s);
    PassWalks(s0, s0, IdAt(s.readq, 0), ready, READ, script);
    assert Within(r.s, w.s);
    VisitedFd(s0, IdAt(s.readq, 0), ready, r.visits, r.s, k);
  }

  lemma {:induction false} ReachedByWrite(s: State, sel: Select, script: Script, k: nat)
    requires Inv(s) && k < |WritePass(s, sel, script).visits|
    requires Queued(WritePass(s, sel, script).s, WritePass(s, sel, script).visits[k].e)
    ensures Ev(WritePass(s, sel, script).s, WritePass(s, sel, script).visits[k].e).fd <= MaxFd(s, sel, script)
  {
    var m, w := ReadPass(s, sel, script).s, WritePass(s, sel, script);
    var ready := sel.writable * Fds(s, s.writeq);
    PassStart(m);
    PassWalks(m, m, IdAt(m.writeq, 0), ready, WRITE, script);
    VisitedFd(m, IdAt(m.writeq, 0), ready, w.visits, w.s, k);
  }

  /** Every reached event that the passes leave queued is within the argument of events_recalc. */
  lemma ReachedCounted(s: State, sel: Select, script: Script, x: Id)
    requires Inv(s) && Queued(WritePass(s, sel, script).s, x) && Reached(s, sel, script, x)
    ensures Ev(WritePass(s, sel, script).s, x).fd <= MaxFd(s, sel, script)
  {
    var r, w := ReadPass(s, sel, script).visits, WritePass(s, sel, script).visits;
    if k :| 0 <= k < |r| && r[k].e == x {
      ReachedByRead(s, sel, script, k);
    } else {
      var k :| 0 <= k < |w| && w[k].e == x;
      ReachedByWrite(s, sel, script, k);
    }
  }

  /** The read pass reaches every event that stays on the read queue. */
  lemma ReadersReached(s: State, sel: Select, script: Script, x: Id)
    requires Inv(s) && x in ReadPass(s, sel, script).s.readq
    ensures Reached(s, sel, script, x)
  {
    var v := ReadPass(s, sel, script).visits;
    assert Within(Enter(s), ReadPass(s, sel, script).s);
    ReadPassComplete(s, sel, script, x);
    var k :| 0 <= k < |v| && v[k].e == x;
  }

  /**
   When events_recalc returns, the only queued events above `event_fds` are writers that
   neither pass reached, and there are none if the passes computed 0.
   */
  lemma OnlyUnreachedAbove(s: State, sel: Select, script: Script, x: Id)
    requires Inv(s)
    requires var t := Recalculated(s, sel, script); Queued(t, x) && Ev(t, x).fd > t.fds
    ensures var w := WritePass(s, sel, script).s;
      && x in w.writeq && x in s.writeq && x !in w.readq && x !in w.addq
      && !Reached(s, sel, script, x) && MaxFd(s, sel, script) > 0
  {
    var m, w, d := ReadPass(s, sel, script).s, WritePass(s, sel, script).s, Drained(s, sel, script);
    assert Within(Enter(s), w) && Within(m, w);
    DrainedFrom(s, sel, script, x);
    RecalcHolds(d, MaxFd(s, sel, script));
    if x in w.readq {
      ReadersReached(s, sel, script, x);
    }
    if Queued(w, x) && Reached(s, sel, script, x) {
      ReachedCounted(s, sel, script, x);
    }
  }

  /** Whoever the passes leave queued, or postpone with an interest, is queued after events_recalc. */
  lemma RecalculatedKeeps(s: State, sel: Select, script: Script, x: Id)
    requires Inv(s)
    requires var w := WritePass(s, sel, script).s; Queued(w, x) || (x in w.addq && Interested(Ev(w, x)))
    ensures var t := Recalculated(s, sel, script);
      Queued(t, x) && Ev(t, x).fd == Ev(WritePass(s, sel, script).s, x).fd
  {
    DrainedFrom(s, sel, script, x);
  }

  /**
   The sets keep room for every queued descriptor through the passes, reached or not,
   exactly if nobody is left postponed with an interest in a negative descriptor.
   */
  lemma RecalculatedFitsExactly(s: State, sel: Select, script: Script)
    requires Inv(s) && Fits(s)
    ensures var w := WritePass(s, sel, script).s;
      Fits(Recalculated(s, sel, script)) <==> forall x :: x in w.addq && Interested(Ev(w, x)) ==> Ev(w, x).fd >= 0
  {
    var w, t := WritePass(s, sel, script).s, Recalculated(s, sel, script);
    RecalcHolds(Drained(s, sel, script), MaxFd(s, sel, script));
    assert Within(Enter(s), w);
    forall x | Queued(t, x)
      ensures Ev(t, x).fd < Bits(t.fdsz)
      ensures Ev(t, x).fd >= 0 || (x in w.addq && Interested(Ev(w, x)) && Ev(w, x).fd < 0)
    {
      RecalculatedRoom(s, sel, script, x);
    }
    forall x | x in w.addq && Interested(Ev(w, x)) ensures Queued(t, x) && Ev(t, x).fd == Ev(w, x).fd {
      RecalculatedKeeps(s, sel, script, x);
    }
  }

  lemma RecalculatedRoom(s: State, sel: Select, script: Script, x: Id)
    requires Inv(s) && Fits(s) && Queued(Recalculated(s, sel, script), x)
    ensures var w, t := WritePass(s, sel, script).s, Recalculated(s, sel, script);
      && Ev(t, x).fd == Ev(w, x).fd < Bits(t.fdsz)
      && (Ev(t, x).fd >= 0 || (x in w.addq && Interested(Ev(w, x))))
  {
    var w, t := WritePass(s, sel, script).s, Recalculated(s, sel, script);
    RecalcHolds(Drained(s, sel, script), MaxFd(s, sel, script));
    assert Within(Enter(s), w);
    DrainedFrom(s, sel, script, x);
    if Queued(w, x) {
      assert Queued(s, x) && Ev(w, x).fd == Ev(s, x).fd;
    }
    if Ev(t, x).fd > t.fds {
      OnlyUnreachedAbove(s, sel, script, x);
    }
  }

  // ----- timeout callbacks -----------------------------------------------------------

  /** Every queued descriptor is a good one. */
  ghost predicate Inside(s: State, good: int -> bool) {
    forall x :: Queued(s, x) ==> good(Get(s.ev, x).fd)
  }

  /** The descriptors that `select` is told of, and those that the sets hold. */
  ghost function Told(s: State): int -> bool {
    fd => fd <= s.fds
  }

  ghost function Room(s: State): int -> bool {
    fd => 0 <= fd < Bits(s.fdsz)
  }

  /** The call adds an event with an interest, whose descriptor is not a good one at that moment. */
  ghost predicate Strays(s: State, c: Call, good: int -> bool) {
    c.Add? && Interested(Ev(s, c.e)) && !good(Ev(s, c.e).fd)
  }

  lemma ArmFd(s: State, e: Id, d: Time, x: Id)
    ensures var t := Arm(s, e, d);
      Get(t.ev, x).fd == Get(s.ev, x).fd && (Queued(t, x) ==> Queued(s, x) || x == e)
  {}

  lemma PostFd(s: State, e: Id, x: Id)
    ensures var t := if s.inloop then Note(Postpone(s, e), Requested(e)) else AddPost(s, e);
      Get(t.ev, x).fd == Get(s.ev, x).fd && (Queued(t, x) ==> Queued(s, x) || x == e)
  {}

  lemma {:induction false} AddFd(s: State, e: Id, tv: Option<Time>, now: Time, x: Id)
    ensures var t := EventAdd(s, e, tv, now);
      Get(t.ev, x).fd == Get(s.ev, x).fd && (Queued(t, x) ==> Queued(s, x) || x == e)
  {
    if tv.Some? {
      ArmFd(s, e, Plus(now, tv.value), x);
    }
    PostFd(if tv.Some? then Arm(s, e, Plus(now, tv.value)) else s, e, x);
  }

  /** A call queues only the event it adds, and changes the descriptor of no queued event. */
  lemma ExecFd(s: State, c: Call, x: Id)
    requires Inv(s)
    ensures var t := Exec(s, c);
      && (Queued(t, x) ==> (Queued(s, x) || (c.Add? && c.e == x)) && Get(t.ev, x).fd == Get(s.ev, x).fd)
  {
    match c {
      case Add(e, tv, now) => AddFd(s, e, tv, now, x);
      case Del(e) => WithoutKeeps(s.readq, e); WithoutKeeps(s.writeq, e);
      case Set(e, fd, events) =>
    }
  }

  /** Outside the passes an added event is queued exactly when it has an interest, or was queued before. */
  lemma {:induction false} AddJoins(s: State, e: Id, tv: Option<Time>, now: Time)
    requires Settled(s)
    ensures var t := EventAdd(s, e, tv, now);
      && (Queued(t, e) <==> Queued(s, e) || Interested(Ev(s, e)))
      && Ev(t, e).fd == Ev(s, e).fd
  {
    var s1 := if tv.Some? then Arm(s, e, Plus(now, tv.value)) else s;
    assert Ev(s1, e).events == Ev(s, e).events && s1.readq == s.readq && s1.writeq == s.writeq;
    assert READ in Ev(s1, e).flags <==> e in s.readq;
    assert WRITE in Ev(s1, e).flags <==> e in s.writeq;
    PostJoins(s1, e);
  }

  lemma PostJoins(s: State, e: Id)
    requires (READ in Ev(s, e).flags <==> e in s.readq) && (WRITE in Ev(s, e).flags <==> e in s.writeq)
    ensures var t := AddPost(s, e);
      && (Queued(t, e) <==> Queued(s, e) || Interested(Ev(s, e)))
      && Ev(t, e).fd == Ev(s, e).fd
  {}

  /**
   Exactly when one call outside the passes, such as a timeout callback makes, keeps every
   queued descriptor good: unless it strays.
   */
  lemma CallStaysInsideExactly(s: State, c: Call, good: int -> bool)
    requires Settled(s) && Inside(s, good)
    ensures Inside(Exec(s, c), good) <==> !Strays(s, c, good)
  {
    var t := Exec(s, c);
    forall x | Queued(t, x) && !(c.Add? && c.e == x) ensures good(Get(t.ev, x).fd) {
      ExecFd(s, c, x);
    }
    if c.Add? {
      AddJoins(s, c.e, c.tv, c.now);
    }
  }

  /** None of the calls strays when it is made. */
  ghost predicate CallsStay(s: State, cs: seq<Call>, good: int -> bool)
    decreases |cs|
  {
    cs == [] || (!Strays(s, cs[0], good) && CallsStay(Exec(s, cs[0]), cs[1..], good))
  }

  lemma {:induction false} CallsStayInside(s: State, cs: seq<Call>, good: int -> bool)
    requires Settled(s) && Inside(s, good) && CallsStay(s, cs, good)
    ensures Settled(ExecAll(s, cs)) && Inside(ExecAll(s, cs), good)
    decreases |cs|
  {
    if cs != [] {
      CallStaysInsideExactly(s, cs[0], good);
      ExecSettled(s, cs[0]);
      CallsStayInside(Exec(s, cs[0]), cs[1..], good);
    }
  }

  /** No callback of the timeout loop makes a call that strays; nothing is asked of any other callback. */
  ghost predicate RoundsStay(s: State, now: Time, script: Script, n: nat, good: int -> bool)
    decreases n
  {
    if n == 0 || !Due(s, now) then true else
    && CallsStay(Logged(Expire(s), Firing(s.timeq[0], TIMEOUT)), script(|s.h.log|), good)
    && RoundsStay(Fire(Expire(s), s.timeq[0], TIMEOUT, script), now, script, n - 1, good)
  }

  lemma {:induction false} RoundInside(s: State, now: Time, script: Script, n: nat, good: int -> bool) returns (t: State)
    requires Settled(s) && Inside(s, good) && RoundsStay(s, now, script, n, good) && n > 0 && Due(s, now)
    ensures Settled(t) && Inside(t, good) && RoundsStay(t, now, script, n - 1, good)
    ensures Timeouts(s, now, script, n) == Timeouts(t, now, script, n - 1)
    ensures t.fds == s.fds && t.fdsz == s.fdsz
  {
    var s1 := Logged(Expire(s), Firing(s.timeq[0], TIMEOUT));
    t := Fire(Expire(s), s.timeq[0], TIMEOUT, script);
    ExpireInv(s);
    assert Settled(s1);
    forall x | Queued(s1, x) ensures good(Get(s1.ev, x).fd) {
      assert Queued(s, x);
    }
    CallsStayInside(s1, script(|s.h.log|), good);
    ExecAllBounds(s1, script(|s.h.log|));
  }

  lemma {:induction false} TimeoutsInside(s: State, now: Time, script: Script, n: nat, good: int -> bool)
    requires Settled(s) && Inside(s, good) && RoundsStay(s, now, script, n, good)
    ensures var t := Timeouts(s, now, script, n); Inside(t, good) && t.fds == s.fds && t.fdsz == s.fdsz
    decreases n
  {
    if n > 0 && Due(s, now) {
      var t := RoundInside(s, now, script, n, good);
      TimeoutsInside(t, now, script, n - 1, good);
    }
  }

  lemma ExecBounds(s: State, c: Call)
    ensures Exec(s, c).fds == s.fds && Exec(s, c).fdsz == s.fdsz
  {
    if c.Add? && c.tv.Some? {
      assert Arm(s, c.e, Plus(c.now, c.tv.value)).fds == s.fds && Arm(s, c.e, Plus(c.now, c.tv.value)).fdsz == s.fdsz;
    }
  }

  lemma {:induction false} ExecAllBounds(s: State, cs: seq<Call>)
    ensures ExecAll(s, cs).fds == s.fds && ExecAll(s, cs).fdsz == s.fdsz
    decreases |cs|
  {
    if cs != [] {
      ExecBounds(s, cs[0]);
      ExecAllBounds(Exec(s, cs[0]), cs[1..]);
    }
  }

  // ----- select is told of every descriptor ------------------------------------------

  /** The passes reach every writer that they leave queued. */
  ghost predicate WritersReached(s: State, sel: Select, script: Script)
    requires Inv(s)
  {
    forall x :: x in WritePass(s, sel, script).s.writeq ==> Reached(s, sel, script, x)
  }

  /** When the passes reach every writer they leave queued, events_recalc covers every queued event. */
  lemma RecalculatedBounds(s: State, sel: Select, script: Script)
    requires Inv(s) && WritersReached(s, sel, script)
    ensures var t := Recalculated(s, sel, script); Bounding(t) && 0 <= t.fds < Bits(t.fdsz) && s.fdsz <= t.fdsz
  {
    var t := Recalculated(s, sel, script);
    RecalcHolds(Drained(s, sel, script), MaxFd(s, sel, script));
    DrainFds(Leave(WritePass(s, sel, script).s), 0);
    forall x | Queued(t, x) ensures Ev(t, x).fd <= t.fds {
      if Ev(t, x).fd > t.fds {
        OnlyUnreachedAbove(s, sel, script, x);
      }
    }
  }

  /**
   Exactly when events_recalc covers every queued event, whatever the callbacks do: when
   the passes computed 0, or every writer that neither pass reached and that is left
   queued is within what they computed.
   */
  lemma RecalculatedBoundsExactly(s: State, sel: Select, script: Script)
    requires Inv(s)
    ensures var w, max := WritePass(s, sel, script).s, MaxFd(s, sel, script);
      Bounding(Recalculated(s, sel, script)) <==>
      max == 0 || forall x :: x in w.writeq && !Reached(s, sel, script, x) ==> Ev(w, x).fd <= max
  {
    var w, max, t := WritePass(s, sel, script).s, MaxFd(s, sel, script), Recalculated(s, sel, script);
    forall x | Queued(t, x) && Ev(t, x).fd > t.fds
      ensures max > 0 && x in w.writeq && !Reached(s, sel, script, x) && Ev(w, x).fd > max
    {
      OnlyUnreachedAbove(s, sel, script, x);
      RecalculatedKeeps(s, sel, script, x);
    }
    if Bounding(t) && max != 0 {
      forall x | x in w.writeq ensures Ev(w, x).fd <= max {
        RecalculatedKeeps(s, sel, script, x);
      }
    }
  }

  /**
   The next select is told of every queued descriptor, if moreover the timeout callbacks
   add no larger one.
   */
  lemma IterateBounds(s: State, sel: Select, script: Script)
    requires Inv(s) && WritersReached(s, sel, script)
    requires var t := Recalculated(s, sel, script); RoundsStay(t, sel.now, script, sel.rounds, Told(t))
    ensures var u := Iterate(s, sel, script); Sound(u) && s.fdsz <= u.fdsz
  {
    var t := Recalculated(s, sel, script);
    RecalculatedSettled(s, sel, script);
    RecalculatedBounds(s, sel, script);
    assert Inside(t, Told(t));
    TimeoutsInside(t, sel.now, script, sel.rounds, Told(t));
  }

  /** select is told of every queued descriptor, and the sets hold more bits than it is told of. */
  ghost predicate Sound(s: State) {
    Bounding(s) && 0 <= s.fds < Bits(s.fdsz)
  }

  /** Loop iterations whose timeout callbacks add no descriptor above the bound of their iteration. */
  ghost predicate Quiet(s: State, acts: seq<Action>, script: Script)
    requires Settled(s)
    decreases |acts|
  {
    if acts == [] then true else
    ActSettled(s, acts[0], script);
    && acts[0].Loop?
    && (var t := Recalculated(s, acts[0].sel, script);
        RoundsStay(t, acts[0].sel.now, script, acts[0].sel.rounds, Told(t)))
    && Quiet(Act(s, acts[0], script), acts[1..], script)
  }

  /** Loop iterations whose passes reach all writers that they leave queued. */
  ghost predicate Reaching(s: State, acts: seq<Action>, script: Script)
    requires Settled(s)
    decreases |acts|
  {
    if acts == [] then true else
    ActSettled(s, acts[0], script);
    && (acts[0].Loop? ==> WritersReached(s, acts[0].sel, script))
    && Reaching(Act(s, acts[0], script), acts[1..], script)
  }

  lemma {:induction false} LoopSound(s: State, acts: seq<Action>, script: Script)
    requires Settled(s) && Sound(s) && Quiet(s, acts, script) && Reaching(s, acts, script)
    ensures Sound(Run(s, acts, script)) && s.fdsz <= Run(s, acts, script).fdsz
    decreases |acts|
  {
    if acts != [] {
      IterateBounds(s, acts[0].sel, script);
      ActSettled(s, acts[0], script);
      LoopSound(Act(s, acts[0], script), acts[1..], script);
    }
  }

  /** At every select of event_dispatch, under the two provisos, whatever was queued before it. */
  lemma {:induction false} EverySelectSound(s: State, acts: seq<Action>, script: Script)
    requires Settled(s) && Quiet(Begun(s), acts, script) && Reaching(Begun(s), acts, script)
    ensures Sound(Run(Begun(s), acts, script)) && s.fdsz <= Run(Begun(s), acts, script).fdsz
  {
    RecalcHolds(s, 0);
    LoopSound(Begun(s), acts, script);
  }

  // ----- the writers that the write pass misses --------------------------------------

  /** With fixed interests the writers that can be missed are write-only and not first. */
  lemma MissedWriters(s: State, sel: Select, script: Script, kinds: Id -> set<Flag>, x: Id)
    requires Inv(s) && Coupled(s, kinds) && FixedFrom(script, |s.h.log|, kinds)
    requires x in WritePass(s, sel, script).s.writeq && !Reached(s, sel, script, x)
    ensures READ !in kinds(x) && x != ReadPass(s, sel, script).s.writeq[0]
  {
    var m, w := ReadPass(s, sel, script).s, WritePass(s, sel, script);
    assert Within(m, w.s) && x in m.writeq;
    ReadCoupled(s, sel, script, kinds);
    if READ in kinds(x) {
      ReadersReached(s, sel, script, x);
    }
    assert w.visits[0].e == m.writeq[0];
  }

  /** No write-only event beside another writer. */
  ghost predicate ClashFree(kinds: Id -> set<Flag>) {
    forall x, y :: WRITE in kinds(x) && READ !in kinds(x) && WRITE in kinds(y) ==> x == y
  }

  /** Then the passes reach every writer. */
  lemma ClashFreeReached(s: State, sel: Select, script: Script, kinds: Id -> set<Flag>)
    requires Inv(s) && Coupled(s, kinds) && FixedFrom(script, |s.h.log|, kinds) && ClashFree(kinds)
    ensures WritersReached(s, sel, script)
  {
    var m, w := ReadPass(s, sel, script).s, WritePass(s, sel, script).s;
    ReadCoupled(s, sel, script, kinds);
    assert Within(m, w);
    forall x | x in w.writeq ensures Reached(s, sel, script, x) {
      assert x in m.writeq && m.writeq[0] in m.writeq;
      if !Reached(s, sel, script, x) {
        MissedWriters(s, sel, script, kinds, x);
      }
    }
  }

  lemma LoopCoupled(s: State, a: Action, script: Script, kinds: Id -> set<Flag>)
    requires Settled(s) && Coupled(s, kinds) && FixedFrom(script, |s.h.log|, kinds) && !a.Outside?
    ensures var t := Act(s, a, script); Settled(t) && Coupled(t, kinds) && FixedFrom(script, |t.h.log|, kinds)
  {
    var P, C := (t: State) => Coupled(t, kinds), (c: Call) => Fixed(c, kinds);
    CoupledLoopStable(kinds);
    assert P(s);
    ActLog(s, a, script);
    ActSettled(s, a, script);
    ActStable(P, C, s, a, script);
    assert P(Act(s, a, script));
  }

  lemma {:induction false} ClashFreeReaching(s: State, acts: seq<Action>, script: Script, kinds: Id -> set<Flag>)
    requires Settled(s) && Coupled(s, kinds) && FixedFrom(script, |s.h.log|, kinds) && ClashFree(kinds)
    requires forall a :: a in acts ==> a.Loop?
    ensures Reaching(s, acts, script)
    decreases |acts|
  {
    if acts != [] {
      ClashFreeReached(s, acts[0].sel, script, kinds);
      LoopCoupled(s, acts[0], script, kinds);
      ClashFreeReaching(Act(s, acts[0], script), acts[1..], script, kinds);
    }
  }

  /**
   Over every run: a client whose events keep one interest each, with no write-only event
   beside another writer, gets a sound bound at every select, if timeout callbacks add no
   larger descriptor.
   */
  lemma {:induction false} ClashFreeSound(before: seq<Action>, acts: seq<Action>, script: Script, kinds: Id -> set<Flag>)
    requires Settled(START) && FixedFrom(script, 0, kinds) && ClashFree(kinds)
    requires forall a :: a in before && a.Outside? ==> Fixed(a.c, kinds)
    requires (forall a :: a in acts ==> a.Loop?) && Quiet(Begun(Run(START, before, script)), acts, script)
    ensures Sound(Run(Begun(Run(START, before, script)), acts, script))
  {
    var s := Run(START, before, script);
    RunCoupled(before, script, kinds);
    LoopCoupled(s, Begin, script, kinds);
    ClashFreeReaching(Begun(s), acts, script, kinds);
    EverySelectSound(s, acts, script);
  }

  lemma {:induction false} IdlePass(s: State, cur: Option<Id>, kind: Flag, script: Script)
    requires Inv(s) && s.inloop
    ensures var r := Pass(s, cur, {}, kind, script);
      r.s == s && forall k :: 0 <= k < |r.visits| ==> !r.visits[k].called && r.visits[k].s == s
    decreases Rank(s, cur)
  {
    if cur.Some? {
      RankDrops(s, cur.value, {}, kind, script);
      IdlePass(s, Link(s, cur.value), kind, script);
    }
  }

  predicate Idle(sel: Select) {
    sel.readable == {} && sel.writable == {}
  }

  /** What an idle iteration computes for events_recalc: readers, and the first writer only. */
  function IdleMax(s: State): int {
    Top(s, if s.writeq == [] then [] else [s.writeq[0]], Top(s, s.readq, 0))
  }

  lemma IdleStates(s: State, sel: Select, script: Script)
    requires Settled(s) && Idle(sel)
    ensures ReadPass(s, sel, script).s == Enter(s) == WritePass(s, sel, script).s
    ensures Recalculated(s, sel, script) == Recalc(Leave(Enter(s)), MaxFd(s, sel, script))
    ensures var v := ReadPass(s, sel, script).visits;
      forall k :: 0 <= k < |v| ==> !v[k].called && v[k].s == Enter(s)
    ensures var v := WritePass(s, sel, script).visits;
      forall k :: 0 <= k < |v| ==> !v[k].called && v[k].s == Enter(s)
  {
    EnterInv(s);
    assert sel.readable * Fds(s, s.readq) == {} && sel.writable * Fds(s, s.writeq) == {};
    IdlePass(Enter(s), IdAt(s.readq, 0), READ, script);
    IdlePass(Enter(s), IdAt(s.writeq, 0), WRITE, script);
  }

  lemma IdleMaxFd(s: State, sel: Select, script: Script, kinds: Id -> set<Flag>)
    requires Settled(s) && Coupled(s, kinds) && FixedFrom(script, |s.h.log|, kinds) && Idle(sel)
    ensures MaxFd(s, sel, script) == IdleMax(s)
  {
    var s0, r, w := Enter(s), ReadPass(s, sel, script), WritePass(s, sel, script);
    var max, top := MaxFd(s, sel, script), IdleMax(s);
    IdleStates(s, sel, script);
    assert forall x :: Ev(s0, x) == Ev(s, x);
    forall k | 0 <= k < |r.visits| ensures Ev(s0, r.visits[k].e).fd <= top {
      ReadPassOrder(s, sel, script, k, k);
    }
    forall k | 0 <= k < |w.visits| ensures Ev(s0, w.visits[k].e).fd <= top {
      WriteVisits(s, sel, script, kinds, k);
    }
    assert max <= top;
    forall x | x in s.readq ensures Ev(s, x).fd <= max {
      ReadersReached(s, sel, script, x);
      ReachedCounted(s, sel, script, x);
    }
    if s.writeq != [] {
      assert w.visits[0].e == s.writeq[0];
      ReachedByWrite(s, sel, script, 0);
    }
  }

  /**
   Exactly when an iteration with nothing ready leaves `event_fds` covering every queued
   descriptor: when readers and the first writer have only descriptors up to 0, which
   makes events_recalc scan the queues, or when no writer is above them.
   */
  lemma IdleBoundsExactly(s: State, sel: Select, script: Script, kinds: Id -> set<Flag>)
    requires Settled(s) && Coupled(s, kinds) && FixedFrom(script, |s.h.log|, kinds) && Idle(sel)
    ensures Bounding(Recalculated(s, sel, script)) <==>
      IdleMax(s) == 0 || forall x :: x in s.writeq ==> Ev(s, x).fd <= IdleMax(s)
  {
    var t := Recalculated(s, sel, script);
    IdleStates(s, sel, script);
    IdleMaxFd(s, sel, script, kinds);
    RecalcHolds(Leave(Enter(s)), IdleMax(s));
    assert forall x :: Ev(t, x) == Ev(s, x);
    if IdleMax(s) != 0 {
      assert t.fds == IdleMax(s);
      if Bounding(t) {
        forall x | x in s.writeq ensures Ev(s, x).fd <= IdleMax(s) {
          assert Queued(t, x);
        }
      }
    }
  }

  /** A writer above the readers and the first writer drops out of the bound. */
  lemma LargerWriterDropped(s: State, sel: Select, script: Script, kinds: Id -> set<Flag>, x: Id)
    requires Settled(s) && Coupled(s, kinds) && FixedFrom(script, |s.h.log|, kinds) && Idle(sel)
    requires x in s.writeq && Ev(s, x).fd > IdleMax(s) > 0
    ensures Recalculated(s, sel, script).fds == IdleMax(s) && !Bounding(Recalculated(s, sel, script))
  {
    IdleStates(s, sel, script);
    IdleMaxFd(s, sel, script, kinds);
    IdleBoundsExactly(s, sel, script, kinds);
  }
}
