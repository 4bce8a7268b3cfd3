/** The descriptors that clients give, and the room that the descriptor sets have for them. */
module EventRoom {
  import opened Tailq
  import opened Timeval
  import opened EventState
  import opened EventInvariant
  import opened EventPass
  import opened EventLoop
  import opened EventStable
  import opened EventFds

  // ----- what clients give as descriptors ----------------------------------------------

  /** If the call gives an event an interest, it gives it a fitting descriptor. */
  ghost predicate Marks(c: Call, fit: (Id, int) -> bool) {
    c.Set? && (READ in c.events || WRITE in c.events) ==> fit(c.e, c.fd)
  }

  /** Whoever is queued or could be has a fitting descriptor. */
  ghost predicate Marked(s: State, fit: (Id, int) -> bool) {
    forall x :: Queued(s, x) || Interested(Get(s.ev, x)) ==> fit(x, Get(s.ev, x).fd)
  }

  lemma SameMarked(s: State, t: State, fit: (Id, int) -> bool)
    requires Marked(s, fit)
    requires forall x :: Get(t.ev, x).fd == Get(s.ev, x).fd && Get(t.ev, x).events == Get(s.ev, x).events
    requires forall x :: Queued(t, x) ==> Queued(s, x) || Interested(Get(s.ev, x))
    ensures Marked(t, fit)
  {}

  lemma AddPostMarked(s: State, e: Id, fit: (Id, int) -> bool)
    requires Marked(s, fit)
    ensures Marked(AddPost(s, e), fit)
  {
    SameMarked(s, AddRead(s, e), fit);
    SameMarked(AddRead(s, e), AddPost(s, e), fit);
  }

  lemma JoinMarked(s: State, e: Id, fit: (Id, int) -> bool)
    requires Marked(s, fit)
    ensures Marked(if s.inloop then Note(Postpone(s, e), Requested(e)) else AddPost(s, e), fit)
  {
    if s.inloop {
      SameMarked(s, Note(Postpone(s, e), Requested(e)), fit);
    } else {
      AddPostMarked(s, e, fit);
    }
  }

  lemma ExecMarked(s: State, c: Call, fit: (Id, int) -> bool)
    requires Inv(s) && Marked(s, fit) && Marks(c, fit)
    ensures Marked(Exec(s, c), fit)
  {
    match c {
      case Add(e, tv, now) =>
        if tv.Some? {
          SameMarked(s, Arm(s, e, Plus(now, tv.value)), fit);
        }
        JoinMarked(if tv.Some? then Arm(s, e, Plus(now, tv.value)) else s, e, fit);
      case Del(e) => WithoutKeeps(s.readq, e); WithoutKeeps(s.writeq, e);
      case Set(e, fd, events) => assert Unqueued(s, e) ==> !Queued(s, e);
    }
  }

  lemma MarkedLoopStable(fit: (Id, int) -> bool)
    ensures LoopStable(s => Marked(s, fit), c => Marks(c, fit))
  {
    forall s, c | Inv(s) && Marked(s, fit) && Marks(c, fit) ensures Marked(Exec(s, c), fit) {
      ExecMarked(s, c, fit);
    }
    forall s, e | Inv(s) && Marked(s, fit) ensures Marked(EventDel(s, e), fit) {
      ExecMarked(s, Del(e), fit);
    }
    forall s: State | Inv(s) && Marked(s, fit) && s.addq != [] ensures Marked(DrainOne(s), fit) {
      SameMarked(s, PopAdd(s), fit);
      AddPostMarked(PopAdd(s), s.addq[0], fit);
    }
    forall s: State | Inv(s) && Marked(s, fit) && s.timeq != [] ensures Marked(Expire(s), fit) {
      SameMarked(s, Expire(s), fit);
    }
  }

  /** The callbacks from the n-th up to the m-th give only fitting descriptors. */
  ghost predicate MarksBetween(script: Script, n: nat, m: nat, fit: (Id, int) -> bool) {
    forall k, c :: n <= k < m && c in script(k) ==> Marks(c, fit)
  }

  /** A client that gives only fitting descriptors has only fitting ones queued, over every run. */
  lemma {:induction false} RunMarked(acts: seq<Action>, script: Script, fit: (Id, int) -> bool)
    requires Settled(START) && MarksBetween(script, 0, |Run(START, acts, script).h.log|, fit)
    requires forall a :: a in acts && a.Outside? ==> Marks(a.c, fit)
    ensures Marked(Run(START, acts, script), fit)
  {
    var P, C := (s: State) => Marked(s, fit), (c: Call) => Marks(c, fit);
    MarkedLoopStable(fit);
    assert P(START);
    RunStable(P, C, START, acts, script);
    assert P(Run(START, acts, script));
  }

  // ----- the sets hold every descriptor ----------------------------------------------

  /** A descriptor that FD_SET can take; timeout_set's -1 comes with no interest, so nobody asks it of that. */
  ghost predicate Proper(x: Id, fd: int) {
    fd >= 0
  }

  /**
   Every FD_SET of the next iteration stays inside the sets, if the callbacks of the passes
   leave no negative descriptor asked for and those of the timeout loop add none that the
   sets do not hold.
   */
  lemma IterateFits(s: State, sel: Select, script: Script)
    requires Inv(s) && Fits(s)
    requires var w := WritePass(s, sel, script).s; forall x :: x in w.addq && Interested(Ev(w, x)) ==> Ev(w, x).fd >= 0
    requires var t := Recalculated(s, sel, script); RoundsStay(t, sel.now, script, sel.rounds, Room(t))
    ensures Fits(Iterate(s, sel, script))
  {
    var t := Recalculated(s, sel, script);
    RecalculatedSettled(s, sel, script);
    RecalculatedFitsExactly(s, sel, script);
    assert Inside(t, Room(t));
    TimeoutsInside(t, sel.now, script, sel.rounds, Room(t));
  }

  /** The same for a client that never asks for a negative descriptor. */
  lemma ProperFits(s: State, sel: Select, script: Script)
    requires Inv(s) && Fits(s) && Marked(s, Proper)
    requires MarksBetween(script, |s.h.log|, |WritePass(s, sel, script).s.h.log|, Proper)
    requires var t := Recalculated(s, sel, script); RoundsStay(t, sel.now, script, sel.rounds, Room(t))
    ensures Fits(Iterate(s, sel, script))
  {
    var P, C := (t: State) => Marked(t, Proper), (c: Call) => Marks(c, Proper);
    var w := WritePass(s, sel, script).s;
    MarkedLoopStable(Proper);
    assert P(s);
    PassesStable(P, C, s, sel, script);
    assert P(w);
    IterateFits(s, sel, script);
  }

  /** Loop iterations whose timeout callbacks add no descriptor that the sets do not hold. */
  ghost predicate Roomy(s: State, acts: seq<Action>, script: Script)
    requires Settled(s)
    decreases |acts|
  {
    if acts == [] then true else
    ActSettled(s, acts[0], script);
    && acts[0].Loop?
    && (var t := Recalculated(s, acts[0].sel, script);
        RoundsStay(t, acts[0].sel.now, script, acts[0].sel.rounds, Room(t)))
    && Roomy(Act(s, acts[0], script), acts[1..], script)
  }

  lemma IterateProperFits(s: State, sel: Select, script: Script)
    requires Settled(s) && Fits(s) && Marked(s, Proper) && MarksBetween(script, |s.h.log|, |Iterate(s, sel, script).h.log|, Proper)
    requires var t := Recalculated(s, sel, script); RoundsStay(t, sel.now, script, sel.rounds, Room(t))
    ensures var u := Iterate(s, sel, script); Fits(u) && Marked(u, Proper)
  {
    var P, C := (t: State) => Marked(t, Proper), (c: Call) => Marks(c, Proper);
    IterateLog(s, sel, script);
    MarkedLoopStable(Proper);
    assert P(s);
    IterateStable(P, C, s, sel, script);
    assert P(Iterate(s, sel, script));
    ProperFits(s, sel, script);
  }

  lemma ActProperFits(s: State, a: Action, script: Script) returns (t: State)
    requires Settled(s) && Fits(s) && Marked(s, Proper) && a.Loop?
    requires MarksBetween(script, |s.h.log|, |Act(s, a, script).h.log|, Proper)
    requires var t := Recalculated(s, a.sel, script); RoundsStay(t, a.sel.now, script, a.sel.rounds, Room(t))
    ensures t == Act(s, a, script) && Settled(t) && Fits(t) && Marked(t, Proper) && |s.h.log| <= |t.h.log|
  {
    t := Act(s, a, script);
    ActSettled(s, a, script);
    ActLog(s, a, script);
    IterateProperFits(s, a.sel, script);
  }

  lemma {:induction false} LoopFitsStep(s: State, acts: seq<Action>, script: Script) returns (t: State)
    requires Settled(s) && Fits(s) && Marked(s, Proper) && acts != [] && Roomy(s, acts, script)
    requires MarksBetween(script, |s.h.log|, |Run(s, acts, script).h.log|, Proper)
    ensures Settled(t) && Fits(t) && Marked(t, Proper) && Roomy(t, acts[1..], script) && |s.h.log| <= |t.h.log|
    ensures Run(s, acts, script) == Run(t, acts[1..], script)
  {
    ActSettled(s, acts[0], script);
    RunLog(Act(s, acts[0], script), acts[1..], script);
    t := ActProperFits(s, acts[0], script);
  }

  lemma {:induction false} LoopFits(s: State, acts: seq<Action>, script: Script)
    requires Settled(s) && Fits(s) && Marked(s, Proper) && Roomy(s, acts, script)
    requires MarksBetween(script, |s.h.log|, |Run(s, acts, script).h.log|, Proper)
    ensures Fits(Run(s, acts, script))
    decreases |acts|
  {
    if acts != [] {
      var t := LoopFitsStep(s, acts, script);
      LoopFits(t, acts[1..], script);
    }
  }

  /**
   At every select of event_dispatch every FD_SET stays inside the sets, for a client that
   never asks for a negative descriptor and whose timeout callbacks add none beyond the sets.
   */
  lemma {:induction false} EverySelectFits(s: State, acts: seq<Action>, script: Script)
    requires Settled(s) && Marked(s, Proper) && Roomy(Begun(s), acts, script)
    requires MarksBetween(script, |s.h.log|, |Run(Begun(s), acts, script).h.log|, Proper)
    ensures Fits(Run(Begun(s), acts, script))
  {
    RecalcHolds(s, 0);
    assert forall x :: Queued(Begun(s), x) ==> Queued(s, x) && Get(Begun(s).ev, x) == Get(s.ev, x);
    LoopFits(Begun(s), acts, script);
  }
}
