/** Properties that library calls preserve hold throughout passes and timeout rounds. */
module EventStable {
  import opened Options
  import opened Tailq
  import opened Timeval
  import opened EventState
  import opened EventInvariant
  import opened EventPass
  import opened EventLoop

  function Logged(s: State, f: Firing): State {
    s.(h := s.h.(log := s.h.log + [f]))
  }

  /** `b` continues `a`. */
  ghost predicate Extends(a: seq<Firing>, b: seq<Firing>) {
    |a| <= |b| && forall k {:trigger b[k]} :: 0 <= k < |a| ==> b[k] == a[k]
  }

  /** `P` survives the making of a callback and every call that `C` allows. */
  ghost predicate CallStable(P: State -> bool, C: Call -> bool) {
    && (forall s, c {:trigger P(Exec(s, c))} :: Inv(s) && P(s) && C(c) ==> P(Exec(s, c)))
    && (forall s, f {:trigger P(Logged(s, f))} :: P(s) ==> P(Logged(s, f)))
  }

  /** `P` also survives the deletion that comes before a descriptor callback. */
  ghost predicate Stable(P: State -> bool, C: Call -> bool) {
    && CallStable(P, C)
    && (forall s, e {:trigger P(EventDel(s, e))} :: Inv(s) && P(s) ==> P(EventDel(s, e)))
  }

  ghost predicate ExpireStable(P: State -> bool) {
    forall s {:trigger P(Expire(s))} :: Inv(s) && P(s) && s.timeq != [] ==> P(Expire(s))
  }

  function DrainOne(s: State): State
    requires s.addq != []
  {
    AddPost(PopAdd(s), s.addq[0])
  }

  /** The fields that the loop body sets outside of library calls. */
  function Reset(s: State, inloop: bool, fds: int, fdsz: int, ops: seq<Op>): State {
    s.(inloop := inloop, fds := fds, fdsz := fdsz, h := s.h.(ops := ops))
  }

  /** `P` survives everything that the loop does. */
  ghost predicate LoopStable(P: State -> bool, C: Call -> bool) {
    && Stable(P, C)
    && ExpireStable(P)
    && (forall s {:trigger P(DrainOne(s))} :: Inv(s) && P(s) && s.addq != [] ==> P(DrainOne(s)))
    && (forall s, b, m, n, o {:trigger P(Reset(s, b, m, n, o))} :: P(s) ==> P(Reset(s, b, m, n, o)))
  }

  /** The callbacks from the n-th up to the m-th make only allowed calls. */
  ghost predicate Obeys(script: Script, n: nat, m: nat, C: Call -> bool) {
    forall k, c :: n <= k < m && c in script(k) ==> C(c)
  }

  // ----- how many callbacks have been made -----------------------------------------

  lemma {:induction false} ExecAllLog(s: State, cs: seq<Call>)
    ensures ExecAll(s, cs).h.log == s.h.log && ExecAll(s, cs).inloop == s.inloop
    decreases |cs|
  {
    if cs != [] {
      ExecAllLog(Exec(s, cs[0]), cs[1..]);
    }
  }

  lemma FireLog(s: State, e: Id, kind: Flag, script: Script)
    ensures var t := Fire(s, e, kind, script);
      t.h.log == s.h.log + [Firing(e, kind)] && t.inloop == s.inloop
  {
    ExecAllLog(Logged(s, Firing(e, kind)), script(|s.h.log|));
  }

  lemma VisitedLog(s: State, e: Id, ready: set<int>, kind: Flag, script: Script)
    ensures var t := Visited(s, e, ready, kind, script);
      t.h.log == s.h.log + (if Hit(s, e, ready) then [Firing(e, kind)] else []) && t.inloop == s.inloop
  {
    FireLog(EventDel(s, e), e, kind, script);
  }

  lemma {:induction false} PassLog(s: State, cur: Option<Id>, ready: set<int>, kind: Flag, script: Script)
    requires Inv(s) && s.inloop
    ensures |s.h.log| <= |Pass(s, cur, ready, kind, script).s.h.log|
  {
    PassStart(s);
    PassWalks(s, s, cur, ready, kind, script);
  }

  lemma {:induction false} TimeoutsLog(s: State, now: Time, script: Script, n: nat)
    ensures Extends(s.h.log, Timeouts(s, now, script, n).h.log)
    decreases n
  {
    if n > 0 && Due(s, now) {
      FireLog(Expire(s), s.timeq[0], TIMEOUT, script);
      TimeoutsLog(Fire(Expire(s), s.timeq[0], TIMEOUT, script), now, script, n - 1);
    }
  }

  lemma {:induction false} DrainLog(s: State)
    ensures Drain(s).h.log == s.h.log && Drain(s).timeq == s.timeq
    decreases |s.addq|
  {
    if s.addq != [] {
      DrainLog(AddPost(PopAdd(s), s.addq[0]));
    }
  }

  /** The passes and the timeout loop only add to the log. */
  lemma IterateLog(s: State, sel: Select, script: Script)
    requires Inv(s)
    ensures var m, w, t := ReadPass(s, sel, script).s, WritePass(s, sel, script).s, Recalculated(s, sel, script);
      && |s.h.log| <= |m.h.log| <= |w.h.log| == |t.h.log| <= |Iterate(s, sel, script).h.log|
      && t.timeq == w.timeq
  {
    DrainLog(Leave(WritePass(s, sel, script).s));
    TimeoutsLog(Recalculated(s, sel, script), sel.now, script, sel.rounds);
  }

  lemma ActLog(s: State, a: Action, script: Script)
    requires Inv(s)
    ensures |s.h.log| <= |Act(s, a, script).h.log|
  {
    match a
    case Outside(c) => ExecAllLog(s, [c]);
    case Begin =>
    case Loop(sel) => IterateLog(s, sel, script);
  }

  lemma {:induction false} RunLog(s: State, acts: seq<Action>, script: Script)
    requires Settled(s)
    ensures |s.h.log| <= |Run(s, acts, script).h.log|
    decreases |acts|
  {
    if acts != [] {
      ActSettled(s, acts[0], script);
      ActLog(s, acts[0], script);
      RunLog(Act(s, acts[0], script), acts[1..], script);
    }
  }

  // ----- what callbacks, passes and runs preserve ------------------------------------

  lemma {:induction false} ExecAllStable(P: State -> bool, C: Call -> bool, s: State, cs: seq<Call>)
    requires CallStable(P, C) && Inv(s) && P(s) && forall c :: c in cs ==> C(c)
    ensures P(ExecAll(s, cs)) && Inv(ExecAll(s, cs))
    decreases |cs|
  {
    if cs != [] {
      ExecInv(s, cs[0]);
      assert P(Exec(s, cs[0]));
      ExecAllStable(P, C, Exec(s, cs[0]), cs[1..]);
    }
  }

  lemma FireStable(P: State -> bool, C: Call -> bool, s: State, e: Id, kind: Flag, script: Script)
    requires CallStable(P, C) && Inv(s) && P(s) && Obeys(script, |s.h.log|, |s.h.log| + 1, C)
    ensures var t := Fire(s, e, kind, script);
      P(t) && Inv(t) && t.h.log == s.h.log + [Firing(e, kind)] && t.inloop == s.inloop
  {
    var s1 := Logged(s, Firing(e, kind));
    assert Inv(s1) && P(s1);
    ExecAllStable(P, C, s1, script(|s.h.log|));
    FireLog(s, e, kind, script);
  }

  lemma VisitedStable(P: State -> bool, C: Call -> bool, s: State, e: Id, ready: set<int>, kind: Flag, script: Script)
    requires Stable(P, C) && Inv(s) && P(s)
    requires Hit(s, e, ready) ==> Obeys(script, |s.h.log|, |s.h.log| + 1, C)
    ensures var t := Visited(s, e, ready, kind, script); P(t) && Inv(t)
  {
    if Hit(s, e, ready) {
      EventDelInv(s, e);
      assert P(EventDel(s, e));
      FireStable(P, C, EventDel(s, e), e, kind, script);
    }
  }

  lemma {:induction false} PassStable(P: State -> bool, C: Call -> bool, s: State, cur: Option<Id>, ready: set<int>,
                                      kind: Flag, script: Script)
    requires Stable(P, C) && Inv(s) && s.inloop && P(s)
    requires Obeys(script, |s.h.log|, |Pass(s, cur, ready, kind, script).s.h.log|, C)
    ensures var r := Pass(s, cur, ready, kind, script);
      && P(r.s) && |s.h.log| <= |r.s.h.log|
      && (forall k :: 0 <= k < |r.visits| ==> P(r.visits[k].s) && |s.h.log| <= |r.visits[k].s.h.log|)
    decreases Rank(s, cur)
  {
    if cur.Some? {
      var t := TurnStable(P, C, s, cur.value, ready, kind, script);
      PassStable(P, C, t, Link(s, cur.value), ready, kind, script);
    }
  }

  /** One turn of a pass. */
  lemma TurnStable(P: State -> bool, C: Call -> bool, s: State, e: Id, ready: set<int>, kind: Flag, script: Script)
      returns (t: State)
    requires Stable(P, C) && Inv(s) && s.inloop && P(s)
    requires Obeys(script, |s.h.log|, |Pass(s, Some(e), ready, kind, script).s.h.log|, C)
    ensures P(t) && Inv(t) && t.inloop && |s.h.log| <= |t.h.log|
    ensures Rank(t, Link(s, e)) < Rank(s, Some(e)) && 0 <= Rank(s, Some(e))
    ensures var r, r' := Pass(s, Some(e), ready, kind, script), Pass(t, Link(s, e), ready, kind, script);
      r == r'.(visits := [Visit(e, s, Hit(s, e, ready))] + r'.visits)
  {
    t := Visited(s, e, ready, kind, script);
    RankDrops(s, e, ready, kind, script);
    VisitedLog(s, e, ready, kind, script);
    PassLog(t, Link(s, e), ready, kind, script);
    VisitedStable(P, C, s, e, ready, kind, script);
  }

  /** One round of the timeout loop. */
  lemma {:induction false} RoundStable(P: State -> bool, C: Call -> bool, s: State, now: Time, script: Script, n: nat) returns (t: State)
    requires CallStable(P, C) && ExpireStable(P) && Inv(s) && P(s) && n > 0 && Due(s, now)
    requires Obeys(script, |s.h.log|, |Timeouts(s, now, script, n).h.log|, C)
    ensures P(t) && Inv(t) && t.h.log == s.h.log + [Firing(s.timeq[0], TIMEOUT)]
    ensures Timeouts(s, now, script, n) == Timeouts(t, now, script, n - 1)
  {
    t := Fire(Expire(s), s.timeq[0], TIMEOUT, script);
    FireLog(Expire(s), s.timeq[0], TIMEOUT, script);
    TimeoutsLog(t, now, script, n - 1);
    ExpireInv(s);
    assert P(Expire(s));
    FireStable(P, C, Expire(s), s.timeq[0], TIMEOUT, script);
  }

  lemma {:induction false} TimeoutsStable(P: State -> bool, C: Call -> bool, s: State, now: Time, script: Script, n: nat)
    requires CallStable(P, C) && ExpireStable(P) && Inv(s) && P(s)
    requires Obeys(script, |s.h.log|, |Timeouts(s, now, script, n).h.log|, C)
    ensures P(Timeouts(s, now, script, n)) && Inv(Timeouts(s, now, script, n))
    decreases n
  {
    if n > 0 && Due(s, now) {
      var t := RoundStable(P, C, s, now, script, n);
      TimeoutsStable(P, C, t, now, script, n - 1);
    }
  }

  lemma {:induction false} DrainStable(P: State -> bool, C: Call -> bool, s: State)
    requires LoopStable(P, C) && Inv(s) && P(s)
    ensures P(Drain(s))
    decreases |s.addq|
  {
    if s.addq != [] {
      PopAddInv(s);
      AddPostInv(PopAdd(s), s.addq[0]);
      assert P(DrainOne(s));
      DrainStable(P, C, DrainOne(s));
    }
  }

  lemma PassesStable(P: State -> bool, C: Call -> bool, s: State, sel: Select, script: Script)
    requires LoopStable(P, C) && Inv(s) && P(s)
    requires Obeys(script, |s.h.log|, |WritePass(s, sel, script).s.h.log|, C)
    ensures P(ReadPass(s, sel, script).s) && P(WritePass(s, sel, script).s)
  {
    IterateLog(s, sel, script);
    EnterInv(s);
    assert P(Reset(s, true, s.fds, s.fdsz, []));
    PassStable(P, C, Enter(s), IdAt(s.readq, 0), sel.readable * Fds(s, s.readq), READ, script);
    var m := ReadPass(s, sel, script).s;
    PassStable(P, C, m, IdAt(m.writeq, 0), sel.writable * Fds(s, s.writeq), WRITE, script);
  }

  lemma RecalculatedStable(P: State -> bool, C: Call -> bool, s: State, sel: Select, script: Script)
    requires LoopStable(P, C) && Inv(s) && P(s)
    requires Obeys(script, |s.h.log|, |WritePass(s, sel, script).s.h.log|, C)
    ensures P(Recalculated(s, sel, script))
  {
    PassesStable(P, C, s, sel, script);
    var w := WritePass(s, sel, script).s;
    assert P(Reset(w, false, w.fds, w.fdsz, w.h.ops));
    DrainStable(P, C, Leave(w));
    var d, t := Drained(s, sel, script), Recalculated(s, sel, script);
    assert P(Reset(d, d.inloop, t.fds, t.fdsz, d.h.ops));
  }

  lemma IterateStable(P: State -> bool, C: Call -> bool, s: State, sel: Select, script: Script)
    requires LoopStable(P, C) && Inv(s) && P(s)
    requires Obeys(script, |s.h.log|, |Iterate(s, sel, script).h.log|, C)
    ensures P(Iterate(s, sel, script))
  {
    IterateLog(s, sel, script);
    RecalculatedSettled(s, sel, script);
    RecalculatedStable(P, C, s, sel, script);
    TimeoutsStable(P, C, Recalculated(s, sel, script), sel.now, script, sel.rounds);
  }

  lemma ActStable(P: State -> bool, C: Call -> bool, s: State, a: Action, script: Script)
    requires LoopStable(P, C) && Settled(s) && P(s) && (a.Outside? ==> C(a.c))
    requires Obeys(script, |s.h.log|, |Act(s, a, script).h.log|, C)
    ensures P(Act(s, a, script))
  {
    match a {
      case Outside(c) => assert P(Exec(s, c));
      case Begin =>
        var t := Recalc(s, 0);
        assert P(Reset(s, s.inloop, t.fds, t.fdsz, s.h.ops));
      case Loop(sel) => IterateStable(P, C, s, sel, script);
    }
  }

  /** What the loop preserves holds over every run whose calls are allowed. */
  lemma {:induction false} RunStable(P: State -> bool, C: Call -> bool, s: State, acts: seq<Action>, script: Script)
    requires LoopStable(P, C) && Settled(s) && P(s) && Obeys(script, |s.h.log|, |Run(s, acts, script).h.log|, C)
    requires forall a :: a in acts && a.Outside? ==> C(a.c)
    ensures P(Run(s, acts, script))
    decreases |acts|
  {
    if acts != [] {
      var t := Act(s, acts[0], script);
      ActSettled(s, acts[0], script);
      ActLog(s, acts[0], script);
      RunLog(t, acts[1..], script);
      ActStable(P, C, s, acts[0], script);
      RunStable(P, C, t, acts[1..], script);
    }
  }
}
