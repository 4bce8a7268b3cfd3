/**
 What the turns of a pass do, told by the calls that clients make: which events are called
 and with what, what the log and the record of operations hold, and which state follows.
 */
module EventTurns {
  import opened Options
  import opened Tailq
  import opened Timeval
  import opened EventState
  import opened EventInvariant
  import opened EventPass
  import opened EventLoop
  import opened EventStable

  /** What a list of calls requests and deletes. */
  function OpsOf(cs: seq<Call>): seq<Op> {
    if cs == [] then [] else
    (match cs[0]
     case Add(e, _, _) => [Requested(e)]
     case Del(e) => [Deleted(e)]
     case Set(_, _, _) => []) + OpsOf(cs[1..])
  }

  /** The operations of a turn: the loop's own deletion, then the calls of the callback. */
  function TurnOps(v: Visit, script: Script): seq<Op> {
    if v.called then [Deleted(v.e)] + OpsOf(script(|v.s.h.log|)) else []
  }

  function VisitOps(v: seq<Visit>, script: Script): seq<Op> {
    if v == [] then [] else TurnOps(v[0], script) + VisitOps(v[1..], script)
  }

  /** The callbacks of a pass: its called visits, in order. */
  function Firings(v: seq<Visit>, kind: Flag): seq<Firing> {
    if v == [] then [] else (if v[0].called then [Firing(v[0].e, kind)] else []) + Firings(v[1..], kind)
  }

  lemma ExecOps(s: State, c: Call)
    requires s.inloop
    ensures Exec(s, c).h.ops == s.h.ops + OpsOf([c]) && Exec(s, c).inloop
  {
    assert [c][1..] == [];
    assert OpsOf([]) == [];
  }

  lemma {:induction false} ExecAllOps(s: State, cs: seq<Call>)
    requires s.inloop
    ensures ExecAll(s, cs).h.ops == s.h.ops + OpsOf(cs)
    decreases |cs|
  {
    if cs != [] {
      ExecOps(s, cs[0]);
      ExecAllOps(Exec(s, cs[0]), cs[1..]);
      OpsOfCons(cs);
    }
  }

  lemma {:induction false} OpsOfCons(cs: seq<Call>)
    requires cs != []
    ensures OpsOf(cs) == OpsOf([cs[0]]) + OpsOf(cs[1..])
  {
    assert [cs[0]][1..] == [];
    assert OpsOf([]) == [];
  }

  /** The state after a called turn: the event deleted, its callback logged, and the calls made one by one. */
  function AfterCall(s: State, e: Id, kind: Flag, script: Script): State {
    ExecAll(Logged(Exec(s, Del(e)), Firing(e, kind)), script(|s.h.log|))
  }

  lemma VisitedIs(s: State, e: Id, ready: set<int>, kind: Flag, script: Script)
    ensures Visited(s, e, ready, kind, script) ==
      if Ev(s, e).fd in ready then AfterCall(s, e, kind, script) else s
  {}

  lemma VisitedOps(s: State, e: Id, ready: set<int>, kind: Flag, script: Script)
    requires s.inloop
    ensures Visited(s, e, ready, kind, script).h.ops == s.h.ops + TurnOps(Visit(e, s, Hit(s, e, ready)), script)
  {
    DelOps(s, e);
    FireOps(EventDel(s, e), e, kind, script);
  }

  lemma DelOps(s: State, e: Id)
    requires s.inloop
    ensures var t := EventDel(s, e); t.h.ops == s.h.ops + [Deleted(e)] && t.inloop && t.h.log == s.h.log
  {}

  lemma FireOps(s: State, e: Id, kind: Flag, script: Script)
    requires s.inloop
    ensures Fire(s, e, kind, script).h.ops == s.h.ops + OpsOf(script(|s.h.log|))
  {
    ExecAllOps(Logged(s, Firing(e, kind)), script(|s.h.log|));
  }

  /** A pass, unrolled: what was there before, and what each visit adds. */
  ghost predicate Adds(s: State, r: PassResult, kind: Flag, script: Script) {
    && r.s.h.ops == s.h.ops + VisitOps(r.visits, script)
    && r.s.h.log == s.h.log + Firings(r.visits, kind)
  }

  lemma {:induction false} AddsCons(s: State, t: State, x: Visit, r: PassResult, kind: Flag, script: Script)
    requires t.h.ops == s.h.ops + TurnOps(x, script)
    requires t.h.log == s.h.log + (if x.called then [Firing(x.e, kind)] else [])
    requires Adds(t, r, kind, script)
    ensures Adds(s, r.(visits := [x] + r.visits), kind, script)
  {
    VisitOpsCons(x, r.visits, script);
    FiringsCons(x, r.visits, kind);
    Regroup(s.h.ops, TurnOps(x, script), VisitOps(r.visits, script));
    Regroup(s.h.log, if x.called then [Firing(x.e, kind)] else [], Firings(r.visits, kind));
  }

  lemma {:induction false} Regroup<T>(a: seq<T>, b: seq<T>, c: seq<T>)
    ensures (a + b) + c == a + (b + c)
  {}

  lemma {:induction false} VisitOpsCons(x: Visit, v: seq<Visit>, script: Script)
    ensures VisitOps([x] + v, script) == TurnOps(x, script) + VisitOps(v, script)
  {
    var w := [x] + v;
    assert w[0] == x && w[1..] == v;
  }

  lemma {:induction false} FiringsCons(x: Visit, v: seq<Visit>, kind: Flag)
    ensures Firings([x] + v, kind) == (if x.called then [Firing(x.e, kind)] else []) + Firings(v, kind)
  {
    var w := [x] + v;
    assert w[0] == x && w[1..] == v;
  }

  /**
   The turns of a pass from `cur` in state `s`, one by one: who is looked at, whether it is
   called, and the state that follows.
   */
  ghost predicate Turns(s: State, cur: Option<Id>, ready: set<int>, kind: Flag, script: Script, v: seq<Visit>, end: State)
    decreases |v|
  {
    if v == [] then cur.None? && end == s else
    && cur == Some(v[0].e) && v[0].s == s
    && (v[0].called <==> Ev(s, v[0].e).fd in ready)
    && Turns(if v[0].called then AfterCall(s, v[0].e, kind, script) else s,
             Link(s, v[0].e), ready, kind, script, v[1..], end)
  }

  lemma PassFirst(s: State, e: Id, ready: set<int>, kind: Flag, script: Script) returns (t: State, r: PassResult)
    requires Inv(s) && s.inloop
    ensures Inv(t) && t.inloop && t == Visited(s, e, ready, kind, script)
    ensures Rank(t, Link(s, e)) < Rank(s, Some(e)) && 0 <= Rank(s, Some(e))
    ensures r == Pass(t, Link(s, e), ready, kind, script)
    ensures Pass(s, Some(e), ready, kind, script) == r.(visits := [Visit(e, s, Hit(s, e, ready))] + r.visits)
  {
    t := Visited(s, e, ready, kind, script);
    RankDrops(s, e, ready, kind, script);
    r := Pass(t, Link(s, e), ready, kind, script);
  }

  lemma {:induction false} PassAdds(s: State, cur: Option<Id>, ready: set<int>, kind: Flag, script: Script)
    requires Inv(s) && s.inloop
    ensures Adds(s, Pass(s, cur, ready, kind, script), kind, script)
    decreases Rank(s, cur)
  {
    if cur.Some? {
      var t, r := PassFirst(s, cur.value, ready, kind, script);
      VisitedOps(s, cur.value, ready, kind, script);
      VisitedLog(s, cur.value, ready, kind, script);
      PassAdds(t, Link(s, cur.value), ready, kind, script);
      AddsCons(s, t, Visit(cur.value, s, Hit(s, cur.value, ready)), r, kind, script);
    }
  }

  lemma {:induction false} PassTurns(s: State, cur: Option<Id>, ready: set<int>, kind: Flag, script: Script)
    requires Inv(s) && s.inloop
    ensures var r := Pass(s, cur, ready, kind, script); Turns(s, cur, ready, kind, script, r.visits, r.s)
    decreases Rank(s, cur)
  {
    if cur.Some? {
      var t, r := PassFirst(s, cur.value, ready, kind, script);
      VisitedIs(s, cur.value, ready, kind, script);
      PassTurns(t, Link(s, cur.value), ready, kind, script);
      TurnsCons(s, cur.value, ready, kind, script, t, r);
    }
  }

  lemma {:induction false} TurnsCons(s: State, e: Id, ready: set<int>, kind: Flag, script: Script, t: State, r: PassResult)
    requires t == if Ev(s, e).fd in ready then AfterCall(s, e, kind, script) else s
    requires Turns(t, Link(s, e), ready, kind, script, r.visits, r.s)
    ensures Turns(s, Some(e), ready, kind, script, [Visit(e, s, Hit(s, e, ready))] + r.visits, r.s)
  {
    var v := [Visit(e, s, Hit(s, e, ready))] + r.visits;
    assert v[0] == Visit(e, s, Hit(s, e, ready)) && v[1..] == r.visits;
  }

  lemma {:induction false} TurnsCall(s: State, cur: Option<Id>, ready: set<int>, kind: Flag, script: Script,
                                     v: seq<Visit>, end: State, k: nat)
    requires Turns(s, cur, ready, kind, script, v, end) && k < |v|
    ensures v[k].called <==> Ev(v[k].s, v[k].e).fd in ready
    decreases |v|
  {
    if k > 0 {
      TurnsCall(if v[0].called then AfterCall(s, v[0].e, kind, script) else s,
                Link(s, v[0].e), ready, kind, script, v[1..], end, k - 1);
    }
  }

  // ----- both passes -----------------------------------------------------------------

  /** The descriptor is that of an event on the queue. */
  ghost predicate OnQueue(s: State, q: seq<Id>, fd: int) {
    exists x :: x in q && Ev(s, x).fd == fd
  }

  ghost predicate SameQueues(s: State, t: State) {
    && t.ev == s.ev && t.readq == s.readq && t.writeq == s.writeq && t.timeq == s.timeq && t.addq == s.addq
    && t.link == s.link && t.fds == s.fds && t.fdsz == s.fdsz && t.h.log == s.h.log
  }

  /**
   The read pass: from the head of the read queue, with the loop flag up, by turns that
   report EV_READ for the descriptors that select answered as readable.
   */
  lemma ReadPassTurns(s: State, sel: Select, script: Script) returns (s0: State)
    requires Inv(s)
    ensures SameQueues(s, s0) && s0.inloop && s0.h.ops == []
    ensures var r := ReadPass(s, sel, script);
      Turns(s0, IdAt(s.readq, 0), sel.readable * Fds(s, s.readq), READ, script, r.visits, r.s)
  {
    EnterInv(s);
    s0 := Enter(s);
    PassTurns(s0, IdAt(s.readq, 0), sel.readable * Fds(s, s.readq), READ, script);
  }

  lemma ReadPassAdds(s: State, sel: Select, script: Script)
    requires Inv(s)
    ensures var r := ReadPass(s, sel, script);
      r.s.h.ops == VisitOps(r.visits, script) && r.s.h.log == s.h.log + Firings(r.visits, READ)
  {
    EnterInv(s);
    PassAdds(Enter(s), IdAt(s.readq, 0), sel.readable * Fds(s, s.readq), READ, script);
  }

  /** The write pass: from the head of the write queue, by turns that report EV_WRITE. */
  lemma WritePassTurns(s: State, sel: Select, script: Script)
    requires Inv(s)
    ensures var m, r := ReadPass(s, sel, script).s, WritePass(s, sel, script);
      Turns(m, IdAt(m.writeq, 0), sel.writable * Fds(s, s.writeq), WRITE, script, r.visits, r.s)
  {
    var m := ReadPass(s, sel, script).s;
    PassTurns(m, IdAt(m.writeq, 0), sel.writable * Fds(s, s.writeq), WRITE, script);
  }

  lemma WritePassAdds(s: State, sel: Select, script: Script)
    requires Inv(s)
    ensures Adds(ReadPass(s, sel, script).s, WritePass(s, sel, script), WRITE, script)
  {
    var m := ReadPass(s, sel, script).s;
    PassAdds(m, IdAt(m.writeq, 0), sel.writable * Fds(s, s.writeq), WRITE, script);
  }

  /** Who is called: in each pass a visited event whose descriptor select was given for that pass and left set. */
  lemma {:induction false} CalledExactly(s: State, sel: Select, script: Script, k: nat)
    requires Inv(s)
    ensures var v := ReadPass(s, sel, script).visits; k < |v| ==>
      (v[k].called <==> var fd := Ev(v[k].s, v[k].e).fd; fd in sel.readable && OnQueue(s, s.readq, fd))
    ensures var v := WritePass(s, sel, script).visits; k < |v| ==>
      (v[k].called <==> var fd := Ev(v[k].s, v[k].e).fd; fd in sel.writable && OnQueue(s, s.writeq, fd))
  {
    var m, r, w := ReadPass(s, sel, script).s, ReadPass(s, sel, script), WritePass(s, sel, script);
    if k < |r.visits| {
      var s0 := ReadPassTurns(s, sel, script);
      TurnsCall(s0, IdAt(s.readq, 0), sel.readable * Fds(s, s.readq), READ, script, r.visits, r.s, k);
    }
    if k < |w.visits| {
      WritePassTurns(s, sel, script);
      TurnsCall(m, IdAt(m.writeq, 0), sel.writable * Fds(s, s.writeq), WRITE, script, w.visits, w.s, k);
    }
  }

  /** A pass looked at an event with this descriptor and did not call it. */
  ghost predicate LookedAt(v: seq<Visit>, fd: int) {
    exists k :: 0 <= k < |v| && !v[k].called && Ev(v[k].s, v[k].e).fd == fd
  }

  /** What the passes hand to events_recalc: the largest descriptor looked at and not called, or postponed; 0 at least. */
  lemma MaxFdExactly(s: State, sel: Select, script: Script)
    requires Inv(s)
    ensures var r, w, max := ReadPass(s, sel, script).visits, WritePass(s, sel, script), MaxFd(s, sel, script);
      && 0 <= max && (max == 0 || LookedAt(r, max) || LookedAt(w.visits, max) || OnQueue(w.s, w.s.addq, max))
      && (forall fd :: LookedAt(r, fd) || LookedAt(w.visits, fd) || OnQueue(w.s, w.s.addq, fd) ==> fd <= max)
  {
    var r, w := ReadPass(s, sel, script).visits, WritePass(s, sel, script);
    var a := TopVisited(r, 0);
    var b := TopVisited(w.visits, a);
    assert MaxFd(s, sel, script) == Top(w.s, w.s.addq, b);
  }

  /** The operations of both passes, from the calls that their callbacks make. */
  function PassOps(r: seq<Visit>, w: seq<Visit>, script: Script): seq<Op> {
    VisitOps(r, script) + VisitOps(w, script)
  }

  lemma PassesAdd(s: State, sel: Select, script: Script)
    requires Inv(s)
    ensures var r, w := ReadPass(s, sel, script).visits, WritePass(s, sel, script);
      && w.s.h.ops == PassOps(r, w.visits, script)
      && w.s.h.log == s.h.log + Firings(r, READ) + Firings(w.visits, WRITE)
  {
    ReadPassAdds(s, sel, script);
    WritePassAdds(s, sel, script);
  }

  ghost predicate AllTimeouts(log: seq<Firing>, n: nat) {
    forall k :: n <= k < |log| ==> log[k].kind == TIMEOUT
  }

  lemma {:induction false} TimeoutsTell(s: State, now: Time, script: Script, n: nat)
    ensures var log := Timeouts(s, now, script, n).h.log; Extends(s.h.log, log) && AllTimeouts(log, |s.h.log|)
    decreases n
  {
    if n > 0 && Due(s, now) {
      var t := Fire(Expire(s), s.timeq[0], TIMEOUT, script);
      FireLog(Expire(s), s.timeq[0], TIMEOUT, script);
      TimeoutsTell(t, now, script, n - 1);
    }
  }

  /**
   The callbacks of an iteration: EV_READ for the called events of the read pass in order,
   then EV_WRITE for those of the write pass, then EV_TIMEOUT only.
   */
  lemma IterateTells(s: State, sel: Select, script: Script)
    requires Inv(s)
    ensures var r, w := ReadPass(s, sel, script).visits, WritePass(s, sel, script).visits;
      var called, log := s.h.log + Firings(r, READ) + Firings(w, WRITE), Iterate(s, sel, script).h.log;
      Recalculated(s, sel, script).h.log == called && Extends(called, log) && AllTimeouts(log, |called|)
  {
    PassesAdd(s, sel, script);
    DrainLog(Leave(WritePass(s, sel, script).s));
    TimeoutsTell(Recalculated(s, sel, script), sel.now, script, sel.rounds);
  }
}
