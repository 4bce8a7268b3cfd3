/** The body of the dispatch loop around the passes, and whole runs of the reactor. */
module EventLoop {
  import opened Tailq
  import opened Timeval
  import opened EventState
  import opened EventInvariant
  import opened EventPass

  /** What the environment supplies to one iteration of the loop. */
  datatype Select = Select(
    readable: set<int>,    // descriptors that select leaves set, among those it was given
    writable: set<int>,
    now: Time,             // the clock reading of timeout_process
    rounds: nat)           // how many rounds of the timeout loop are made

  function Fds(s: State, q: seq<Id>): set<int> {
    set x | x in q :: Ev(s, x).fd
  }

  function Enter(s: State): State {
    s.(inloop := true, h := s.h.(ops := []))
  }

  lemma EnterInv(s: State)
    requires Inv(s)
    ensures Inv(Enter(s)) && PassInv(Enter(s), Enter(s))
  {
    assert Inv(Enter(s));
    PassStart(Enter(s));
  }

  ghost function ReadPass(s: State, sel: Select, script: Script): (r: PassResult)
    requires Inv(s)
    ensures PassInv(Enter(s), r.s)
  {
    var s0 := Enter(s);
    EnterInv(s);
    var ready := sel.readable * Fds(s, s.readq);
    PassWalks(s0, s0, IdAt(s.readq, 0), ready, READ, script);
    Pass(s0, IdAt(s.readq, 0), ready, READ, script)
  }

  /** The write pass starts at the write queue and, as written, follows the read links. */
  ghost function WritePass(s: State, sel: Select, script: Script): (r: PassResult)
    requires Inv(s)
    ensures PassInv(ReadPass(s, sel, script).s, r.s) && Within(Enter(s), r.s)
  {
    var m := ReadPass(s, sel, script).s;
    PassStart(m);
    var ready := sel.writable * Fds(s, s.writeq);
    PassWalks(m, m, IdAt(m.writeq, 0), ready, WRITE, script);
    WithinTrans(Enter(s), m, Pass(m, IdAt(m.writeq, 0), ready, WRITE, script).s);
    Pass(m, IdAt(m.writeq, 0), ready, WRITE, script)
  }

  function Leave(s: State): State {
    s.(inloop := false)
  }

  // ----- draining the postponed additions ------------------------------------------

  function PopAdd(s: State): State
    requires s.addq != []
  {
    var e := s.addq[0];
    s.(addq := s.addq[1..], ev := s.ev[e := Ev(s, e).(flags := Ev(s, e).flags - {ADD})])
  }

  function Drain(s: State): State
    decreases |s.addq|
  {
    if s.addq == [] then s else Drain(AddPost(PopAdd(s), s.addq[0]))
  }

  lemma PopAddInv(s: State)
    requires Inv(s) && s.addq != []
    ensures Inv(PopAdd(s))
  {
    var e := s.addq[0];
    var v := Ev(s, e).(flags := Ev(s, e).flags - {ADD});
    assert IndexOf(s.addq, e) == 0;
    assert Without(s.addq, e) == s.addq[1..];
    MirrorsRemove(s.ev, ADD, s.addq, e, v);
    MirrorsSame(s.ev, READ, s.readq, e, v);
    MirrorsSame(s.ev, WRITE, s.writeq, e, v);
    MirrorsSame(s.ev, TIMEOUT, s.timeq, e, v);
    SameDeadlinesSorted(s.ev, s.h.armed, s.timeq, e, v);
  }

  lemma {:induction false} DrainInv(s: State)
    requires Inv(s)
    ensures Inv(Drain(s)) && Drain(s).addq == [] && Drain(s).inloop == s.inloop
    decreases |s.addq|
  {
    if s.addq != [] {
      PopAddInv(s);
      AddPostInv(PopAdd(s), s.addq[0]);
      DrainInv(AddPost(PopAdd(s), s.addq[0]));
    }
  }

  // ----- events_recalc ---------------------------------------------------------------

  function Top(s: State, q: seq<Id>, m: int): (r: int)
    ensures m <= r && (forall x :: x in q ==> Ev(s, x).fd <= r)
    ensures r == m || exists x :: x in q && Ev(s, x).fd == r
  {
    if q == [] then m else Top(s, q[1..], if Ev(s, q[0]).fd > m then Ev(s, q[0]).fd else m)
  }

  /** The descriptors that a pass looked at and did not call. */
  function TopVisited(v: seq<Visit>, m: int): (r: int)
    ensures m <= r
    ensures forall k :: 0 <= k < |v| && !v[k].called ==> Ev(v[k].s, v[k].e).fd <= r
    ensures r == m || exists k :: 0 <= k < |v| && !v[k].called && Ev(v[k].s, v[k].e).fd == r
  {
    if v == [] then m else
    var fd := Ev(v[0].s, v[0].e).fd;
    var r := TopVisited(v[1..], if !v[0].called && fd > m then fd else m);
    assert forall k :: 0 < k < |v| ==> v[k] == v[1..][k - 1];
    r
  }

  const MASK_BYTES := 8
  const NFDBITS := 64

  /** The bytes that hold a set of the descriptors up to `fds`. */
  function SetBytes(fds: int): int {
    (fds + 1 + (NFDBITS - 1)) / NFDBITS * MASK_BYTES
  }

  function Recalc(s: State, max: int): State {
    var fds := if max != 0 then max else Top(s, s.readq, Top(s, s.writeq, 0));
    s.(fds := fds, fdsz := if SetBytes(fds) > s.fdsz then SetBytes(fds) else s.fdsz)
  }

  // ----- timeout_process -------------------------------------------------------------

  function Expire(s: State): State
    requires s.timeq != []
  {
    var e := s.timeq[0];
    s.(timeq := s.timeq[1..], ev := s.ev[e := Ev(s, e).(flags := Ev(s, e).flags - {TIMEOUT})])
  }

  predicate Due(s: State, now: Time) {
    s.timeq != [] && !Less(now, Ev(s, s.timeq[0]).deadline)
  }

  /** The state after at most `n` rounds of the timeout loop; fewer if the loop ends before. */
  function Timeouts(s: State, now: Time, script: Script, n: nat): State
    decreases n
  {
    if n == 0 || !Due(s, now) then s
    else Timeouts(Fire(Expire(s), s.timeq[0], TIMEOUT, script), now, script, n - 1)
  }

  lemma ExpireInv(s: State)
    requires Inv(s) && s.timeq != []
    ensures Inv(Expire(s))
  {
    var e := s.timeq[0];
    var v := Ev(s, e).(flags := Ev(s, e).flags - {TIMEOUT});
    assert IndexOf(s.timeq, e) == 0;
    assert Without(s.timeq, e) == s.timeq[1..];
    MirrorsRemove(s.ev, TIMEOUT, s.timeq, e, v);
    MirrorsSame(s.ev, READ, s.readq, e, v);
    MirrorsSame(s.ev, WRITE, s.writeq, e, v);
    MirrorsSame(s.ev, ADD, s.addq, e, v);
    WithoutSorted(s.ev, s.h.armed, s.timeq, e);
    SameDeadlinesSorted(s.ev, s.h.armed, s.timeq[1..], e, v);
  }

  // ----- the loop --------------------------------------------------------------------

  /** After both passes and the drain. */
  ghost function Drained(s: State, sel: Select, script: Script): State
    requires Inv(s)
  {
    Drain(Leave(WritePass(s, sel, script).s))
  }

  /** The argument of events_recalc. */
  ghost function MaxFd(s: State, sel: Select, script: Script): int
    requires Inv(s)
  {
    var w := WritePass(s, sel, script);
    Top(w.s, w.s.addq, TopVisited(w.visits, TopVisited(ReadPass(s, sel, script).visits, 0)))
  }

  ghost function Recalculated(s: State, sel: Select, script: Script): State
    requires Inv(s)
  {
    Recalc(Drained(s, sel, script), MaxFd(s, sel, script))
  }

  ghost function Iterate(s: State, sel: Select, script: Script): State
    requires Inv(s)
  {
    Timeouts(Recalculated(s, sel, script), sel.now, script, sel.rounds)
  }

  /** Outside the passes nothing is postponed. */
  ghost predicate Settled(s: State) {
    Inv(s) && !s.inloop && s.addq == []
  }

  lemma ExecSettled(s: State, c: Call)
    requires Settled(s)
    ensures Settled(Exec(s, c))
  {
    ExecInv(s, c);
  }

  lemma {:induction false} ExecAllSettled(s: State, cs: seq<Call>)
    requires Settled(s)
    ensures Settled(ExecAll(s, cs))
    decreases |cs|
  {
    if cs != [] {
      ExecSettled(s, cs[0]);
      ExecAllSettled(Exec(s, cs[0]), cs[1..]);
    }
  }

  lemma {:induction false} TimeoutsSettled(s: State, now: Time, script: Script, n: nat)
    requires Settled(s)
    ensures Settled(Timeouts(s, now, script, n))
    decreases n
  {
    if n > 0 && Due(s, now) {
      var e, t := s.timeq[0], Expire(s);
      ExpireInv(s);
      var t1 := t.(h := t.h.(log := t.h.log + [Firing(e, TIMEOUT)]));
      assert Settled(t1);
      ExecAllSettled(t1, script(|t.h.log|));
      TimeoutsSettled(Fire(t, e, TIMEOUT, script), now, script, n - 1);
    }
  }

  lemma RecalculatedSettled(s: State, sel: Select, script: Script)
    requires Inv(s)
    ensures Settled(Drained(s, sel, script)) && Settled(Recalculated(s, sel, script))
  {
    var w := Leave(WritePass(s, sel, script).s);
    assert Inv(w);
    DrainInv(w);
  }

  lemma IterateSettled(s: State, sel: Select, script: Script)
    requires Settled(s)
    ensures Settled(Iterate(s, sel, script))
  {
    RecalculatedSettled(s, sel, script);
    TimeoutsSettled(Recalculated(s, sel, script), sel.now, script, sel.rounds);
  }

  /** The start of event_dispatch. */
  ghost function Begun(s: State): (t: State)
    requires Settled(s)
    ensures Settled(t)
  {
    Recalc(s, 0)
  }

  /** A run: calls from outside the loop, starts of event_dispatch, and loop iterations. */
  datatype Action = Outside(c: Call) | Begin | Loop(sel: Select)

  ghost function Act(s: State, a: Action, script: Script): State
    requires Inv(s)
  {
    match a
    case Outside(c) => Exec(s, c)
    case Begin => Recalc(s, 0)
    case Loop(sel) => Iterate(s, sel, script)
  }

  lemma ActSettled(s: State, a: Action, script: Script)
    requires Settled(s)
    ensures Settled(Act(s, a, script))
  {
    match a
    case Outside(c) => ExecSettled(s, c);
    case Begin =>
    case Loop(sel) => IterateSettled(s, sel, script);
  }

  ghost function Run(s: State, acts: seq<Action>, script: Script): (t: State)
    requires Settled(s)
    ensures Settled(t)
    decreases |acts|
  {
    if acts == [] then s else
    ActSettled(s, acts[0], script);
    Run(Act(s, acts[0], script), acts[1..], script)
  }

  /** Every state of every run keeps all invariants, with nothing postponed. */
  lemma {:induction false} RunSettled(acts: seq<Action>, script: Script)
    ensures Settled(START) && Settled(Run(START, acts, script))
  {
    StartInv();
  }
}
