/** Events that a pass visits after they left the queues, or without having asked for it. */
module EventStale {
  import opened Options
  import opened Tailq
  import opened EventState
  import opened EventInvariant
  import opened EventPass
  import opened EventWalk
  import opened EventLoop
  import opened EventStable
  import opened EventOnce
  import opened EventFds
  import opened EventRoom

  // ----- deleted, and visited all the same -------------------------------------------

  lemma ExecReaders(s: State, c: Call, x: Id)
    requires Inv(s) && s.inloop
    ensures var t := Exec(s, c); t.inloop && (x in t.readq <==> x in s.readq && c != Del(x))
  {
    if c.Del? {
      WithoutKeeps(s.readq, c.e);
    }
  }

  /** While a pass runs, a reader leaves the queue exactly by a deletion. */
  lemma {:induction false} ExecAllReaders(s: State, cs: seq<Call>, x: Id)
    requires Inv(s) && s.inloop
    ensures x in ExecAll(s, cs).readq <==> x in s.readq && Del(x) !in cs
    decreases |cs|
  {
    if cs != [] {
      ExecReaders(s, cs[0], x);
      ExecInv(s, cs[0]);
      ExecAllReaders(Exec(s, cs[0]), cs[1..], x);
    }
  }

  lemma TurnKeepsReader(s: State, e: Id, ready: set<int>, kind: Flag, script: Script, x: Id)
    requires Inv(s) && s.inloop && x in s.readq && x != e
    ensures x in Visited(s, e, ready, kind, script).readq <==>
      !(Hit(s, e, ready) && Del(x) in script(|s.h.log|))
  {
    if Hit(s, e, ready) {
      EventDelInv(s, e);
      WithoutKeeps(s.readq, e);
      var s1 := Logged(EventDel(s, e), Firing(e, kind));
      assert Inv(s1);
      ExecAllReaders(s1, script(|s.h.log|), x);
    }
  }

  /** The callback of this turn deletes the event that the pass has saved as next. */
  ghost predicate DeletesNext(v: Visit, script: Script) {
    var next := Link(v.s, v.e);
    v.called && next.Some? && Del(next.value) in script(|v.s.h.log|)
  }

  /** The next event of a queued event is queued behind it. */
  lemma NextQueued(s: State, e: Id)
    requires Inv(s) && e in s.readq && Link(s, e).Some?
    ensures Link(s, e).value in s.readq && Link(s, e).value != e
  {
    var i := IndexOf(s.readq, e);
    assert At(s.link, s.readq[i]) == IdAt(s.readq, i + 1);
  }

  ghost predicate Live(v: seq<Visit>) {
    forall k :: 0 <= k < |v| ==> v[k].e in v[k].s.readq
  }

  ghost predicate Sparing(v: seq<Visit>, script: Script) {
    forall k :: 0 <= k < |v| ==> !DeletesNext(v[k], script)
  }

  lemma {:induction false} LiveCons(x: Visit, v: seq<Visit>, script: Script)
    ensures Live([x] + v) <==> x.e in x.s.readq && Live(v)
    ensures Sparing([x] + v, script) <==> !DeletesNext(x, script) && Sparing(v, script)
  {
    var w := [x] + v;
    assert w[0] == x && forall k :: 0 <= k < |v| ==> v[k] == w[k + 1];
  }

  /** The rest of a pass after a visit of a queued event. */
  lemma LiveStep(s: State, e: Id, ready: set<int>, kind: Flag, script: Script) returns (t: State)
    requires Inv(s) && s.inloop && e in s.readq
    ensures Inv(t) && t.inloop && Rank(t, Link(s, e)) < Rank(s, Some(e)) && 0 <= Rank(s, Some(e))
    ensures var r, r' := Pass(s, Some(e), ready, kind, script), Pass(t, Link(s, e), ready, kind, script);
      r.visits == [Visit(e, s, Hit(s, e, ready))] + r'.visits
    ensures Link(s, e).Some? ==>
      (Link(s, e).value in t.readq <==> !DeletesNext(Visit(e, s, Hit(s, e, ready)), script))
  {
    t := Visited(s, e, ready, kind, script);
    RankDrops(s, e, ready, kind, script);
    if Link(s, e).Some? {
      NextQueued(s, e);
      TurnKeepsReader(s, e, ready, kind, script, Link(s, e).value);
    }
  }

  lemma {:induction false} NotLive(s: State, cur: Option<Id>, ready: set<int>, kind: Flag, script: Script)
    requires Inv(s) && s.inloop && cur.Some? && cur.value !in s.readq
    ensures !Live(Pass(s, cur, ready, kind, script).visits)
  {
    RankDrops(s, cur.value, ready, kind, script);
    assert Pass(s, cur, ready, kind, script).visits[0] == Visit(cur.value, s, Hit(s, cur.value, ready));
  }

  /**
   A pass that starts on the read queue visits only queued events exactly if no callback
   that it makes deletes the event saved as next.
   */
  lemma {:induction false} LiveExactly(s: State, cur: Option<Id>, ready: set<int>, kind: Flag, script: Script)
    requires Inv(s) && s.inloop && (cur.Some? ==> cur.value in s.readq)
    ensures var v := Pass(s, cur, ready, kind, script).visits; Live(v) <==> Sparing(v, script)
    decreases Rank(s, cur)
  {
    if cur.Some? {
      var e, next := cur.value, Link(s, cur.value);
      var t := LiveStep(s, e, ready, kind, script);
      LiveCons(Visit(e, s, Hit(s, e, ready)), Pass(t, next, ready, kind, script).visits, script);
      if next.Some? && next.value !in t.readq {
        NotLive(t, next, ready, kind, script);
      } else {
        LiveExactly(t, next, ready, kind, script);
      }
    }
  }

  /** The read pass visits no event that is off the queue, exactly if no callback deletes the event saved as next. */
  lemma ReadPassLiveExactly(s: State, sel: Select, script: Script)
    requires Inv(s)
    ensures var v := ReadPass(s, sel, script).visits; Live(v) <==> Sparing(v, script)
  {
    EnterInv(s);
    LiveExactly(Enter(s), IdAt(s.readq, 0), sel.readable * Fds(s, s.readq), READ, script);
  }

  ghost predicate AllQueued(v: seq<Visit>) {
    forall k :: 0 <= k < |v| ==> Queued(v[k].s, v[k].e)
  }

  /** With fixed interests, every state that the write pass visits somebody in is coupled. */
  lemma WriteVisitsCoupled(s: State, sel: Select, script: Script, kinds: Id -> set<Flag>)
    requires Inv(s) && Coupled(s, kinds) && FixedFrom(script, |s.h.log|, kinds)
    ensures var v := WritePass(s, sel, script).visits; forall k :: 0 <= k < |v| ==> Coupled(v[k].s, kinds)
  {
    var m, v := ReadPass(s, sel, script).s, WritePass(s, sel, script).visits;
    var P, C := (t: State) => Coupled(t, kinds), (c: Call) => Fixed(c, kinds);
    CoupledStable(kinds);
    IterateLog(s, sel, script);
    ReadCoupled(s, sel, script, kinds);
    assert P(m);
    PassStable(P, C, m, IdAt(m.writeq, 0), sel.writable * Fds(s, s.writeq), WRITE, script);
    assert forall k :: 0 <= k < |v| ==> P(v[k].s);
  }

  /** A reader that is visited in the write pass is queued exactly if it is on the read queue. */
  lemma WriteVisitsLive(s: State, sel: Select, script: Script, kinds: Id -> set<Flag>)
    requires Inv(s) && Coupled(s, kinds) && FixedFrom(script, |s.h.log|, kinds)
    requires ReadPass(s, sel, script).s.writeq != [] && READ in kinds(ReadPass(s, sel, script).s.writeq[0])
    ensures var v := WritePass(s, sel, script).visits; AllQueued(v) <==> Live(v)
  {
    var m, v := ReadPass(s, sel, script).s, WritePass(s, sel, script).visits;
    ReadCoupled(s, sel, script, kinds);
    WriteVisitsCoupled(s, sel, script, kinds);
    forall k | 0 <= k < |v| ensures Queued(v[k].s, v[k].e) <==> v[k].e in v[k].s.readq {
      WriteVisits(s, sel, script, kinds, k);
      assert READ in kinds(v[k].e);
    }
  }

  /**
   The same for the write pass of a client with fixed interests: it visits no event that is
   off both queues, exactly if no callback deletes the event saved as next.
   */
  lemma WritePassLiveExactly(s: State, sel: Select, script: Script, kinds: Id -> set<Flag>)
    requires Inv(s) && Coupled(s, kinds) && FixedFrom(script, |s.h.log|, kinds)
    ensures var v := WritePass(s, sel, script).visits; AllQueued(v) <==> Sparing(v, script)
  {
    var m := ReadPass(s, sel, script).s;
    if m.writeq != [] && READ in kinds(m.writeq[0]) {
      WriteVisitsLive(s, sel, script, kinds);
      WriteLiveExactly(s, sel, script, kinds);
    } else {
      WriteOnlyQueued(s, sel, script, kinds);
    }
  }

  lemma WritePassIs(s: State, sel: Select, script: Script)
    requires Inv(s)
    ensures var m := ReadPass(s, sel, script).s;
      && Inv(m) && m.inloop
      && WritePass(s, sel, script) == Pass(m, IdAt(m.writeq, 0), sel.writable * Fds(s, s.writeq), WRITE, script)
  {}

  lemma WriteLiveExactly(s: State, sel: Select, script: Script, kinds: Id -> set<Flag>)
    requires Inv(s) && Coupled(s, kinds) && FixedFrom(script, |s.h.log|, kinds)
    requires ReadPass(s, sel, script).s.writeq != [] && READ in kinds(ReadPass(s, sel, script).s.writeq[0])
    ensures var v := WritePass(s, sel, script).visits; Live(v) <==> Sparing(v, script)
  {
    var m := ReadPass(s, sel, script).s;
    ReadCoupled(s, sel, script, kinds);
    WritePassIs(s, sel, script);
    FirstWriterReads(m, kinds);
    LiveExactly(m, IdAt(m.writeq, 0), sel.writable * Fds(s, s.writeq), WRITE, script);
  }

  lemma FirstWriterReads(m: State, kinds: Id -> set<Flag>)
    requires Coupled(m, kinds) && m.writeq != []
    ensures READ in kinds(m.writeq[0]) ==> m.writeq[0] in m.readq
    ensures READ !in kinds(m.writeq[0]) ==> Link(m, m.writeq[0]).None?
  {
    assert m.writeq[0] in m.writeq;
    assert At(m.link, m.writeq[0]).Some? ==> READ in kinds(m.writeq[0]);
  }

  lemma AloneVisited(m: State, x: Id, ready: set<int>, kind: Flag, script: Script)
    requires Inv(m) && m.inloop && Link(m, x).None?
    ensures Pass(m, Some(x), ready, kind, script).visits == [Visit(x, m, Hit(m, x, ready))]
  {
    RankDrops(m, x, ready, kind, script);
    assert Pass(Visited(m, x, ready, kind, script), None, ready, kind, script).visits == [];
  }

  /** A write pass that starts with a write-only event visits nobody else, or there is nobody to visit. */
  lemma WriteOnlyQueued(s: State, sel: Select, script: Script, kinds: Id -> set<Flag>)
    requires Inv(s) && Coupled(s, kinds) && FixedFrom(script, |s.h.log|, kinds)
    requires var m := ReadPass(s, sel, script).s; m.writeq != [] ==> READ !in kinds(m.writeq[0])
    ensures var v := WritePass(s, sel, script).visits; AllQueued(v) && Sparing(v, script)
  {
    var m := ReadPass(s, sel, script).s;
    WritePassIs(s, sel, script);
    if m.writeq != [] {
      ReadCoupled(s, sel, script, kinds);
      FirstWriterReads(m, kinds);
      AloneVisited(m, m.writeq[0], sel.writable * Fds(s, s.writeq), WRITE, script);
    }
  }

  // ----- called for writing without having asked -------------------------------------

  /** `y` reads and does not write, on the descriptor of the writer `w`; the write pass can come to it by way of `x`. */
  ghost predicate Impostor(kinds: Id -> set<Flag>, fds: Id -> int, x: Id, y: Id, w: Id) {
    && READ in kinds(x) && WRITE in kinds(x)
    && READ in kinds(y) && WRITE !in kinds(y)
    && WRITE in kinds(w) && fds(y) == fds(w)
  }

  /** The call sets `x`, if it does, to its descriptor. */
  ghost predicate Describes(c: Call, fds: Id -> int) {
    c.Set? ==> c.fd == fds(c.e)
  }

  ghost predicate DescribesFrom(script: Script, n: nat, fds: Id -> int) {
    forall k, c :: n <= k && c in script(k) ==> Describes(c, fds)
  }

  /** Queued events have the descriptors agreed for them. */
  ghost predicate Labelled(s: State, fds: Id -> int) {
    forall x :: Queued(s, x) ==> Get(s.ev, x).fd == fds(x)
  }

  lemma FdStable(e: Id, fds: Id -> int)
    ensures Stable((t: State) => Get(t.ev, e).fd == fds(e), c => Describes(c, fds))
  {
    forall s, c | Inv(s) && Get(s.ev, e).fd == fds(e) && Describes(c, fds) ensures Get(Exec(s, c).ev, e).fd == fds(e) {
      if c.Add? {
        AddFd(s, c.e, c.tv, c.now, e);
      }
    }
  }

  /** The descriptor of a reader does not change in the write pass, even if it is deleted there. */
  lemma {:induction false} WriteVisitFd(s: State, sel: Select, script: Script, fds: Id -> int, k: nat)
    requires Inv(s) && Labelled(s, fds) && DescribesFrom(script, |s.h.log|, fds) && k < |WritePass(s, sel, script).visits|
    requires WritePass(s, sel, script).visits[k].e in ReadPass(s, sel, script).s.readq
    ensures var v := WritePass(s, sel, script).visits[k]; Ev(v.s, v.e).fd == fds(v.e)
  {
    var m, v := ReadPass(s, sel, script).s, WritePass(s, sel, script).visits;
    var e := v[k].e;
    var P, C := (t: State) => Get(t.ev, e).fd == fds(e), (c: Call) => Describes(c, fds);
    assert Within(Enter(s), m) && e in s.readq;
    assert Queued(s, e) && Get(m.ev, e).fd == Get(Enter(s).ev, e).fd;
    assert P(m);
    IterateLog(s, sel, script);
    FdStable(e, fds);
    PassStable(P, C, m, IdAt(m.writeq, 0), sel.writable * Fds(s, s.writeq), WRITE, script);
    assert P(v[k].s);
  }

  /** Whoever the write pass calls has asked to write, or is an impostor. */
  lemma {:induction false} WritePassCallsWriters(s: State, sel: Select, script: Script, kinds: Id -> set<Flag>, fds: Id -> int, k: nat)
    requires Inv(s) && Coupled(s, kinds) && Labelled(s, fds)
    requires FixedFrom(script, |s.h.log|, kinds) && DescribesFrom(script, |s.h.log|, fds)
    requires k < |WritePass(s, sel, script).visits| && WritePass(s, sel, script).visits[k].called
    ensures var y := WritePass(s, sel, script).visits[k].e;
      WRITE in kinds(y) || exists x, w :: Impostor(kinds, fds, x, y, w)
  {
    var m, y := ReadPass(s, sel, script).s, WritePass(s, sel, script).visits[k].e;
    WriteVisits(s, sel, script, kinds, k);
    ReadCoupled(s, sel, script, kinds);
    var x := m.writeq[0];
    assert x in m.writeq;
    if WRITE !in kinds(y) {
      WriteVisitFd(s, sel, script, fds, k);
      var w := WriteCalledReady(s, sel, script, k);
      assert Queued(s, w) && WRITE in kinds(w);
      SecondVisit(s, sel, script, kinds, k);
      assert Impostor(kinds, fds, x, y, w);
    }
  }

  /** The write pass gets beyond the first writer only if that one reads too. */
  lemma {:induction false} SecondVisit(s: State, sel: Select, script: Script, kinds: Id -> set<Flag>, k: nat)
    requires Inv(s) && Coupled(s, kinds) && FixedFrom(script, |s.h.log|, kinds) && k < |WritePass(s, sel, script).visits|
    ensures var m := ReadPass(s, sel, script).s;
      m.writeq != [] && (WritePass(s, sel, script).visits[k].e != m.writeq[0] ==> READ in kinds(m.writeq[0]))
  {
    WriteVisits(s, sel, script, kinds, k);
    assert WritePass(s, sel, script).visits[0].e == ReadPass(s, sel, script).s.writeq[0];
  }

  lemma {:induction false} WriteCalledReady(s: State, sel: Select, script: Script, k: nat) returns (x: Id)
    requires Inv(s) && k < |WritePass(s, sel, script).visits| && WritePass(s, sel, script).visits[k].called
    ensures var v := WritePass(s, sel, script).visits[k]; x in s.writeq && Ev(s, x).fd == Ev(v.s, v.e).fd
  {
    var m, w := ReadPass(s, sel, script).s, WritePass(s, sel, script);
    var ready, cur := sel.writable * Fds(s, s.writeq), IdAt(m.writeq, 0);
    PassStart(m);
    PassWalks(m, m, cur, ready, WRITE, script);
    WalkDrop(m, cur, ready, w.visits, w.s, k);
    assert w.visits[k..][0] == w.visits[k];
    assert Ev(w.visits[k].s, w.visits[k].e).fd in Fds(s, s.writeq);
    x :| x in s.writeq && Ev(s, x).fd == Ev(w.visits[k].s, w.visits[k].e).fd;
  }

  lemma {:induction false} RunLabelled(acts: seq<Action>, script: Script, fds: Id -> int)
    requires Settled(START) && DescribesFrom(script, 0, fds)
    requires forall a :: a in acts && a.Outside? ==> Describes(a.c, fds)
    ensures Labelled(Run(START, acts, script), fds)
  {
    var fit := (x: Id, fd: int) => fd == fds(x);
    forall k: nat, c | c in script(k) ensures Marks(c, fit) {
      assert Describes(c, fds);
    }
    RunMarked(acts, script, fit);
  }

  /**
   Over every run of a client that keeps to its interests and descriptors: without an
   impostor, whoever the write pass calls has asked to write.
   */
  lemma {:induction false} RunCallsWriters(acts: seq<Action>, sel: Select, script: Script, kinds: Id -> set<Flag>, fds: Id -> int, k: nat)
    requires Settled(START) && FixedFrom(script, 0, kinds) && DescribesFrom(script, 0, fds)
    requires forall a :: a in acts && a.Outside? ==> Fixed(a.c, kinds) && Describes(a.c, fds)
    requires forall x, y, w :: !Impostor(kinds, fds, x, y, w)
    requires var w := WritePass(Run(START, acts, script), sel, script).visits; k < |w| && w[k].called
    ensures WRITE in kinds(WritePass(Run(START, acts, script), sel, script).visits[k].e)
  {
    RunCoupled(acts, script, kinds);
    RunLabelled(acts, script, fds);
    WritePassCallsWriters(Run(START, acts, script), sel, script, kinds, fds, k);
  }
}
