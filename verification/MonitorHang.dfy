/** When the test program can hang: exactly with two consumers and a value to put. */
module MonitorHang {
  import opened Options
  import opened Monitor
  import opened MonitorClient

  /** The moves lead to a state in which nobody can go on, with a consumer parked for ever. */
  ghost predicate Hangs(c: Client, mvs: seq<Move>) {
    && MonitorClient.Legal(c, mvs) && Over(MonitorClient.Run(c, mvs))
    && var e := MonitorClient.Run(c, mvs); exists t :: t in e.m.pc && e.m.pc[t].Parked?
  }

  ghost predicate Consumer(c: Client, t: Tid) {
    t in c.role && !Producer(c.role[t])
  }

  // ----- programs that cannot hang ---------------------------------------------------

  lemma StepKeepsSides(c: Client, mv: Move)
    requires Consistent(c) && Can(c, mv)
    ensures forall t :: Consumer(Step(c, mv), t) <==> Consumer(c, t)
  {
    forall t ensures Consumer(Step(c, mv), t) <==> Consumer(c, t) {
      if t in c.role {
        assert Fits(c.m.pc[t], c.role[t]);
      }
    }
  }

  lemma {:induction false} RunKeepsSides(c: Client, mvs: seq<Move>, t: Tid)
    requires ClientInv(c) && MonitorClient.Legal(c, mvs)
    ensures Consumer(MonitorClient.Run(c, mvs), t) <==> Consumer(c, t)
    decreases |mvs|
  {
    if mvs != [] {
      StepClientInv(c, mvs[0]);
      StepKeepsSides(c, mvs[0]);
      RunKeepsSides(Step(c, mvs[0]), mvs[1..], t);
    }
  }

  /** A single consumer always exits. */
  lemma {:induction false} OneConsumerExits(c: Client, mvs: seq<Move>)
    requires Start(c) && forall t, u :: Consumer(c, t) && Consumer(c, u) ==> t == u
    ensures !Hangs(c, mvs)
  {
    if Hangs(c, mvs) {
      var e := MonitorClient.Run(c, mvs);
      HowItEnds(c, mvs);
      StartClientInv(c);
      RunClientInv(c, mvs);
      forall t, u | Consumer(e, t) && Consumer(e, u) ensures t == u {
        RunKeepsSides(c, mvs, t);
        RunKeepsSides(c, mvs, u);
      }
      OnlyConsumerLeft(e);
    }
  }

  lemma OnlyConsumerLeft(c: Client)
    requires Consistent(c) && (exists u :: u in c.role && c.role[u].Left?)
    requires forall t, u :: Consumer(c, t) && Consumer(c, u) ==> t == u
    ensures forall t :: t in c.m.pc ==> !c.m.pc[t].Parked?
  {
    var u :| u in c.role && c.role[u].Left?;
    forall t | t in c.m.pc ensures !c.m.pc[t].Parked? {
      assert Fits(c.m.pc[t], c.role[t]) && Fits(c.m.pc[u], c.role[u]);
      assert Consumer(c, u) && (t == u || !Consumer(c, t));
    }
  }

  /** Nothing has been put, nothing will be, and nobody has seen a value. */
  ghost predicate Barren(c: Client) {
    && c.m.queue == []
    && forall t :: t in c.role && t in c.m.pc ==> BarrenAt(c.m.pc[t], c.role[t], c.top)
  }

  ghost predicate BarrenAt(p: Pc<Item>, r: Role, top: nat) {
    && (r.Sending? ==> p.Idle? && r.next >= top)
    && (r.Decide? ==> r.n == 0) && !r.Taking?
    && (p.SizeDone? ==> p.n == 0)
  }

  lemma StepBarren(c: Client, mv: Move)
    requires Consistent(c) && Barren(c) && Can(c, mv)
    ensures Barren(Step(c, mv))
  {
    var d := Step(c, mv);
    if mv.Inner? {
      assert Fits(c.m.pc[mv.a.t], c.role[mv.a.t]) && BarrenAt(c.m.pc[mv.a.t], c.role[mv.a.t], c.top);
    }
    forall t | t in d.role && t in d.m.pc ensures BarrenAt(d.m.pc[t], d.role[t], d.top) {
      assert Fits(c.m.pc[t], c.role[t]) && BarrenAt(c.m.pc[t], c.role[t], c.top);
    }
  }

  lemma {:induction false} RunBarren(c: Client, mvs: seq<Move>)
    requires ClientInv(c) && Barren(c) && MonitorClient.Legal(c, mvs)
    ensures Barren(MonitorClient.Run(c, mvs)) && ClientInv(MonitorClient.Run(c, mvs))
    decreases |mvs|
  {
    if mvs != [] {
      StepClientInv(c, mvs[0]);
      StepBarren(c, mvs[0]);
      RunBarren(Step(c, mvs[0]), mvs[1..]);
    }
  }

  lemma BarrenAwake(c: Client)
    requires Consistent(c) && Barren(c)
    ensures forall t :: t in c.m.pc ==> !c.m.pc[t].Parked?
  {
    forall t | t in c.m.pc ensures !c.m.pc[t].Parked? {
      assert Fits(c.m.pc[t], c.role[t]) && BarrenAt(c.m.pc[t], c.role[t], c.top);
    }
  }

  /** With nothing to put, every consumer exits. */
  lemma {:induction false} NothingPutExits(c: Client, mvs: seq<Move>)
    requires Start(c) && (c.top < 2 || forall t :: t in c.role ==> Consumer(c, t))
    ensures !Hangs(c, mvs)
  {
    if Hangs(c, mvs) {
      StartClientInv(c);
      assert Barren(c);
      RunBarren(c, mvs);
      BarrenAwake(MonitorClient.Run(c, mvs));
    }
  }

  // ----- a run that hangs ------------------------------------------------------------

  ghost predicate Leads(c: Client, mvs: seq<Move>, d: Client) {
    MonitorClient.Legal(c, mvs) && MonitorClient.Run(c, mvs) == d
  }

  lemma {:induction false} LeadsOn(c: Client, mvs: seq<Move>, d: Client, more: seq<Move>, e: Client)
    requires Leads(c, mvs, d) && Leads(d, more, e)
    ensures Leads(c, mvs + more, e)
    decreases |mvs|
  {
    if mvs == [] {
      assert mvs + more == more;
    } else {
      assert (mvs + more)[0] == mvs[0] && (mvs + more)[1..] == mvs[1..] + more;
      LeadsOn(Step(c, mvs[0]), mvs[1..], d, more, e);
    }
  }

  lemma {:induction false} OneMove(c: Client, mvs: seq<Move>, d: Client, mv: Move)
    requires Leads(c, mvs, d) && Can(d, mv)
    ensures Leads(c, mvs + [mv], Step(d, mv))
  {
    assert [mv][1..] == [];
    assert Leads(Step(d, mv), [], Step(d, mv));
    assert MonitorClient.Run(d, [mv]) == MonitorClient.Run(Step(d, mv), [mv][1..]);
    LeadsOn(c, mvs, d, [mv], Step(d, mv));
  }

  /** Everybody is outside the library. */
  ghost predicate Calm(c: Client) {
    && c.role.Keys == c.m.pc.Keys && c.m.mutex == None
    && (forall t :: t in c.m.pc ==> c.m.pc[t] == Idle)
  }

  /** Only the role of `t` and the queue have changed. */
  ghost predicate Becomes(c: Client, d: Client, t: Tid, r: Role, q: seq<Item>) {
    d.role == c.role[t := r] && d.m.queue == q && d.top == c.top && d.m.pc.Keys == c.m.pc.Keys
  }

  /** A whole `put`. */
  lemma PutOne(c: Client, t: Tid) returns (mvs: seq<Move>, d: Client)
    requires Calm(c) && t in c.role && c.role[t].Sending? && c.role[t].next < c.top
    ensures Leads(c, mvs, d) && Calm(d)
    ensures Becomes(c, d, t, Sending(c.role[t].next + 1), c.m.queue + [Item(t, c.role[t].next)])
  {
    assert Leads(c, [], c);
    var c1 := Step(c, Begin(t));
    OneMove(c, [], c, Begin(t));
    mvs := [] + [Begin(t)];
    var c2 := Step(c1, Inner(Lock(t)));
    OneMove(c, mvs, c1, Inner(Lock(t)));
    mvs := mvs + [Inner(Lock(t))];
    var c3 := Step(c2, Inner(Push(t)));
    OneMove(c, mvs, c2, Inner(Push(t)));
    mvs := mvs + [Inner(Push(t))];
    assert Parkeds(c3.m) == {};
    var c4 := Step(c3, Inner(Signal(t, {})));
    OneMove(c, mvs, c3, Inner(Signal(t, {})));
    mvs := mvs + [Inner(Signal(t, {}))];
    d := Step(c4, Inner(Unlock(t)));
    OneMove(c, mvs, c4, Inner(Unlock(t)));
    mvs := mvs + [Inner(Unlock(t))];
  }

  /** A whole `size`. */
  lemma SizeOne(c: Client, t: Tid) returns (mvs: seq<Move>, d: Client)
    requires Calm(c) && t in c.role && c.role[t] == Check
    ensures Leads(c, mvs, d) && Calm(d) && Becomes(c, d, t, Decide(|c.m.queue|), c.m.queue)
  {
    assert Leads(c, [], c);
    var c1 := Step(c, Begin(t));
    OneMove(c, [], c, Begin(t));
    mvs := [] + [Begin(t)];
    var c2 := Step(c1, Inner(Lock(t)));
    OneMove(c, mvs, c1, Inner(Lock(t)));
    mvs := mvs + [Inner(Lock(t))];
    var c3 := Step(c2, Inner(ReadSize(t)));
    OneMove(c, mvs, c2, Inner(ReadSize(t)));
    mvs := mvs + [Inner(ReadSize(t))];
    d := Step(c3, Inner(Unlock(t)));
    OneMove(c, mvs, c3, Inner(Unlock(t)));
    mvs := mvs + [Inner(Unlock(t))];
  }

  /** The start of a `take`, up to the loop test. */
  lemma StartTaking(c: Client, t: Tid) returns (mvs: seq<Move>, d: Client)
    requires Calm(c) && t in c.role && c.role[t].Decide? && c.role[t].n > 0
    ensures Leads(c, mvs, d) && Becomes(c, d, t, Taking, c.m.queue)
    ensures d.m.pc == c.m.pc[t := TakeTest(false)] && d.m.mutex == Some(t)
  {
    assert Leads(c, [], c);
    var c1 := Step(c, Begin(t));
    OneMove(c, [], c, Begin(t));
    mvs := [] + [Begin(t)];
    d := Step(c1, Inner(Lock(t)));
    OneMove(c, mvs, c1, Inner(Lock(t)));
    mvs := mvs + [Inner(Lock(t))];
  }

  /** A whole `take` that finds a value. */
  lemma TakeOne(c: Client, t: Tid) returns (mvs: seq<Move>, d: Client)
    requires Calm(c) && t in c.role && c.role[t].Decide? && c.role[t].n > 0 && c.m.queue != []
    ensures Leads(c, mvs, d) && Calm(d) && Becomes(c, d, t, Check, c.m.queue[1..])
  {
    var c1;
    mvs, c1 := StartTaking(c, t);
    var c2 := Step(c1, Inner(Test(t)));
    OneMove(c, mvs, c1, Inner(Test(t)));
    mvs := mvs + [Inner(Test(t))];
    var c3 := Step(c2, Inner(Pop(t)));
    OneMove(c, mvs, c2, Inner(Pop(t)));
    mvs := mvs + [Inner(Pop(t))];
    d := Step(c3, Inner(Unlock(t)));
    OneMove(c, mvs, c3, Inner(Unlock(t)));
    mvs := mvs + [Inner(Unlock(t))];
  }

  /** A `take` that finds the queue empty parks. */
  lemma ParkOne(c: Client, t: Tid) returns (mvs: seq<Move>, d: Client)
    requires Calm(c) && t in c.role && c.role[t].Decide? && c.role[t].n > 0 && c.m.queue == []
    ensures Leads(c, mvs, d) && Becomes(c, d, t, Taking, [])
    ensures d.m.pc == c.m.pc[t := Parked] && d.m.mutex == None
  {
    var c1;
    mvs, c1 := StartTaking(c, t);
    d := Step(c1, Inner(Test(t)));
    OneMove(c, mvs, c1, Inner(Test(t)));
    mvs := mvs + [Inner(Test(t))];
  }

  /** A step outside the library that only changes the role. */
  lemma ExitOne(c: Client, t: Tid) returns (mvs: seq<Move>, d: Client)
    requires Calm(c) && t in c.role
    requires c.role[t] == Decide(0) || (c.role[t].Sending? && c.role[t].next >= c.top)
    ensures Leads(c, mvs, d) && Calm(d)
    ensures Becomes(c, d, t, if c.role[t].Decide? then Left else Sent, c.m.queue)
  {
    assert Leads(c, [], c);
    mvs, d := [] + [Begin(t)], Step(c, Begin(t));
    OneMove(c, [], c, Begin(t));
  }

  /** A producer puts all that it has left, and exits. */
  lemma {:induction false} FinishProducer(c: Client, t: Tid) returns (mvs: seq<Move>, d: Client)
    requires Calm(c) && t in c.role && c.role[t].Sending?
    ensures Leads(c, mvs, d) && Calm(d) && Becomes(c, d, t, Sent, d.m.queue)
    ensures |d.m.queue| >= |c.m.queue| + Bit(c.role[t].next < c.top)
    decreases c.top - c.role[t].next
  {
    if c.role[t].next < c.top {
      var a, c1 := PutOne(c, t);
      var b;
      b, d := FinishProducer(c1, t);
      LeadsOn(c, a, c1, b, d);
      mvs := a + b;
    } else {
      mvs, d := ExitOne(c, t);
    }
  }

  /** The roles after the threads of `ts` have come to `r`. */
  ghost predicate Moved(c: Client, d: Client, ts: set<Tid>, r: Role) {
    && d.top == c.top && d.role.Keys == c.role.Keys
    && forall t :: t in c.role ==> d.role[t] == if t in ts then r else c.role[t]
  }

  lemma {:induction false} FinishProducers(c: Client, ts: set<Tid>) returns (mvs: seq<Move>, d: Client)
    requires Calm(c) && c.top >= 2 && forall t :: t in ts ==> t in c.role && c.role[t] == Sending(1)
    ensures Leads(c, mvs, d) && Calm(d) && Moved(c, d, ts, Sent)
    ensures |d.m.queue| >= |c.m.queue| + Bit(ts != {})
    decreases ts
  {
    if ts == {} {
      mvs, d := [], c;
    } else {
      var t :| t in ts;
      var a, c1 := FinishProducer(c, t);
      var b;
      b, d := FinishProducers(c1, ts - {t});
      LeadsOn(c, a, c1, b, d);
      mvs := a + b;
    }
  }

  /** One consumer takes all values but one. */
  lemma {:induction false} TakeAllButOne(c: Client, t: Tid) returns (mvs: seq<Move>, d: Client)
    requires Calm(c) && t in c.role && c.role[t] == Check && c.m.queue != []
    ensures Leads(c, mvs, d) && Calm(d) && Becomes(c, d, t, Check, d.m.queue) && |d.m.queue| == 1
    decreases |c.m.queue|
  {
    if |c.m.queue| == 1 {
      mvs, d := [], c;
    } else {
      var a, c1 := SizeOne(c, t);
      var b, c2 := TakeOne(c1, t);
      LeadsOn(c, a, c1, b, c2);
      var rest;
      rest, d := TakeAllButOne(c2, t);
      LeadsOn(c, a + b, c2, rest, d);
      mvs := a + b + rest;
    }
  }

  /** Consumers that find the queue empty exit. */
  lemma {:induction false} LeaveAll(c: Client, ts: set<Tid>) returns (mvs: seq<Move>, d: Client)
    requires Calm(c) && c.m.queue == [] && forall t :: t in ts ==> t in c.role && c.role[t] == Check
    ensures Leads(c, mvs, d) && Calm(d) && d.m.queue == [] && Moved(c, d, ts, Left)
    decreases ts
  {
    if ts == {} {
      mvs, d := [], c;
    } else {
      var t :| t in ts;
      var a, c1 := SizeOne(c, t);
      var b, c2 := ExitOne(c1, t);
      LeadsOn(c, a, c1, b, c2);
      var rest;
      rest, d := LeaveAll(c2, ts - {t});
      LeadsOn(c, a + b, c2, rest, d);
      mvs := a + b + rest;
    }
  }

  /** Two consumers see the last value, and one of them takes it. */
  lemma RaceForLast(c: Client, a: Tid, b: Tid) returns (mvs: seq<Move>, d: Client)
    requires Calm(c) && a in c.role && b in c.role && a != b && c.role[a] == c.role[b] == Check && |c.m.queue| == 1
    ensures Leads(c, mvs, d) && Calm(d) && d.m.queue == [] && Moved(c, d, {b}, Decide(1))
  {
    var m1, c1 := SizeOne(c, b);
    var m2, c2 := SizeOne(c1, a);
    LeadsOn(c, m1, c1, m2, c2);
    var m3;
    m3, d := TakeOne(c2, a);
    LeadsOn(c, m1 + m2, c2, m3, d);
    mvs := m1 + m2 + m3;
  }

  lemma ParkedIsOver(d: Client, b: Tid)
    requires d.role.Keys == d.m.pc.Keys && d.m.mutex == None && b in d.m.pc && d.m.pc[b].Parked?
    requires forall t :: t in d.m.pc && t != b ==> d.m.pc[t] == Idle
    requires forall t :: t in d.role ==> d.role[t].Sent? || d.role[t].Left? || d.role[t].Taking?
    ensures Over(d)
  {
    forall x: Action<Item> | Progress(x) ensures !Enabled(d.m, x) {
      assert x.t in d.m.pc ==> d.m.pc[x.t] == Idle || d.m.pc[x.t].Parked?;
    }
  }

  /** From the start to a point where the producers are done and one value is left. */
  lemma UntilLast(c: Client, a: Tid) returns (mvs: seq<Move>, d: Client)
    requires Start(c) && c.top >= 2 && Consumer(c, a) && exists p :: p in c.role && Producer(c.role[p])
    ensures Leads(c, mvs, d) && Calm(d) && |d.m.queue| == 1 && d.role.Keys == c.role.Keys
    ensures forall t :: t in c.role ==> d.role[t] == if Producer(c.role[t]) then Sent else Check
  {
    var ps := set t | t in c.role && Producer(c.role[t]);
    var m1, c1 := FinishProducers(c, ps);
    assert c1.role[a] == Check;
    var m2;
    m2, d := TakeAllButOne(c1, a);
    LeadsOn(c, m1, c1, m2, d);
    mvs := m1 + m2;
  }

  /** All consumers but one exit; that one has seen the last value, which another took. */
  lemma UntilLeft(c: Client, a: Tid, b: Tid) returns (mvs: seq<Move>, d: Client)
    requires Calm(c) && a in c.role && b in c.role && a != b && c.role[a] == c.role[b] == Check && |c.m.queue| == 1
    requires forall t :: t in c.role ==> c.role[t] == Sent || c.role[t] == Check
    ensures Leads(c, mvs, d) && Calm(d) && d.m.queue == [] && d.role.Keys == c.role.Keys && d.role[b] == Decide(1)
    ensures forall t :: t in c.role && t != b ==> d.role[t] == Sent || d.role[t] == Left
  {
    var m1, c1 := RaceForLast(c, a, b);
    var m2;
    m2, d := LeaveAll(c1, set t | t in c.role && c.role[t] == Check && t != b);
    LeadsOn(c, m1, c1, m2, d);
    mvs := m1 + m2;
  }

  /** The program can hang as soon as there are two consumers and a value to put. */
  lemma TwoConsumersHang(c: Client, a: Tid, b: Tid) returns (mvs: seq<Move>)
    requires Start(c) && c.top >= 2 && Consumer(c, a) && Consumer(c, b) && a != b
    requires exists p :: p in c.role && Producer(c.role[p])
    ensures Hangs(c, mvs)
  {
    var m1, c1 := UntilLast(c, a);
    var m2, c2 := UntilLeft(c1, a, b);
    LeadsOn(c, m1, c1, m2, c2);
    var m3, d := ParkOne(c2, b);
    LeadsOn(c, m1 + m2, c2, m3, d);
    mvs := m1 + m2 + m3;
    ParkedIsOver(d, b);
  }

  /** Exactly which programs can hang. */
  lemma HangsExactly(c: Client)
    requires Start(c)
    ensures (exists mvs :: Hangs(c, mvs)) <==>
      && c.top >= 2
      && (exists p :: p in c.role && Producer(c.role[p]))
      && (exists a, b :: Consumer(c, a) && Consumer(c, b) && a != b)
  {
    if c.top < 2 || !exists p :: p in c.role && Producer(c.role[p]) {
      forall mvs ensures !Hangs(c, mvs) {
        NothingPutExits(c, mvs);
      }
    } else if a, b :| Consumer(c, a) && Consumer(c, b) && a != b {
      var mvs := TwoConsumersHang(c, a, b);
    } else {
      forall mvs ensures !Hangs(c, mvs) {
        OneConsumerExits(c, mvs);
      }
    }
  }
}
