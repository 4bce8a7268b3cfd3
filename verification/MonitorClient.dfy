/** The producers and consumers of the test program, on the monitor. */
module MonitorClient {
  import opened Monitor

  /** A value, with the producer that put it; nobody looks at the producer. */
  datatype Item = Item(owner: Tid, n: nat)

  /** Where a thread is in `input` or `output`. */
  datatype Role =
    | Sending(next: nat)   // producer: the next value to put
    | Sent                 // producer: exited
    | Check                // consumer: about to call size
    | Measuring            // consumer: in size
    | Decide(n: nat)       // consumer: size returned n
    | Taking               // consumer: in take
    | Left                 // consumer: exited

  datatype Client = Client(m: State<Item>, role: map<Tid, Role>, top: nat)

  /** A thread's own step outside the library, or a step inside it. */
  datatype Move = Begin(t: Tid) | Inner(a: Action<Item>)

  predicate Producer(r: Role) {
    r.Sending? || r.Sent?
  }

  predicate CanBegin(c: Client, t: Tid) {
    t in c.role && t in c.m.pc && c.m.pc[t].Idle? && (c.role[t].Sending? || c.role[t].Check? || c.role[t].Decide?)
  }

  predicate Can(c: Client, mv: Move) {
    match mv
    case Begin(t) => CanBegin(c, t)
    case Inner(a) => Enabled(c.m, a) && a.t in c.role && (Progress(a) || a.Wake?)
  }

  /** What a thread knows when a call returns. */
  function Returned(p: Pc<Item>, r: Role): Role {
    match p
    case SizeDone(n) => Decide(n)
    case TakeDone(_) => Check
    case _ => r
  }

  function Step(c: Client, mv: Move): Client
    requires Can(c, mv)
  {
    match mv
    case Begin(t) => (
      match c.role[t]
      case Sending(n) =>
        if n < c.top
        then Client(Next(c.m, StartPut(t, Item(t, n))), c.role[t := Sending(n + 1)], c.top)
        else c.(role := c.role[t := Sent])
      case Decide(n) =>
        if n == 0 then c.(role := c.role[t := Left])
        else Client(Next(c.m, StartTake(t)), c.role[t := Taking], c.top)
      case _ => Client(Next(c.m, StartSize(t)), c.role[t := Measuring], c.top)
    )
    case Inner(a) =>
      var r := c.role[a.t];
      Client(Next(c.m, a), c.role[a.t := if a.Unlock? then Returned(c.m.pc[a.t], r) else r], c.top)
  }

  /** Any number of producers, and at least one consumer; values start at 1. */
  ghost predicate Start(c: Client) {
    && Init(c.m) && c.role.Keys == c.m.pc.Keys && c.top >= 1
    && (forall t :: t in c.role ==> c.role[t] == Sending(1) || c.role[t] == Check)
    && (exists t :: t in c.role && c.role[t] == Check)
  }

  ghost predicate Legal(c: Client, mvs: seq<Move>)
    decreases |mvs|
  {
    mvs == [] || (Can(c, mvs[0]) && Legal(Step(c, mvs[0]), mvs[1..]))
  }

  ghost function Run(c: Client, mvs: seq<Move>): Client
    requires Legal(c, mvs)
    decreases |mvs|
  {
    if mvs == [] then c else Run(Step(c, mvs[0]), mvs[1..])
  }

  // ----- what every step keeps -------------------------------------------------------

  /** The library state fits the program's. */
  predicate Fits(p: Pc<Item>, r: Role) {
    match r
    case Sending(_) => p.Idle? || p.PutWait? || p.PutLocked? || p.PutPushed? || p.PutSignalled?
    case Measuring => p.SizeWait? || p.SizeLocked? || p.SizeDone?
    case Taking => p.TakeWait? || p.TakeTest? || p.TakeReady? || p.TakeDone? || p.Parked? || p.Woken?
    case _ => p.Idle?
  }

  ghost predicate Consistent(c: Client) {
    c.role.Keys == c.m.pc.Keys && forall t :: t in c.role ==> Fits(c.m.pc[t], c.role[t])
  }

  /** On the way to learn that the queue is empty, if it stays so. */
  predicate Heading(p: Pc<Item>, r: Role) {
    || r.Check? || r == Decide(0)
    || (r.Measuring? && (p.SizeWait? || p.SizeLocked? || p == SizeDone(0)))
    || (r.Taking? && p.TakeDone?)
  }

  /** Someone has left, or there is a value, or someone is on the way to leaving. */
  ghost predicate SomeoneLeaves(c: Client) {
    || c.m.queue != []
    || exists t :: t in c.role && t in c.m.pc && (c.role[t].Left? || Heading(c.m.pc[t], c.role[t]))
  }

  /** The values of one producer in a sequence. */
  function From(q: seq<Item>, t: Tid): seq<nat> {
    if q == [] then [] else
    var n := |q| - 1;
    if q[n].owner == t then From(q[..n], t) + [q[n].n] else From(q[..n], t)
  }

  /** 1, 2, ..., k - 1. */
  function Upto(k: nat): (r: seq<nat>)
    ensures |r| == if k == 0 then 0 else k - 1
    ensures forall i :: 0 <= i < |r| ==> r[i] == i + 1
  {
    if k <= 1 then [] else Upto(k - 1) + [k - 1]
  }

  /** How far a producer's pushes have come. */
  function Pushed(p: Pc<Item>, r: Role, top: nat): nat {
    match r
    case Sending(n) => if (p.PutWait? || p.PutLocked?) && n > 0 then n - 1 else n
    case _ => top
  }

  /** A producer has pushed 1, 2, ... in order, and holds the next value if it is in put. */
  ghost predicate Sequence(pushed: seq<Item>, p: Pc<Item>, r: Role, top: nat, t: Tid) {
    && From(pushed, t) == Upto(Pushed(p, r, top))
    && (r.Sending? ==> 1 <= r.next <= top)
    && (r.Sending? && p.PutWait? ==> r.next > 1 && p.v == Item(t, r.next - 1))
    && (r.Sending? && p.PutLocked? ==> r.next > 1 && p.v == Item(t, r.next - 1))
  }

  ghost predicate InSequence(c: Client, t: Tid)
    requires t in c.role && t in c.m.pc
  {
    Sequence(c.m.pushed, c.m.pc[t], c.role[t], c.top, t)
  }

  ghost predicate AllInSequence(c: Client) {
    forall t :: t in c.role && t in c.m.pc && Producer(c.role[t]) ==> InSequence(c, t)
  }

  ghost predicate HasConsumer(c: Client) {
    exists t :: t in c.role && !Producer(c.role[t])
  }

  ghost predicate ClientInv(c: Client) {
    Inv(c.m) && Consistent(c) && HasConsumer(c) && SomeoneLeaves(c) && AllInSequence(c)
  }

  lemma StartClientInv(c: Client)
    requires Start(c)
    ensures ClientInv(c)
  {
    InitInv(c.m);
    assert Upto(1) == [];
  }

  lemma StepMonitorInv(c: Client, mv: Move)
    requires Inv(c.m) && Can(c, mv)
    ensures Inv(Step(c, mv).m)
  {
    match mv {
      case Begin(t) =>
        match c.role[t] {
          case Sending(n) => if n < c.top { NextInv(c.m, StartPut(t, Item(t, n))); }
          case Decide(n) => if n != 0 { NextInv(c.m, StartTake(t)); }
          case _ => NextInv(c.m, StartSize(t));
        }
      case Inner(a) => NextInv(c.m, a);
    }
  }

  lemma BeginConsistent(c: Client, t: Tid)
    requires Consistent(c) && CanBegin(c, t)
    ensures Consistent(Step(c, Begin(t)))
  {
    var c' := Step(c, Begin(t));
    forall u | u in c'.role ensures Fits(c'.m.pc[u], c'.role[u]) {
      assert Fits(c.m.pc[u], c.role[u]);
    }
  }

  /** Where a step inside the library leaves each thread. */
  lemma InnerAt(c: Client, a: Action<Item>, u: Tid)
    requires Can(c, Inner(a)) && u in c.m.pc && u in c.role
    ensures var c' := Step(c, Inner(a));
      && u in c'.m.pc && u in c'.role
      && (u != a.t ==> c'.role[u] == c.role[u] && (c'.m.pc[u] == c.m.pc[u] || (c.m.pc[u].Parked? && c'.m.pc[u].Woken?)))
  {}

  lemma InnerConsistent(c: Client, a: Action<Item>)
    requires Consistent(c) && Can(c, Inner(a))
    ensures Consistent(Step(c, Inner(a)))
  {
    var c' := Step(c, Inner(a));
    assert c'.m.pc.Keys == c.m.pc.Keys;
    forall u | u in c'.role ensures Fits(c'.m.pc[u], c'.role[u]) {
      assert Fits(c.m.pc[u], c.role[u]);
      InnerAt(c, a, u);
    }
  }

  lemma StepKeepsConsumer(c: Client, mv: Move)
    requires Consistent(c) && HasConsumer(c) && Can(c, mv)
    ensures HasConsumer(Step(c, mv))
  {
    var t :| t in c.role && !Producer(c.role[t]);
    assert Fits(c.m.pc[t], c.role[t]);
    assert t in Step(c, mv).role && !Producer(Step(c, mv).role[t]);
  }

  lemma BeginLeaves(c: Client, t: Tid)
    requires ClientInv(c) && CanBegin(c, t)
    ensures SomeoneLeaves(Step(c, Begin(t)))
  {
    var c' := Step(c, Begin(t));
    if c.m.queue == [] {
      var u :| u in c.role && u in c.m.pc && (c.role[u].Left? || Heading(c.m.pc[u], c.role[u]));
      assert u in c'.role && u in c'.m.pc;
      assert c'.role[u].Left? || Heading(c'.m.pc[u], c'.role[u]);
    }
  }

  lemma InnerLeaves(c: Client, a: Action<Item>)
    requires ClientInv(c) && Can(c, Inner(a))
    ensures SomeoneLeaves(Step(c, Inner(a)))
  {
    var c' := Step(c, Inner(a));
    if c.m.queue == [] {
      var u :| u in c.role && u in c.m.pc && (c.role[u].Left? || Heading(c.m.pc[u], c.role[u]));
      assert u in c'.role && u in c'.m.pc;
      if c'.m.queue == [] {
        assert c'.role[u].Left? || Heading(c'.m.pc[u], c'.role[u]);
      }
    } else if c'.m.queue == [] {
      assert a.Pop?;
      assert Heading(c'.m.pc[a.t], c'.role[a.t]);
    }
  }

  // ----- each producer's values in order ---------------------------------------------

  lemma {:induction false} FromSnoc(q: seq<Item>, x: Item, t: Tid)
    ensures From(q + [x], t) == if x.owner == t then From(q, t) + [x.n] else From(q, t)
  {
    assert (q + [x])[..|q|] == q;
  }

  /** Where the start of a call leaves each thread. */
  lemma BeginAt(c: Client, t: Tid, u: Tid)
    requires CanBegin(c, t) && u in c.role && u in c.m.pc
    ensures var d := Step(c, Begin(t));
      && u in d.role && u in d.m.pc && d.m.pushed == c.m.pushed && d.top == c.top
      && (u != t ==> d.role[u] == c.role[u] && d.m.pc[u] == c.m.pc[u])
      && (u == t && !c.role[t].Sending? ==> !Producer(d.role[t]))
      && (u == t && c.role[t].Sending? ==>
           var n := c.role[t].next;
           if n < c.top then d.role[t] == Sending(n + 1) && d.m.pc[t] == PutWait(Item(t, n))
           else d.role[t] == Sent && d.m.pc[t] == c.m.pc[t])
  {}

  lemma BeginInSequence(c: Client, t: Tid, u: Tid)
    requires ClientInv(c) && CanBegin(c, t) && u in c.role && u in c.m.pc
    requires Producer(Step(c, Begin(t)).role[u])
    ensures InSequence(Step(c, Begin(t)), u)
  {
    BeginAt(c, t, u);
    if u != t || c.role[t].Sending? {
      assert InSequence(c, u);
    }
  }

  /** Where a push leaves each thread. */
  lemma PushAt(c: Client, t: Tid, u: Tid)
    requires Can(c, Inner(Push(t))) && u in c.role && u in c.m.pc
    ensures var d := Step(c, Inner(Push(t)));
      && u in d.role && u in d.m.pc && d.m.pushed == c.m.pushed + [c.m.pc[t].v] && d.top == c.top
      && d.role[u] == c.role[u] && d.m.pc[u] == if u == t then PutPushed else c.m.pc[u]
  {}

  /** The pushing producer itself. */
  lemma {:induction false} OwnPush(pushed: seq<Item>, p: Pc<Item>, r: Role, top: nat, t: Tid)
    requires Sequence(pushed, p, r, top, t) && p.PutLocked? && r.Sending?
    ensures Sequence(pushed + [p.v], PutPushed, r, top, t)
  {
    var n := r.next - 1;
    FromSnoc(pushed, Item(t, n), t);
    assert Upto(n + 1) == Upto(n) + [n];
  }

  /** A push leaves the other producers where they are. */
  lemma {:induction false} OtherPush(pushed: seq<Item>, x: Item, p: Pc<Item>, r: Role, top: nat, u: Tid)
    requires Sequence(pushed, p, r, top, u) && x.owner != u
    ensures Sequence(pushed + [x], p, r, top, u)
  {
    FromSnoc(pushed, x, u);
  }

  lemma PushInSequence(c: Client, t: Tid, u: Tid)
    requires ClientInv(c) && Can(c, Inner(Push(t))) && u in c.role && u in c.m.pc && Producer(c.role[u])
    ensures InSequence(Step(c, Inner(Push(t))), u)
  {
    assert Fits(c.m.pc[t], c.role[t]) && InSequence(c, t) && InSequence(c, u);
    PushAt(c, t, u);
    if u == t {
      OwnPush(c.m.pushed, c.m.pc[t], c.role[t], c.top, t);
    } else {
      OtherPush(c.m.pushed, c.m.pc[t].v, c.m.pc[u], c.role[u], c.top, u);
    }
  }

  lemma InnerInSequence(c: Client, a: Action<Item>, u: Tid)
    requires ClientInv(c) && Can(c, Inner(a)) && u in c.role && u in c.m.pc
    requires Producer(Step(c, Inner(a)).role[u])
    ensures u in Step(c, Inner(a)).m.pc && InSequence(Step(c, Inner(a)), u)
  {
    assert Fits(c.m.pc[u], c.role[u]);
    InnerAt(c, a, u);
    if a.Push? {
      PushInSequence(c, a.t, u);
    } else {
      assert InSequence(c, u);
    }
  }

  lemma StepClientInv(c: Client, mv: Move)
    requires ClientInv(c) && Can(c, mv)
    ensures ClientInv(Step(c, mv))
  {
    StepMonitorInv(c, mv);
    StepKeepsConsumer(c, mv);
    var c' := Step(c, mv);
    match mv {
      case Begin(t) =>
        BeginConsistent(c, t);
        BeginLeaves(c, t);
        forall u | u in c'.role && u in c'.m.pc && Producer(c'.role[u]) ensures InSequence(c', u) {
          BeginInSequence(c, t, u);
        }
      case Inner(a) =>
        InnerConsistent(c, a);
        InnerLeaves(c, a);
        forall u | u in c'.role && u in c'.m.pc && Producer(c'.role[u]) ensures InSequence(c', u) {
          InnerInSequence(c, a, u);
        }
    }
  }

  lemma {:induction false} RunClientInv(c: Client, mvs: seq<Move>)
    requires ClientInv(c) && Legal(c, mvs)
    ensures ClientInv(Run(c, mvs))
    decreases |mvs|
  {
    if mvs != [] {
      StepClientInv(c, mvs[0]);
      RunClientInv(Step(c, mvs[0]), mvs[1..]);
    }
  }

  // ----- how the program ends --------------------------------------------------------

  /** Nobody can go on, short of a spurious wake-up. */
  ghost predicate Over(c: Client) {
    (forall t :: !CanBegin(c, t)) && Stuck(c.m)
  }

  /**
   However the threads are interleaved, when nobody can go on every producer has put all
   its values and exited, every consumer has exited or is parked, and at least one has
   exited.  If one is parked for ever, the queue is empty, and every value of every
   producer has been taken, in order.
   */
  lemma {:induction false} HowItEnds(c: Client, mvs: seq<Move>)
    requires Start(c) && Legal(c, mvs) && Over(Run(c, mvs))
    ensures var e := Run(c, mvs);
      && (forall t :: t in e.role ==> t in e.m.pc)
      && (forall t :: t in e.role && Producer(e.role[t]) ==> e.role[t].Sent? && From(e.m.pushed, t) == Upto(e.top))
      && (forall t :: t in e.role && !Producer(e.role[t]) ==> e.role[t].Left? || e.m.pc[t].Parked?)
      && (exists t :: t in e.role && e.role[t].Left?)
      && ((exists t :: t in e.role && e.m.pc[t].Parked?) ==>
            e.m.queue == [] && forall t :: t in e.role && Producer(e.role[t]) ==> From(e.m.popped, t) == Upto(e.top))
  {
    StartClientInv(c);
    RunClientInv(c, mvs);
    var e := Run(c, mvs);
    StuckMeansEmpty(e.m);
    forall t | t in e.role
      ensures if Producer(e.role[t]) then e.role[t].Sent? else e.role[t].Left? || e.m.pc[t].Parked?
    {
      EndsAt(e, t);
    }
    SomeoneLeft(e);
    if t :| t in e.role && e.m.pc[t].Parked? {
      assert e.m.popped + e.m.queue == e.m.popped;
    }
  }

  lemma EndsAt(c: Client, t: Tid)
    requires ClientInv(c) && Over(c) && t in c.role
    requires forall u :: u in c.m.pc ==> c.m.pc[u].Idle? || c.m.pc[u].Parked?
    ensures t in c.m.pc
    ensures if Producer(c.role[t]) then c.role[t].Sent? && InSequence(c, t) else c.role[t].Left? || c.m.pc[t].Parked?
  {
    assert Fits(c.m.pc[t], c.role[t]) && !CanBegin(c, t);
  }

  /** Not all consumers are parked: the one that emptied the queue went on to find it empty. */
  lemma SomeoneLeft(c: Client)
    requires ClientInv(c) && Over(c)
    requires forall u :: u in c.m.pc ==> c.m.pc[u].Idle? || c.m.pc[u].Parked?
    requires (exists u :: u in c.m.pc && c.m.pc[u].Parked?) ==> c.m.queue == []
    ensures exists t :: t in c.role && c.role[t].Left?
  {
    var u :| u in c.role && !Producer(c.role[u]);
    EndsAt(c, u);
    if !c.role[u].Left? {
      var h :| h in c.role && h in c.m.pc && (c.role[h].Left? || Heading(c.m.pc[h], c.role[h]));
      EndsAt(c, h);
    }
  }
}
