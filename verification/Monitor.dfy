/**
 The blocking queue as a monitor: any number of threads, interleaved at every step that
 another thread can observe.  A signal wakes at least one parked thread if there is one
 and may wake more, and a parked thread may also wake on its own.
 */
module Monitor {
  import opened Options

  type Tid = nat

  /** Where a thread is in `put`, `take` or `size`. */
  datatype Pc<+V> =
    | Idle
    | PutWait(v: V)            // wants the mutex
    | PutLocked(v: V)          // about to push
    | PutPushed                // about to signal
    | PutSignalled             // about to release
    | TakeWait                 // wants the mutex
    | TakeTest(woken: bool)    // at the loop test; `woken` after a wait
    | TakeReady(woken: bool)   // past the loop, about to pop
    | TakeDone(v: V)           // about to release and return
    | Parked                   // in pthread_cond_wait
    | Woken                    // woken, wants the mutex back
    | SizeWait                 // wants the mutex
    | SizeLocked               // about to read the size
    | SizeDone(n: nat)         // about to release and return

  datatype State<V> = State(
    pc: map<Tid, Pc<V>>,
    mutex: Option<Tid>,
    queue: seq<V>,
    pushed: seq<V>,            // every value pushed, in order
    popped: seq<V>)            // every value popped, in order

  datatype Action<V> =
    | StartPut(t: Tid, v: V) | StartTake(t: Tid) | StartSize(t: Tid)
    | Lock(t: Tid) | Unlock(t: Tid)
    | Push(t: Tid) | Signal(t: Tid, awake: set<Tid>)
    | Test(t: Tid) | Pop(t: Tid) | ReadSize(t: Tid)
    | Wake(t: Tid)

  /** Inside the guarded section. */
  predicate Holds<V>(p: Pc<V>) {
    p.PutLocked? || p.PutPushed? || p.PutSignalled? || p.TakeTest? || p.TakeReady? || p.TakeDone? ||
    p.SizeLocked? || p.SizeDone?
  }

  predicate Wants<V>(p: Pc<V>) {
    p.PutWait? || p.TakeWait? || p.Woken? || p.SizeWait?
  }

  /** Woken from a wait, and neither popped nor parked again since. */
  predicate Claims<V>(p: Pc<V>) {
    p.Woken? || (p.TakeTest? && p.woken) || (p.TakeReady? && p.woken)
  }

  function Parkeds<V>(s: State<V>): set<Tid> {
    set t | t in s.pc && s.pc[t].Parked?
  }

  function Claimants<V>(s: State<V>): set<Tid> {
    set t | t in s.pc && Claims(s.pc[t])
  }

  function Signallers<V>(s: State<V>): set<Tid> {
    set t | t in s.pc && s.pc[t].PutPushed?
  }

  predicate Enabled<V>(s: State<V>, a: Action<V>) {
    a.t in s.pc &&
    var p := s.pc[a.t];
    match a
    case StartPut(_, _) => p.Idle?
    case StartTake(_) => p.Idle?
    case StartSize(_) => p.Idle?
    case Lock(_) => Wants(p) && s.mutex.None?
    case Unlock(_) => p.PutSignalled? || p.TakeDone? || p.SizeDone?
    case Push(_) => p.PutLocked?
    case Signal(_, awake) => p.PutPushed? && awake <= Parkeds(s) && (Parkeds(s) != {} ==> awake != {})
    case Test(_) => p.TakeTest?
    case Pop(_) => p.TakeReady?
    case ReadSize(_) => p.SizeLocked?
    case Wake(_) => p.Parked?
  }

  function Locked<V>(p: Pc<V>): Pc<V>
    requires Wants(p)
  {
    match p
    case PutWait(v) => PutLocked(v)
    case TakeWait => TakeTest(false)
    case Woken => TakeTest(true)
    case SizeWait => SizeLocked
  }

  function At<V>(s: State<V>, t: Tid, p: Pc<V>): State<V> {
    s.(pc := s.pc[t := p])
  }

  function Awaken<V>(pc: map<Tid, Pc<V>>, awake: set<Tid>): map<Tid, Pc<V>> {
    map t | t in pc :: if t in awake then Woken else pc[t]
  }

  /** pop_front of an empty deque is undefined; the model would leave the queue as it is. */
  function Next<V>(s: State<V>, a: Action<V>): State<V>
    requires Enabled(s, a)
  {
    match a
    case StartPut(t, v) => At(s, t, PutWait(v))
    case StartTake(t) => At(s, t, TakeWait)
    case StartSize(t) => At(s, t, SizeWait)
    case Lock(t) => At(s, t, Locked(s.pc[t])).(mutex := Some(t))
    case Unlock(t) => At(s, t, Idle).(mutex := None)
    case Push(t) =>
      At(s, t, PutPushed).(queue := s.queue + [s.pc[t].v], pushed := s.pushed + [s.pc[t].v])
    case Signal(t, awake) => At(s.(pc := Awaken(s.pc, awake)), t, PutSignalled)
    case Test(t) =>
      if s.queue == [] then At(s, t, Parked).(mutex := None)
      else At(s, t, TakeReady(s.pc[t].woken))
    case Pop(t) =>
      if s.queue == [] then s
      else At(s, t, TakeDone(s.queue[0])).(queue := s.queue[1..], popped := s.popped + [s.queue[0]])
    case ReadSize(t) => At(s, t, SizeDone(|s.queue|))
    case Wake(t) => At(s, t, Woken)
  }

  ghost predicate Init<V>(s: State<V>) {
    (forall t :: t in s.pc ==> s.pc[t].Idle?) && s.mutex.None? && s.queue == s.pushed == s.popped == []
  }

  /** Every action is enabled when its turn comes. */
  ghost predicate Legal<V>(s: State<V>, acts: seq<Action<V>>)
    decreases |acts|
  {
    acts == [] || (Enabled(s, acts[0]) && Legal(Next(s, acts[0]), acts[1..]))
  }

  ghost function Run<V>(s: State<V>, acts: seq<Action<V>>): State<V>
    requires Legal(s, acts)
    decreases |acts|
  {
    if acts == [] then s else Run(Next(s, acts[0]), acts[1..])
  }

  // ----- what every step keeps -------------------------------------------------------

  /** Exactly the thread inside the guarded section owns the mutex. */
  ghost predicate Exclusive<V>(s: State<V>) {
    && (forall t :: t in s.pc ==> (Holds(s.pc[t]) <==> s.mutex == Some(t)))
    && (s.mutex.Some? ==> s.mutex.value in s.pc)
  }

  /** Values come out in the order they went in. */
  ghost predicate Fifo<V>(s: State<V>) {
    s.pushed == s.popped + s.queue
  }

  /** A thread about to pop finds a value. */
  ghost predicate Guarded<V>(s: State<V>) {
    forall t :: t in s.pc && s.pc[t].TakeReady? ==> s.queue != []
  }

  /** While someone is parked, every queued value has a woken consumer, or a signal on its way. */
  ghost predicate Accounted<V>(s: State<V>) {
    Parkeds(s) != {} ==> |s.queue| <= |Claimants(s)| + |Signallers(s)|
  }

  /** A thread about to return has the last value popped, or the length. */
  ghost predicate Reported<V>(s: State<V>) {
    forall t :: t in s.pc ==>
      && (s.pc[t].TakeDone? ==> s.popped != [] && s.pc[t].v == s.popped[|s.popped| - 1])
      && (s.pc[t].SizeDone? ==> s.pc[t].n == |s.queue|)
  }

  ghost predicate Inv<V>(s: State<V>) {
    Exclusive(s) && Fifo(s) && Guarded(s) && Accounted(s) && Reported(s)
  }

  lemma InitInv<V>(s: State<V>)
    requires Init(s)
    ensures Inv(s)
  {
    assert Parkeds(s) == {};
  }

  function Bit(b: bool): nat {
    if b then 1 else 0
  }

  lemma ToggleSize<T>(a: set<T>, t: T, b: bool)
    ensures |if b then a + {t} else a - {t}| == |a| - Bit(t in a) + Bit(b)
  {
    if t in a {
      assert a + {t} == a;
    } else {
      assert a - {t} == a;
    }
  }

  /** How the sets change when one thread moves. */
  lemma MoveSets<V>(s: State<V>, t: Tid, p: Pc<V>)
    requires t in s.pc
    ensures Claimants(At(s, t, p)) == if Claims(p) then Claimants(s) + {t} else Claimants(s) - {t}
    ensures Signallers(At(s, t, p)) == if p.PutPushed? then Signallers(s) + {t} else Signallers(s) - {t}
    ensures Parkeds(At(s, t, p)) == if p.Parked? then Parkeds(s) + {t} else Parkeds(s) - {t}
  {}

  /** How the counts change when one thread moves. */
  lemma MoveCounts<V>(s: State<V>, t: Tid, p: Pc<V>)
    requires t in s.pc
    ensures |Claimants(At(s, t, p))| == |Claimants(s)| - Bit(Claims(s.pc[t])) + Bit(Claims(p))
    ensures |Signallers(At(s, t, p))| == |Signallers(s)| - Bit(s.pc[t].PutPushed?) + Bit(p.PutPushed?)
    ensures Parkeds(At(s, t, p)) == if p.Parked? then Parkeds(s) + {t} else Parkeds(s) - {t}
  {
    MoveSets(s, t, p);
    ToggleSize(Claimants(s), t, Claims(p));
    ToggleSize(Signallers(s), t, p.PutPushed?);
  }

  /** A signal turns parked threads into claimants. */
  lemma SignalCounts<V>(s: State<V>, t: Tid, awake: set<Tid>)
    requires Enabled(s, Signal(t, awake))
    ensures var s' := Next(s, Signal(t, awake));
      && |Claimants(s')| == |Claimants(s)| + |awake|
      && |Signallers(s')| == |Signallers(s)| - 1
      && Parkeds(s') <= Parkeds(s)
  {
    var s' := Next(s, Signal(t, awake));
    assert t in Signallers(s);
    assert t !in awake;
    assert Claimants(s') == Claimants(s) + awake;
    assert Claimants(s) !! awake;
    assert Signallers(s') == Signallers(s) - {t};
  }

  lemma SignalInv<V>(s: State<V>, t: Tid, awake: set<Tid>)
    requires Inv(s) && Enabled(s, Signal(t, awake))
    ensures Inv(Next(s, Signal(t, awake)))
  {
    SignalCounts(s, t, awake);
    if Parkeds(s) != {} {
      NonEmpty(awake);
    }
  }

  lemma NonEmpty<T>(a: set<T>)
    requires a != {}
    ensures |a| >= 1
  {
    var x :| x in a;
    assert |a - {x}| == |a| - 1;
  }

  /** Only a push lengthens the queue, and it puts a signal on its way. */
  lemma MoveAccounted<V>(s: State<V>, a: Action<V>)
    requires Inv(s) && Enabled(s, a) && !a.Signal?
    ensures Accounted(Next(s, a))
  {
    var t := a.t;
    MoveCounts(s, t, Next(s, a).pc[t]);
    var m := At(s, t, Next(s, a).pc[t]);
    assert Next(s, a).pc == m.pc;
    assert Claimants(Next(s, a)) == Claimants(m) && Signallers(Next(s, a)) == Signallers(m);
    assert Parkeds(Next(s, a)) == Parkeds(m);
  }

  lemma MoveRest<V>(s: State<V>, a: Action<V>)
    requires Inv(s) && Enabled(s, a) && !a.Signal?
    ensures Exclusive(Next(s, a)) && Fifo(Next(s, a)) && Guarded(Next(s, a))
  {
    assert Holds(s.pc[a.t]) <==> s.mutex == Some(a.t);
  }

  lemma MoveReported<V>(s: State<V>, a: Action<V>)
    requires Inv(s) && Enabled(s, a) && !a.Signal?
    ensures Reported(Next(s, a))
  {
    assert Holds(s.pc[a.t]) <==> s.mutex == Some(a.t);
  }

  lemma NextInv<V>(s: State<V>, a: Action<V>)
    requires Inv(s) && Enabled(s, a)
    ensures Inv(Next(s, a))
  {
    if a.Signal? {
      SignalInv(s, a.t, a.awake);
    } else {
      MoveAccounted(s, a);
      MoveRest(s, a);
      MoveReported(s, a);
    }
  }

  lemma {:induction false} RunInv<V>(s: State<V>, acts: seq<Action<V>>)
    requires Inv(s) && Legal(s, acts)
    ensures Inv(Run(s, acts))
    decreases |acts|
  {
    if acts != [] {
      NextInv(s, acts[0]);
      RunInv(Next(s, acts[0]), acts[1..]);
    }
  }

  // ----- what it means ---------------------------------------------------------------

  /**
   In every interleaving, values leave in the order they came, no thread pops an empty
   queue, `take` returns the value it popped, and `size` the length it found.
   */
  lemma {:induction false} FirstInFirstOut<V>(s: State<V>, acts: seq<Action<V>>)
    requires Init(s) && Legal(s, acts)
    ensures var e := Run(s, acts);
      && e.pushed == e.popped + e.queue
      && (forall t :: t in e.pc && e.pc[t].TakeReady? ==> e.queue != [])
      && (forall t :: t in e.pc && e.pc[t].TakeDone? ==> e.popped != [] && e.pc[t].v == e.pushed[|e.popped| - 1])
      && (forall t :: t in e.pc && e.pc[t].SizeDone? ==> e.pc[t].n == |e.queue|)
  {
    InitInv(s);
    RunInv(s, acts);
  }

  /** Two threads are never inside at once, and a step that changes the queue is a step of the owner. */
  lemma {:induction false} OwnerOnly<V>(s: State<V>, acts: seq<Action<V>>, a: Action<V>)
    requires Init(s) && Legal(s, acts) && Enabled(Run(s, acts), a)
    ensures var e := Run(s, acts);
      && (forall t, u :: t in e.pc && u in e.pc && Holds(e.pc[t]) && Holds(e.pc[u]) ==> t == u)
      && (Next(e, a).queue != e.queue ==> e.mutex == Some(a.t))
  {
    InitInv(s);
    RunInv(s, acts);
  }

  /**
   No wake-up is lost: in every interleaving, while a consumer is parked there are at most
   as many queued values as woken consumers still to act, and one more between a push and
   its signal.
   */
  lemma {:induction false} NoLostWakeup<V>(s: State<V>, acts: seq<Action<V>>, t: Tid)
    requires Init(s) && Legal(s, acts) && t in Run(s, acts).pc && Run(s, acts).pc[t].Parked?
    ensures var e := Run(s, acts);
      && |e.queue| <= |Claimants(e)| + |Signallers(e)|
      && |Signallers(e)| <= 1
      && (e.queue != [] ==> exists u :: u in e.pc && (Claims(e.pc[u]) || e.pc[u].PutPushed?))
  {
    InitInv(s);
    RunInv(s, acts);
    var e := Run(s, acts);
    assert t in Parkeds(e);
    OneSignaller(e);
    if e.queue != [] {
      if Claimants(e) != {} {
        var u :| u in Claimants(e);
        assert u in e.pc && Claims(e.pc[u]);
      } else {
        assert Signallers(e) != {};
        var u :| u in Signallers(e);
        assert u in e.pc && e.pc[u].PutPushed?;
      }
    }
  }

  lemma OneSignaller<V>(s: State<V>)
    requires Exclusive(s)
    ensures |Signallers(s)| <= 1
  {
    if Signallers(s) != {} {
      var u :| u in Signallers(s);
      assert forall x :: x in Signallers(s) ==> x == u;
      assert Signallers(s) == {u};
    }
  }

  /** A step of the library itself; threads choose when to start calls, and spurious wake-ups are not owed. */
  predicate Progress<V>(a: Action<V>) {
    !a.StartPut? && !a.StartTake? && !a.StartSize? && !a.Wake?
  }

  /** No thread can go on inside the library. */
  ghost predicate Stuck<V(!new)>(s: State<V>) {
    forall a: Action<V> :: Progress(a) ==> !Enabled(s, a)
  }

  /** The step that a thread inside the guarded section can always take. */
  function HolderStep<V>(s: State<V>, t: Tid): Action<V>
    requires t in s.pc && Holds(s.pc[t])
  {
    match s.pc[t]
    case PutLocked(_) => Push(t)
    case PutPushed => Signal(t, Parkeds(s))
    case TakeTest(_) => Test(t)
    case TakeReady(_) => Pop(t)
    case SizeLocked => ReadSize(t)
    case _ => Unlock(t)
  }

  /**
   No deadlock other than waiting for values: if nobody can go on, everyone is outside or
   parked, and if anyone is parked, the queue is empty.
   */
  lemma StuckMeansEmpty<V(!new)>(s: State<V>)
    requires Inv(s) && Stuck(s)
    ensures forall t :: t in s.pc ==> s.pc[t].Idle? || s.pc[t].Parked?
    ensures (exists t :: t in s.pc && s.pc[t].Parked?) ==> s.queue == []
  {
    forall t | t in s.pc ensures s.pc[t].Idle? || s.pc[t].Parked? {
      NobodyElse(s, t);
    }
    assert Claimants(s) == {} && Signallers(s) == {};
    if t :| t in s.pc && s.pc[t].Parked? {
      assert t in Parkeds(s);
    }
  }

  lemma NobodyElse<V(!new)>(s: State<V>, t: Tid)
    requires Inv(s) && Stuck(s) && t in s.pc
    ensures s.pc[t].Idle? || s.pc[t].Parked?
  {
    if s.mutex.Some? {
      var h := HolderStep(s, s.mutex.value);
      assert Progress(h) && Enabled(s, h);
    } else if Wants(s.pc[t]) {
      var l: Action<V> := Lock(t);
      assert Progress(l) && Enabled(s, l);
    }
  }
}
