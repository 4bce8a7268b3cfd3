/** The queue object, updated in place one step at a time, by whichever thread the scheduler picks. */
module BlockingQueue {
  import opened Options
  import opened Monitor

  class BlockingQueue<V(!new)> {
    var pc: map<Tid, Pc<V>>
    var owner: Option<Tid>     // mutex_
    var queue: seq<V>          // queue_
    ghost var pushed: seq<V>
    ghost var popped: seq<V>

    ghost function View(): State<V>
      reads this
    {
      State(pc, owner, queue, pushed, popped)
    }

    ghost predicate Valid()
      reads this
    {
      Inv(View())
    }

    constructor (threads: set<Tid>)
      ensures Valid() && Init(View()) && pc.Keys == threads
    {
      pc := map t | t in threads :: Idle;
      owner, queue, pushed, popped := None, [], [], [];
      new;
      InitInv(View());
    }

    /** MutexLock::lock, and the return of pthread_cond_wait: blocks, that is fails, while the mutex is owned. */
    method Acquire(t: Tid) returns (ok: bool)
      requires Valid() && t in pc && Wants(pc[t])
      modifies `pc, `owner
      ensures ok <==> old(owner).None?
      ensures View() == if ok then Next(old(View()), Lock(t)) else old(View())
      ensures Valid()
    {
      ok := owner.None?;
      if ok {
        NextInv(View(), Lock(t));
        owner := Some(t);
        pc := pc[t := Locked(pc[t])];
      }
    }

    /** The guard's destructor. */
    method Release(t: Tid)
      requires Valid() && Enabled(View(), Unlock(t))
      modifies `pc, `owner
      ensures View() == Next(old(View()), Unlock(t)) && Valid()
    {
      NextInv(View(), Unlock(t));
      owner := None;
      pc := pc[t := Idle];
    }

    /** queue_.push_back in `put`. */
    method PushBack(t: Tid)
      requires Valid() && t in pc && pc[t].PutLocked?
      modifies `pc, `queue, `pushed
      ensures View() == Next(old(View()), Push(t)) && Valid()
    {
      NextInv(View(), Push(t));
      queue := queue + [pc[t].v];
      pushed := pushed + [pc[t].v];
      pc := pc[t := PutPushed];
    }

    /** Condition::notify: the threads of `awake` are the ones that the system wakes. */
    method Notify(t: Tid, awake: set<Tid>)
      requires Valid() && Enabled(View(), Signal(t, awake))
      modifies `pc
      ensures View() == Next(old(View()), Signal(t, awake)) && Valid()
    {
      NextInv(View(), Signal(t, awake));
      pc := Awaken(pc, awake);
      pc := pc[t := PutSignalled];
    }

    /** The loop test of `take`, and Condition::wait when the queue is empty. */
    method TestOrWait(t: Tid) returns (waiting: bool)
      requires Valid() && t in pc && pc[t].TakeTest?
      modifies `pc, `owner
      ensures waiting <==> queue == []
      ensures View() == Next(old(View()), Test(t)) && Valid()
    {
      NextInv(View(), Test(t));
      waiting := queue == [];
      if waiting {
        owner := None;
        pc := pc[t := Parked];
      } else {
        pc := pc[t := TakeReady(pc[t].woken)];
      }
    }

    /** queue_.front and queue_.pop_front in `take`: there is a front. */
    method PopFront(t: Tid) returns (front: V)
      requires Valid() && t in pc && pc[t].TakeReady?
      modifies `pc, `queue, `popped
      ensures old(queue) != [] && front == old(queue)[0]
      ensures View() == Next(old(View()), Pop(t)) && Valid()
    {
      NextInv(View(), Pop(t));
      front := queue[0];
      queue := queue[1..];
      popped := popped + [front];
      pc := pc[t := TakeDone(front)];
    }

    /** A call begins, and its thread wants the mutex. */
    method Enter(t: Tid, call: Action<V>)
      requires Valid() && call.t == t && (call.StartPut? || call.StartTake? || call.StartSize?) && Enabled(View(), call)
      modifies `pc
      ensures View() == Next(old(View()), call) && Valid()
      ensures t in pc && Wants(pc[t]) && pc == old(pc)[t := pc[t]]
    {
      NextInv(View(), call);
      if call.StartPut? {
        pc := pc[t := PutWait(call.v)];
      } else if call.StartTake? {
        pc := pc[t := TakeWait];
      } else {
        pc := pc[t := SizeWait];
      }
    }

    /** The rest of an uninterrupted `put` that has the mutex: push, signal and release. */
    method PushAndUnlock(t: Tid, awake: set<Tid>)
      requires Valid() && t in pc && pc[t].PutLocked?
      requires awake <= Parkeds(View()) && (Parkeds(View()) != {} ==> awake != {})
      modifies `pc, `owner, `queue, `pushed
      ensures Valid() && owner.None? && queue == old(queue) + [old(pc)[t].v] && pc.Keys == old(pc.Keys)
      ensures forall u :: u in pc ==> pc[u] == if u == t then Idle else if u in awake then Woken else old(pc)[u]
    {
      PushBack(t);
      assert Parkeds(View()) == old(Parkeds(View()));
      Notify(t, awake);
      Release(t);
    }

    /**
     A whole `put` that nobody interrupts.  If the mutex is free, the value goes to the end,
     the mutex is free again, and if anyone was parked, someone is awake; if not, the caller
     waits for the mutex and goes on by the steps above.
     */
    method Put(t: Tid, x: V, awake: set<Tid>) returns (done: bool)
      requires Valid() && t in pc && pc[t].Idle?
      requires awake <= Parkeds(View()) && (Parkeds(View()) != {} ==> awake != {})
      modifies this
      ensures Valid() && (done <==> old(owner).None?)
      ensures !done ==> pc == old(pc)[t := PutWait(x)] && queue == old(queue) && owner == old(owner)
      ensures done ==> queue == old(queue) + [x] && owner.None? && pc.Keys == old(pc.Keys)
      ensures done ==> forall u :: u in pc ==> pc[u] == if u in awake then Woken else old(pc)[u]
    {
      Enter(t, StartPut(t, x));
      done := Acquire(t);
      if done {
        assert Parkeds(View()) == old(Parkeds(View()));
        PushAndUnlock(t, awake);
      }
    }

    /** The end of an uninterrupted `take`, past its loop. */
    method PopAndUnlock(t: Tid) returns (front: V)
      requires Valid() && t in pc && pc[t].TakeReady?
      modifies `pc, `owner, `queue, `popped
      ensures Valid() && owner.None? && pc == old(pc)[t := Idle]
      ensures old(queue) != [] && front == old(queue)[0] && queue == old(queue)[1..]
    {
      front := PopFront(t);
      Release(t);
      assert pc == old(pc)[t := Idle];
    }

    /** The loop test of an uninterrupted `take` that has the mutex, and what follows it. */
    method TestAndPop(t: Tid) returns (front: Option<V>)
      requires Valid() && t in pc && pc[t].TakeTest?
      modifies `pc, `owner, `queue, `popped
      ensures Valid() && owner.None?
      ensures old(queue) == [] ==> front == None && queue == [] && pc == old(pc)[t := Parked]
      ensures old(queue) != [] ==> front == Some(old(queue)[0]) && queue == old(queue)[1..] && pc == old(pc)[t := Idle]
    {
      var waiting := TestOrWait(t);
      if waiting {
        front := None;
      } else {
        var v := PopAndUnlock(t);
        front := Some(v);
        assert pc == old(pc)[t := Idle];
      }
    }

    /**
     A whole `take` that nobody interrupts: with a free mutex the front, or the caller is
     parked; with an owned one the caller waits for it.
     */
    method Take(t: Tid) returns (front: Option<V>)
      requires Valid() && t in pc && pc[t].Idle?
      modifies this
      ensures Valid()
      ensures old(owner).Some? ==>
        front == None && pc == old(pc)[t := TakeWait] && queue == old(queue) && owner == old(owner)
      ensures old(owner).None? && old(queue) == [] ==>
        front == None && queue == [] && owner.None? && pc == old(pc)[t := Parked]
      ensures old(owner).None? && old(queue) != [] ==>
        front == Some(old(queue)[0]) && queue == old(queue)[1..] && owner.None? && pc == old(pc)
    {
      front := None;
      Enter(t, StartTake(t));
      var ok := Acquire(t);
      if ok {
        front := TestAndPop(t);
        assert old(queue) == [] ==> pc == old(pc)[t := Parked];
        assert old(queue) != [] ==> pc == old(pc);
      }
    }

    /** A whole `size` that nobody interrupts: it changes nothing, or its caller waits for the mutex. */
    method Size(t: Tid) returns (n: Option<nat>)
      requires Valid() && t in pc && pc[t].Idle?
      modifies `pc, `owner
      ensures Valid()
      ensures old(owner).Some? ==> n == None && pc == old(pc)[t := SizeWait] && owner == old(owner)
      ensures old(owner).None? ==> n == Some(|queue|) && pc == old(pc) && owner.None?
    {
      n := None;
      Enter(t, StartSize(t));
      var ok := Acquire(t);
      if ok {
        NextInv(View(), ReadSize(t));
        n := Some(|queue|);
        pc := pc[t := SizeDone(|queue|)];
        Release(t);
        assert pc == old(pc);
      }
    }
  }
}
