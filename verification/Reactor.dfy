/**
 The library as it is written: an object whose queues are threaded through explicit
 links, whose operations test flag bits, and whose loops follow pointers.  Every method
 is proved to do to the queue contents (`abs`) what the specification says.
 */
module Reactor {
  import opened Options
  import opened Tailq
  import opened Timeval
  import opened EventState
  import opened EventInvariant
  import opened EventPass
  import opened EventLoop
  import opened EventStable
  import opened EventReplay
  import opened EventTimeout

  /** What select answers. */
  datatype Selected =
    | Ready(clock: Option<Time>, readable: set<int>, writable: set<int>, now: Time)  // with the clock before and after
    | Interrupted
    | Failed

  lemma {:induction false} PlaceIs(ev: map<Id, Event>, q: seq<Id>, d: Time, i: nat)
    requires i <= |q|
    requires forall k :: 0 <= k < i ==> !Leq(d, Get(ev, q[k]).deadline)
    requires i < |q| ==> Leq(d, Get(ev, q[i]).deadline)
    ensures Place(ev, q, d) == i
  {
    if i > 0 {
      assert !Leq(d, Get(ev, q[0]).deadline);
      PlaceIs(ev, q[1..], d, i - 1);
    }
  }

  lemma {:induction false} SamePlace(ev: map<Id, Event>, ev': map<Id, Event>, q: seq<Id>, d: Time)
    requires forall x :: x in q ==> Get(ev', x).deadline == Get(ev, x).deadline
    ensures Place(ev', q, d) == Place(ev, q, d)
  {
    if q != [] {
      assert q[0] in q;
      SamePlace(ev, ev', q[1..], d);
    }
  }

  /** One event's flags agree with the queues. */
  ghost predicate MirrorsAt(s: State, e: Id) {
    && (ADD in Get(s.ev, e).flags <==> e in s.addq) && (TIMEOUT in Get(s.ev, e).flags <==> e in s.timeq)
    && (READ in Get(s.ev, e).flags <==> e in s.readq) && (WRITE in Get(s.ev, e).flags <==> e in s.writeq)
  }

  lemma {:induction false} TopSame(s: State, t: State, q: seq<Id>, m: int)
    requires forall x :: x in q ==> Ev(s, x).fd == Ev(t, x).fd
    ensures Top(s, q, m) == Top(t, q, m)
  {
    if q != [] {
      TopSame(s, t, q[1..], if Ev(s, q[0]).fd > m then Ev(s, q[0]).fd else m);
    }
  }

  /** TAILQ_REMOVE on a queue with contents `s`. */
  method Remove(q: Queue, ghost s: seq<Id>, e: Id) returns (q': Queue)
    requires Represents(q, s) && e in s
    ensures Represents(q', Without(s, e)) && q'.next == Unlink(q.next, s, e)
  {
    RemoveRefines(q, s, e);
    q' := q.Remove(e);
  }

  /** TAILQ_INSERT_TAIL on a queue with contents `s`. */
  method InsertTail(q: Queue, ghost s: seq<Id>, e: Id) returns (q': Queue)
    requires Represents(q, s) && e !in s
    ensures Represents(q', s + [e]) && q'.next == LinkTail(q.next, s, e)
  {
    InsertTailRefines(q, s, e);
    q' := q.InsertTail(e);
  }

  /** Find the place of a deadline by walking the queue, and insert before it or at the tail. */
  method InsertSorted(q: Queue, ghost s: seq<Id>, mem: map<Id, Event>, e: Id, d: Time) returns (q': Queue)
    requires Represents(q, s) && e !in s
    ensures var i := Place(mem, s, d); Represents(q', s[..i] + [e] + s[i..])
  {
    var tmp := q.first;
    ghost var i := 0;
    while tmp.Some? && !Leq(d, Get(mem, tmp.value).deadline)
      invariant 0 <= i <= |s| && tmp == IdAt(s, i)
      invariant forall k :: 0 <= k < i ==> !Leq(d, Get(mem, s[k]).deadline)
      decreases |s| - i
    {
      assert q.Next(s[i]) == IdAt(s, i + 1);
      tmp := q.Next(tmp.value);
      i := i + 1;
    }
    PlaceIs(mem, s, d, i);
    if tmp.Some? {
      InsertBeforeRefines(q, s, i, e);
      q' := q.InsertBefore(tmp.value, e);
    } else {
      InsertTailRefines(q, s, e);
      q' := q.InsertTail(e);
      assert s[..i] + [e] + s[i..] == s + [e];
    }
  }

  /** The largest descriptor on a queue, by walking it. */
  method Highest(q: Queue, ghost s: State, ghost c: seq<Id>, mem: map<Id, Event>, m: int) returns (r: int)
    requires Represents(q, c) && mem == s.ev
    ensures r == Top(s, c, m)
  {
    r := m;
    var cur := q.first;
    ghost var i := 0;
    assert c[0..] == c;
    while cur.Some?
      invariant 0 <= i <= |c| && cur == IdAt(c, i)
      invariant Top(s, c, m) == Top(s, c[i..], r)
      decreases |c| - i
    {
      assert q.Next(c[i]) == IdAt(c, i + 1);
      assert c[i..][1..] == c[i + 1..];
      if Get(mem, cur.value).fd > r {
        r := Get(mem, cur.value).fd;
      }
      cur := q.Next(cur.value);
      i := i + 1;
    }
    assert c[i..] == [];
  }

  lemma {:induction false} FdsSnoc(s: State, c: seq<Id>, i: nat)
    requires i < |c|
    ensures Fds(s, c[..i + 1]) == Fds(s, c[..i]) + {Ev(s, c[i]).fd}
  {
    assert c[..i + 1] == c[..i] + [c[i]];
    forall fd ensures fd in Fds(s, c[..i + 1]) <==> fd in Fds(s, c[..i]) + {Ev(s, c[i]).fd} {
      if fd in Fds(s, c[..i + 1]) {
        var x :| x in c[..i + 1] && Ev(s, x).fd == fd;
        assert x in c[..i] || x == c[i];
      }
      if fd in Fds(s, c[..i]) {
        var x :| x in c[..i] && Ev(s, x).fd == fd;
        assert x in c[..i + 1];
      }
      assert c[i] in c[..i + 1];
    }
  }

  /** The descriptors on a queue: FD_SET for each of its events. */
  method Collect(q: Queue, ghost s: State, ghost c: seq<Id>, mem: map<Id, Event>) returns (r: set<int>)
    requires Represents(q, c) && mem == s.ev
    ensures r == Fds(s, c)
  {
    r := {};
    var cur := q.first;
    ghost var i := 0;
    while cur.Some?
      invariant 0 <= i <= |c| && cur == IdAt(c, i)
      invariant r == Fds(s, c[..i])
      decreases |c| - i
    {
      assert q.Next(c[i]) == IdAt(c, i + 1);
      FdsSnoc(s, c, i);
      r := r + {Get(mem, cur.value).fd};
      cur := q.Next(cur.value);
      i := i + 1;
    }
    assert c[..i] == c;
  }

  /** Memory and links hold the records and the queues of `s`. */
  ghost predicate Holds(mem: map<Id, Event>, rq: Queue, wq: Queue, tq: Queue, aq: Queue, s: State) {
    && mem == s.ev
    && Represents(rq, s.readq) && rq.next == s.link
    && Represents(wq, s.writeq)
    && Represents(tq, s.timeq)
    && Represents(aq, s.addq)
  }

  /** The scalar globals agree with `s`. */
  ghost predicate Agree(inloop: bool, fds: int, fdsz: int, calls: nat, s: State) {
    inloop == s.inloop && fds == s.fds && fdsz == s.fdsz && calls == |s.h.log|
  }

  lemma {:induction false} DelAgrees(inloop: bool, fds: int, fdsz: int, calls: nat, s: State, e: Id)
    requires Agree(inloop, fds, fdsz, calls, s)
    ensures Agree(inloop, fds, fdsz, calls, EventState.EventDel(s, e))
  {}

  lemma DelHolds(rq: Queue, wq: Queue, tq: Queue, aq: Queue, s: State, e: Id, f: set<Flag>)
    requires Represents(rq, Without(s.readq, e)) && rq.next == Unlink(s.link, s.readq, e)
    requires Represents(wq, Without(s.writeq, e))
    requires Represents(tq, Without(s.timeq, e))
    requires Represents(aq, Without(s.addq, e))
    requires f == Get(s.ev, e).flags - {ADD, TIMEOUT, READ, WRITE}
    ensures Holds(s.ev[e := Get(s.ev, e).(flags := f)], rq, wq, tq, aq, EventState.EventDel(s, e))
  {}

  /** Take the first event off a queue. */
  method RemoveFirst(q: Queue, ghost s: seq<Id>) returns (q': Queue, e: Id)
    requires Represents(q, s) && s != []
    ensures Represents(q', s[1..]) && e == s[0]
  {
    e := q.first.value;
    q' := Remove(q, s, e);
    assert IndexOf(s, e) == 0;
    assert Without(s, e) == s[1..];
  }

  /** If the flag is set, take the event off its queue and clear the flag. */
  method Drop(q: Queue, ghost s: seq<Id>, e: Id, f: set<Flag>, bit: Flag) returns (q': Queue, f': set<Flag>)
    requires Represents(q, s) && (bit in f <==> e in s)
    ensures Represents(q', Without(s, e)) && q'.next == Unlink(q.next, s, e) && f' == f - {bit}
  {
    q', f' := q, f;
    if bit in f {
      q' := Remove(q, s, e);
      f' := f - {bit};
    }
  }

  /** The body of event_del on the queues and the flag word. */
  method Unqueue(f: set<Flag>, e: Id, aq: Queue, tq: Queue, rq: Queue, wq: Queue,
                 ghost a: seq<Id>, ghost t: seq<Id>, ghost r: seq<Id>, ghost w: seq<Id>)
    returns (f': set<Flag>, aq': Queue, tq': Queue, rq': Queue, wq': Queue)
    requires Represents(aq, a) && Represents(tq, t) && Represents(rq, r) && Represents(wq, w)
    requires (ADD in f <==> e in a) && (TIMEOUT in f <==> e in t) && (READ in f <==> e in r) && (WRITE in f <==> e in w)
    ensures Represents(aq', Without(a, e)) && Represents(tq', Without(t, e))
    ensures Represents(rq', Without(r, e)) && Represents(wq', Without(w, e))
    ensures rq'.next == Unlink(rq.next, r, e)
    ensures f' == f - {ADD, TIMEOUT, READ, WRITE}
  {
    aq', f' := Drop(aq, a, e, f, ADD);
    tq', f' := Drop(tq, t, e, f', TIMEOUT);
    rq', f' := Drop(rq, r, e, f', READ);
    wq', f' := Drop(wq, w, e, f', WRITE);
  }

  /** event_del on the memory. */
  method Delete(mem: map<Id, Event>, rq: Queue, wq: Queue, tq: Queue, aq: Queue, ghost s: State, e: Id)
    returns (mem': map<Id, Event>, rq': Queue, wq': Queue, tq': Queue, aq': Queue)
    requires Holds(mem, rq, wq, tq, aq, s) && MirrorsAt(s, e)
    ensures Holds(mem', rq', wq', tq', aq', EventState.EventDel(s, e))
  {
    var flags;
    flags, aq', tq', rq', wq' := Unqueue(Get(mem, e).flags, e, aq, tq, rq, wq, s.addq, s.timeq, s.readq, s.writeq);
    mem' := mem[e := Get(mem, e).(flags := flags)];
    DelHolds(rq', wq', tq', aq', s, e, flags);
  }

  /** The body of event_add that sets a deadline: it is overwritten while the event may still be linked. */
  method Rearm(mem: map<Id, Event>, tq: Queue, ghost t: seq<Id>, e: Id, d: Time)
    returns (mem': map<Id, Event>, tq': Queue)
    requires Represents(tq, t) && (TIMEOUT in Get(mem, e).flags <==> e in t)
    ensures mem' == mem[e := Get(mem, e).(deadline := d, flags := Get(mem, e).flags + {TIMEOUT})]
    ensures var q := Without(t, e); var i := Place(mem, q, d); Represents(tq', q[..i] + [e] + q[i..])
  {
    WithoutKeeps(t, e);
    mem', tq' := mem[e := Get(mem, e).(deadline := d)], tq;
    if TIMEOUT in Get(mem', e).flags {
      tq' := Remove(tq', t, e);
    }
    SamePlace(mem, mem', Without(t, e), d);
    tq' := InsertSorted(tq', Without(t, e), mem', e, d);
    mem' := mem'[e := Get(mem', e).(flags := Get(mem', e).flags + {TIMEOUT})];
  }

  /** One turn of a pass, from the front. */
  lemma PassUnfolds(s: State, e: Id, ready: set<int>, kind: Flag, script: Script, m: int)
    requires Inv(s) && s.inloop
    ensures var t := Visited(s, e, ready, kind, script);
      var m' := if !Hit(s, e, ready) && Ev(s, e).fd > m then Ev(s, e).fd else m;
      && Inv(t) && t.inloop && Rank(t, Link(s, e)) < Rank(s, Some(e)) && 0 <= Rank(s, Some(e))
      && Pass(s, Some(e), ready, kind, script).s == Pass(t, Link(s, e), ready, kind, script).s
      && TopVisited(Pass(s, Some(e), ready, kind, script).visits, m)
         == TopVisited(Pass(t, Link(s, e), ready, kind, script).visits, m')
  {
    RankDrops(s, e, ready, kind, script);
    var v := Pass(s, Some(e), ready, kind, script).visits;
    var t := Visited(s, e, ready, kind, script);
    assert v[1..] == Pass(t, Link(s, e), ready, kind, script).visits;
  }

  /** A postponed addition changes no descriptor. */
  lemma SameFds(s: State)
    requires s.addq != []
    ensures var t := AddPost(PopAdd(s), s.addq[0]);
      t.addq == s.addq[1..] && forall x :: Ev(t, x).fd == Ev(s, x).fd
  {}

  /** The number of timeout rounds matters only to the timeout loop. */
  lemma SameUntilTimeouts(s: State, a: Select, b: Select, script: Script)
    requires Inv(s) && a.readable == b.readable && a.writable == b.writable
    ensures Recalculated(s, a, script) == Recalculated(s, b, script)
  {}

  lemma {:induction false} IterateRounds(s: State, sel: Select, n: nat, script: Script)
    requires Inv(s)
    ensures Iterate(s, sel.(rounds := n), script) == Timeouts(Recalculated(s, sel, script), sel.now, script, n)
  {
    SameUntilTimeouts(s, sel, sel.(rounds := n), script);
  }

  // ----- whole runs of event_dispatch ------------------------------------------------

  ghost function Offer(a: Selected): Select
    requires a.Ready?
  {
    Select(a.readable, a.writable, a.now, 0)
  }

  /** One iteration, with as many timeout rounds as timeout_process makes. */
  ghost function Served(s: State, a: Selected, script: Script): Select
    requires Inv(s) && a.Ready?
  {
    Offer(a).(rounds := Rounds(Recalculated(s, Offer(a), script), a.now, script))
  }

  /** The state after one answer of select that does not end the loop. */
  ghost function Answered(s: State, a: Selected, script: Script): State
    requires Inv(s)
  {
    if a.Ready? then Iterate(s, Served(s, a, script), script) else s
  }

  lemma AnsweredSettled(s: State, a: Selected, script: Script)
    requires Settled(s)
    ensures Settled(Answered(s, a, script))
  {
    if a.Ready? {
      IterateSettled(s, Served(s, a, script), script);
    }
  }

  /** The state after the answers, up to the first failure. */
  ghost function Dispatched(s: State, answers: seq<Selected>, script: Script): State
    requires Settled(s)
    decreases |answers|
  {
    if answers == [] || answers[0].Failed? then s else
    AnsweredSettled(s, answers[0], script);
    Dispatched(Answered(s, answers[0], script), answers[1..], script)
  }

  /** timeout_process ends. */
  ghost predicate Finishes(s: State, a: Selected, script: Script)
    requires Inv(s)
  {
    a.Ready? ==> Ends(Recalculated(s, Offer(a), script), a.now, script)
  }

  ghost predicate AlwaysFinishes(s: State, answers: seq<Selected>, script: Script)
    requires Settled(s)
    decreases |answers|
  {
    if answers == [] || answers[0].Failed? then true else
    AnsweredSettled(s, answers[0], script);
    Finishes(s, answers[0], script) && AlwaysFinishes(Answered(s, answers[0], script), answers[1..], script)
  }

  /** At most `n` rounds of the timeout loop lead from `s` to `end`. */
  ghost predicate Leads(s: State, now: Time, script: Script, n: nat, end: State) {
    Timeouts(s, now, script, n) == end
  }

  lemma {:induction false} LeadsOn(s: State, now: Time, script: Script, n: nat, end: State)
    requires Leads(s, now, script, n, end) && !Due(end, now)
    ensures !Due(s, now) ==> s == end
    ensures Due(s, now) ==> n > 0 && Leads(Fire(Expire(s), s.timeq[0], TIMEOUT, script), now, script, n - 1, end)
  {
  }

  /** One answer leads from `s` to `t`. */
  ghost predicate Answers(s: State, a: Selected, script: Script, t: State)
    requires Inv(s)
  {
    Answered(s, a, script) == t
  }

  lemma IterationAnswers(s: State, a: Selected, script: Script, m: State, t: State)
    requires Inv(s) && a.Ready? && m == Recalculated(s, Offer(a), script)
    requires t == Timeouts(m, a.now, script, Rounds(m, a.now, script))
    ensures Answers(s, a, script, t)
  {
    IterateRounds(s, Offer(a), Rounds(m, a.now, script), script);
    assert Served(s, a, script) == Offer(a).(rounds := Rounds(m, a.now, script));
    assert Answered(s, a, script) == t;
  }

  /** The loop stands at `s`, and the answers from the i-th on lead to `end`; beyond the answers, it has ended. */
  ghost predicate Remains(s: State, answers: seq<Selected>, i: nat, script: Script, end: State) {
    Settled(s) &&
    if i > |answers| then s == end
    else AlwaysFinishes(s, answers[i..], script) && Dispatched(s, answers[i..], script) == end
  }

  /** No failure among the first `i` answers; `i` goes beyond the answers exactly for a failure. */
  predicate Passed(answers: seq<Selected>, i: nat) {
    if i > |answers| then Failed in answers else forall k :: 0 <= k < i ==> answers[k] != Failed
  }

  lemma {:induction false} RemainsNow(s: State, answers: seq<Selected>, i: nat, script: Script, end: State)
    requires Remains(s, answers, i, script, end)
    ensures Inv(s) && (i < |answers| && !answers[i].Failed? ==> Finishes(s, answers[i], script))
    ensures i >= |answers| || answers[i].Failed? ==> s == end
  {
  }

  lemma {:induction false} RemainsOn(s: State, answers: seq<Selected>, i: nat, script: Script, end: State, t: State)
    requires Remains(s, answers, i, script, end) && i < |answers| && !answers[i].Failed?
    requires Inv(s) && Answers(s, answers[i], script, t)
    ensures Remains(t, answers, i + 1, script, end)
  {
    AnsweredSettled(s, answers[i], script);
    assert answers[i..][1..] == answers[i + 1..];
  }

  lemma AnswerState(s: State, a: Selected, script: Script) returns (t: State)
    requires Settled(s)
    ensures Settled(t) && Answers(s, a, script, t)
  {
    t := Answered(s, a, script);
    AnsweredSettled(s, a, script);
  }

  lemma {:induction false} DispatchedOn(s: State, answers: seq<Selected>, script: Script, t: State)
    requires Settled(s) && answers != [] && !answers[0].Failed? && Answers(s, answers[0], script, t) && Settled(t)
    ensures Dispatched(s, answers, script) == Dispatched(t, answers[1..], script)
  {
  }

  lemma {:induction false} RunOn(s: State, a: Action, acts: seq<Action>, script: Script)
    requires Settled(s)
    ensures Settled(Act(s, a, script)) && Run(s, [a] + acts, script) == Run(Act(s, a, script), acts, script)
  {
    ActSettled(s, a, script);
    assert ([a] + acts)[1..] == acts;
  }

  /**
   A run serves the answers: one loop iteration for each ready one up to the first failure,
   with what that answer says readable, writable and the time, and with its timeout loop
   run to the end if it ends.
   */
  ghost predicate Serves(s: State, acts: seq<Action>, answers: seq<Selected>, script: Script)
    requires Settled(s)
    decreases |answers|
  {
    if answers == [] || answers[0].Failed? then acts == []
    else if answers[0].Interrupted? then Serves(s, acts, answers[1..], script)
    else if acts == [] then false
    else
      ActSettled(s, acts[0], script);
      && ServedBy(s, acts[0], answers[0], script)
      && Serves(Act(s, acts[0], script), acts[1..], answers[1..], script)
  }

  ghost predicate ServedBy(s: State, act: Action, a: Selected, script: Script)
    requires Inv(s) && a.Ready?
  {
    && act.Loop? && act.sel.readable == a.readable && act.sel.writable == a.writable && act.sel.now == a.now
    && (Ends(Recalculated(s, act.sel, script), a.now, script) ==> !Due(Act(s, act, script), a.now))
  }

  lemma ReadyActs(s: State, a: Selected, script: Script, t: State) returns (first: Action)
    requires Inv(s) && a.Ready? && Answers(s, a, script, t)
    ensures ServedBy(s, first, a, script) && Act(s, first, script) == t
  {
    first := Loop(Served(s, a, script));
    SameUntilTimeouts(s, Offer(a), Served(s, a, script), script);
  }

  /** A ready answer is one loop iteration. */
  lemma {:induction false} ReadyRuns(s: State, answers: seq<Selected>, script: Script, t: State, rest: seq<Action>) returns (acts: seq<Action>)
    requires Settled(s) && answers != [] && answers[0].Ready? && Answers(s, answers[0], script, t) && Settled(t)
    requires Serves(t, rest, answers[1..], script)
    ensures Serves(s, acts, answers, script) && Run(s, acts, script) == Run(t, rest, script)
  {
    var first := ReadyActs(s, answers[0], script, t);
    acts := [first] + rest;
    assert acts[1..] == rest;
    RunOn(s, first, rest, script);
  }

  lemma IdleAnswer(s: State, a: Selected, script: Script, t: State)
    requires Inv(s) && !a.Ready? && Answers(s, a, script, t)
    ensures t == s
  {
  }

  lemma {:induction false} RunsOneMore(s: State, answers: seq<Selected>, script: Script, t: State, rest: seq<Action>)
      returns (acts: seq<Action>)
    requires Settled(s) && answers != [] && !answers[0].Failed? && Answers(s, answers[0], script, t) && Settled(t)
    requires Serves(t, rest, answers[1..], script) && Run(t, rest, script) == Dispatched(t, answers[1..], script)
    ensures Serves(s, acts, answers, script) && Run(s, acts, script) == Dispatched(s, answers, script)
  {
    DispatchedOn(s, answers, script, t);
    if answers[0].Ready? {
      acts := ReadyRuns(s, answers, script, t, rest);
    } else {
      IdleAnswer(s, answers[0], script, t);
      acts := rest;
    }
  }

  /** What event_dispatch does is a run: nothing but loop iterations, one for each answer it serves. */
  lemma {:induction false} DispatchedRuns(s: State, answers: seq<Selected>, script: Script) returns (acts: seq<Action>)
    requires Settled(s)
    ensures Serves(s, acts, answers, script) && Run(s, acts, script) == Dispatched(s, answers, script)
    decreases |answers|
  {
    if answers == [] || answers[0].Failed? {
      acts := [];
    } else {
      var t := AnswerState(s, answers[0], script);
      var rest := DispatchedRuns(t, answers[1..], script);
      acts := RunsOneMore(s, answers, script, t, rest);
    }
  }

  class EventBase {
    var mem: map<Id, Event>
    var readqueue: Queue
    var writequeue: Queue
    var timequeue: Queue
    var addqueue: Queue
    var inloop: bool
    var fds: int
    var fdsz: int
    var calls: nat            // callbacks made so far; selects what the next one does
    ghost var abs: State

    /** The fields hold the state `abs`. */
    ghost predicate Rep()
      reads this
    {
      && Holds(mem, readqueue, writequeue, timequeue, addqueue, abs)
      && Agree(inloop, fds, fdsz, calls, abs)
    }

    ghost predicate Valid()
      reads this
    {
      Inv(abs) && Rep()
    }

    /** event_init, on zeroed memory. */
    constructor ()
      ensures Valid() && abs == START
      ensures abs.readq == abs.writeq == abs.timeq == abs.addq == [] && !abs.inloop && abs.fds == abs.fdsz == 0
    {
      mem := map[];
      readqueue, writequeue, timequeue, addqueue := EMPTY, EMPTY, EMPTY, EMPTY;
      inloop, fds, fdsz, calls := false, 0, 0, 0;
      abs := START;
      StartInv();
    }

    /** On a queued event the queues stay, but the flags forget them. */
    method EventSet(e: Id, fd: int, events: set<Flag>)
      requires Valid()
      modifies this
      ensures Rep() && abs == EventState.EventSet(old(abs), e, fd, events)
      ensures Valid() <==> old(Unqueued(abs, e))
    {
      EventSetExactly(abs, e, fd, events);
      mem := mem[e := Get(mem, e).(fd := fd, events := events, flags := {INIT})];
      abs := EventState.EventSet(abs, e, fd, events);
    }

    method EventPending(e: Id, mask: set<Flag>, wantTime: bool) returns (events: set<Flag>, tv: Option<Time>)
      requires Valid()
      ensures Answer(events, tv) == EventReplay.EventPending(abs, e, mask, wantTime)
    {
      var flags := Get(mem, e).flags;
      if ADD in Get(mem, e).flags {
        flags := flags + Get(mem, e).events * {READ, WRITE};
      }
      var m := mask * {TIMEOUT, READ, WRITE};
      tv := None;
      if wantTime && TIMEOUT in flags * m {
        tv := Some(Get(mem, e).deadline);
      }
      events := flags * m;
    }

    method DelQueues(e: Id)
      requires Rep() && MirrorsAt(abs, e)
      modifies this
      ensures Rep() && abs == EventState.EventDel(old(abs), e)
    {
      DelAgrees(inloop, fds, fdsz, calls, abs, e);
      mem, readqueue, writequeue, timequeue, addqueue :=
        Delete(mem, readqueue, writequeue, timequeue, addqueue, abs, e);
      abs := EventState.EventDel(abs, e);
    }

    method EventDel(e: Id)
      requires Valid()
      modifies this
      ensures Valid() && abs == EventState.EventDel(old(abs), e)
    {
      EventDelInv(abs, e);
      DelQueues(e);
    }

    /** The first half of event_add. */
    method SetDeadline(e: Id, d: Time)
      requires Rep() && MirrorsAt(abs, e)
      modifies this
      ensures Rep() && abs == Arm(old(abs), e, d)
    {
      ghost var s := abs;
      mem, timequeue := Rearm(mem, timequeue, s.timeq, e, d);
      abs := Arm(s, e, d);
    }

    method JoinRead(e: Id)
      requires Rep() && MirrorsAt(abs, e)
      modifies this
      ensures Rep() && abs == AddRead(old(abs), e)
    {
      ghost var s := abs;
      if READ in Get(mem, e).events && READ !in Get(mem, e).flags {
        readqueue := InsertTail(readqueue, s.readq, e);
        mem := mem[e := Get(mem, e).(flags := Get(mem, e).flags + {READ})];
      }
      abs := AddRead(s, e);
    }

    method JoinWrite(e: Id)
      requires Rep() && MirrorsAt(abs, e)
      modifies this
      ensures Rep() && abs == AddWrite(old(abs), e)
    {
      ghost var s := abs;
      if WRITE in Get(mem, e).events && WRITE !in Get(mem, e).flags {
        writequeue := InsertTail(writequeue, s.writeq, e);
        mem := mem[e := Get(mem, e).(flags := Get(mem, e).flags + {WRITE})];
      }
      abs := AddWrite(s, e);
    }

    method EventAddPost(e: Id)
      requires Valid()
      modifies this
      ensures Valid() && abs == AddPost(old(abs), e)
    {
      AddReadInv(abs, e);
      AddWriteInv(AddRead(abs, e), e);
      JoinRead(e);
      JoinWrite(e);
    }

    /** The in-loop half of event_add. */
    method PostponeAdd(e: Id)
      requires Rep() && MirrorsAt(abs, e)
      modifies this
      ensures Rep() && abs == Note(Postpone(old(abs), e), Requested(e))
    {
      ghost var s := abs;
      if ADD !in Get(mem, e).flags {
        addqueue := InsertTail(addqueue, s.addq, e);
        mem := mem[e := Get(mem, e).(flags := Get(mem, e).flags + {ADD})];
      }
      abs := Note(Postpone(s, e), Requested(e));
    }

    /** `now` is what gettimeofday stores. */
    method EventAdd(e: Id, tv: Option<Time>, now: Time)
      requires Valid()
      modifies this
      ensures Valid() && abs == EventState.EventAdd(old(abs), e, tv, now)
    {
      EventAddInv(abs, e, tv, now);
      if tv.Some? {
        ArmInv(abs, e, Plus(now, tv.value));
        SetDeadline(e, Plus(now, tv.value));
      }
      if inloop {
        PostponeAdd(e);
      } else {
        EventAddPost(e);
      }
    }

    /** One call of a callback into the library; event_set on a queued event is not made. */
    method Invoke(c: Call)
      requires Valid()
      modifies this
      ensures Valid() && abs == Exec(old(abs), c)
    {
      match c {
        case Add(e, tv, now) => EventAdd(e, tv, now);
        case Del(e) => EventDel(e);
        case Set(e, fd, events) =>
          var f := Get(mem, e).flags;
          if TIMEOUT !in f && READ !in f && WRITE !in f && ADD !in f {
            EventSet(e, fd, events);
          }
      }
    }

    /** The event's callback: the calls that the script gives for it. */
    method Callback(e: Id, kind: Flag, script: Script)
      requires Valid()
      modifies this
      ensures Valid() && abs == Fire(old(abs), e, kind, script)
    {
      var cs := script(calls);
      calls := calls + 1;
      abs := Logged(abs, Firing(e, kind));
      var i := 0;
      assert cs[0..] == cs;
      while i < |cs|
        invariant i <= |cs| && Valid()
        invariant ExecAll(abs, cs[i..]) == Fire(old(abs), e, kind, script)
      {
        assert cs[i..][0] == cs[i] && cs[i..][1..] == cs[i + 1..];
        Invoke(cs[i]);
        i := i + 1;
      }
      assert cs[i..] == [];
    }

    /** The highest descriptor: `max` if it is known, else by walking both queues. */
    method HighestKnown(max: int) returns (top: int)
      requires Rep()
      ensures top == Recalc(abs, max).fds
    {
      top := max;
      if top == 0 {
        top := Highest(writequeue, abs, abs.writeq, mem, 0);
        top := Highest(readqueue, abs, abs.readq, mem, top);
      }
    }

    method EventsRecalc(max: int)
      requires Rep()
      modifies this
      ensures Rep() && abs == Recalc(old(abs), max)
    {
      fds := HighestKnown(max);
      var bytes := SetBytes(fds);
      if bytes > fdsz {
        fdsz := bytes;
      }
      abs := Recalc(abs, max);
    }

    /** One of the two dispatch passes, from its first event on. */
    method DispatchPass(first: Option<Id>, ready: set<int>, kind: Flag, script: Script, max0: int) returns (max: int)
      requires Valid() && abs.inloop
      modifies this
      ensures Valid() && abs.inloop
      ensures var r := Pass(old(abs), first, ready, kind, script); abs == r.s && max == TopVisited(r.visits, max0)
    {
      max := max0;
      var ev := first;
      while ev.Some?
        invariant Valid() && abs.inloop
        invariant Pass(old(abs), first, ready, kind, script).s == Pass(abs, ev, ready, kind, script).s
        invariant TopVisited(Pass(old(abs), first, ready, kind, script).visits, max0)
               == TopVisited(Pass(abs, ev, ready, kind, script).visits, max)
        decreases Rank(abs, ev)
      {
        var e, saved := ev.value, readqueue.Next(ev.value);
        PassUnfolds(abs, e, ready, kind, script, max);
        if Get(mem, e).fd in ready {
          EventDel(e);
          Callback(e, kind, script);
        } else if Get(mem, e).fd > max {
          max := Get(mem, e).fd;
        }
        ev := saved;
      }
    }

    method PopPostponed() returns (e: Id)
      requires Rep() && abs.addq != []
      modifies this
      ensures Rep() && e == old(abs).addq[0] && abs == PopAdd(old(abs))
    {
      ghost var s := abs;
      addqueue, e := RemoveFirst(addqueue, s.addq);
      mem := mem[e := Get(mem, e).(flags := Get(mem, e).flags - {ADD})];
      abs := PopAdd(s);
    }

    /** Replay the postponed additions. */
    method DrainPostponed(max0: int) returns (max: int)
      requires Valid()
      modifies this
      ensures Valid() && abs == Drain(old(abs)) && max == Top(old(abs), old(abs).addq, max0)
    {
      max := max0;
      while addqueue.first.Some?
        invariant Valid()
        invariant Drain(abs) == Drain(old(abs))
        invariant Top(abs, abs.addq, max) == Top(old(abs), old(abs).addq, max0)
        decreases |abs.addq|
      {
        ghost var s := abs;
        PopAddInv(s);
        var e := PopPostponed();
        EventAddPost(e);
        if Get(mem, e).fd > max {
          max := Get(mem, e).fd;
        }
        SameFds(s);
        TopSame(s, abs, s.addq[1..], max);
      }
    }

    method PopExpired() returns (e: Id)
      requires Rep() && abs.timeq != []
      modifies this
      ensures Rep() && e == old(abs).timeq[0] && abs == Expire(old(abs))
    {
      ghost var s := abs;
      timequeue, e := RemoveFirst(timequeue, s.timeq);
      mem := mem[e := Get(mem, e).(flags := Get(mem, e).flags - {TIMEOUT})];
      abs := Expire(s);
    }

    /** `now` is None when gettimeofday fails; `tv0` is what the caller's buffer held. */
    method TimeoutNext(now: Option<Time>, tv0: Time) returns (code: int, tv: Time)
      requires Rep()
      ensures (code, tv) == EventTimeout.TimeoutNext(abs, now, tv0)
    {
      code, tv := 0, tv0;
      if timequeue.first.None? {
        tv := Time(TIMEOUT_DEFAULT, 0);
      } else if now.None? {
        code := -1;
      } else {
        var d := Get(mem, timequeue.first.value).deadline;
        tv := if Leq(d, now.value) then Time(0, 0) else Minus(d, now.value);
      }
    }

    method FirstIsDue(now: Time) returns (due: bool)
      requires Rep()
      ensures due <==> Due(abs, now)
    {
      due := timequeue.first.Some? && !Less(now, Get(mem, timequeue.first.value).deadline);
    }

    /** One round of the timeout loop, if an event is due. */
    method TimeoutRound(now: Time, script: Script, ghost n: nat, ghost end: State) returns (due: bool)
      requires Valid() && Leads(abs, now, script, n, end) && !Due(end, now)
      modifies this
      ensures Valid()
      ensures due ==> n > 0 && Leads(abs, now, script, n - 1, end)
      ensures !due ==> abs == end
    {
      due := FirstIsDue(now);
      LeadsOn(abs, now, script, n, end);
      if due {
        ExpireInv(abs);
        var e := PopExpired();
        Callback(e, TIMEOUT, script);
      }
    }

    /** The timeout loop, of at most `n` rounds. */
    method TimeoutLoop(now: Time, script: Script, ghost n: nat, ghost end: State)
      requires Valid() && Leads(abs, now, script, n, end) && !Due(end, now)
      modifies this
      ensures Valid() && abs == end
    {
      ghost var left := n;
      var due := true;
      while due
        invariant Valid() && (if due then Leads(abs, now, script, left, end) else abs == end)
        decreases left, due
      {
        due := TimeoutRound(now, script, left, end);
        left := if due then left - 1 else left;
      }
    }

    /** timeout_process, if the callbacks let it end. */
    method TimeoutProcess(now: Time, script: Script)
      requires Valid() && Ends(abs, now, script)
      modifies this
      ensures Valid() && !Due(abs, now)
      ensures abs == Timeouts(old(abs), now, script, Rounds(old(abs), now, script))
    {
      ghost var n := Rounds(abs, now, script);
      TimeoutLoop(now, script, n, Timeouts(abs, now, script, n));
    }

    method EnterLoop()
      requires Valid()
      modifies this
      ensures Valid() && abs == Enter(old(abs))
    {
      EnterInv(abs);
      inloop := true;
      abs := Enter(abs);
    }

    method LeaveLoop()
      requires Valid()
      modifies this
      ensures Valid() && abs == Leave(old(abs))
    {
      inloop := false;
      abs := Leave(abs);
    }

    /** The loop over the read queue; `ready` is the read set after select. */
    method DispatchRead(ghost sel: Select, ready: set<int>, script: Script) returns (maxfd: int)
      requires Valid() && ready == sel.readable * Fds(abs, abs.readq)
      modifies this
      ensures Valid() && abs == ReadPass(old(abs), sel, script).s
      ensures maxfd == TopVisited(ReadPass(old(abs), sel, script).visits, 0)
    {
      EnterLoop();
      maxfd := DispatchPass(readqueue.first, ready, READ, script, 0);
    }

    /** The loop over the write queue; `s` is the state at select. */
    method DispatchWrite(ghost s: State, ghost sel: Select, ready: set<int>, script: Script, max0: int)
      returns (maxfd: int)
      requires Valid() && Inv(s) && abs == ReadPass(s, sel, script).s && ready == sel.writable * Fds(s, s.writeq)
      modifies this
      ensures Valid() && abs == WritePass(s, sel, script).s
      ensures maxfd == TopVisited(WritePass(s, sel, script).visits, max0)
    {
      maxfd := DispatchPass(writequeue.first, ready, WRITE, script, max0);
    }

    /** The passes, the drain and events_recalc. */
    method Redistribute(ghost sel: Select, readset: set<int>, writeset: set<int>, script: Script)
      requires Valid() && readset == sel.readable * Fds(abs, abs.readq) && writeset == sel.writable * Fds(abs, abs.writeq)
      modifies this
      ensures Valid() && abs == Recalculated(old(abs), sel, script)
    {
      ghost var s := abs;
      var maxfd := DispatchRead(sel, readset, script);
      maxfd := DispatchWrite(s, sel, writeset, script, maxfd);
      ghost var w, m := abs, maxfd;
      LeaveLoop();
      maxfd := DrainPostponed(maxfd);
      TopSame(Leave(w), w, w.addq, m);
      RecalculatedSettled(s, sel, script);
      EventsRecalc(maxfd);
    }

    /**
     One iteration of the dispatch loop, from building the sets to timeout_process.  `wait`
     is what timeout_next leaves for select in the buffer that held `tv`.
     */
    method Iteration(a: Selected, tv: Time, script: Script) returns (wait: Time, ghost sel: Select)
      requires Valid() && a.Ready? && Finishes(abs, a, script)
      modifies this
      ensures Valid() && !Due(abs, a.now) && Answers(old(abs), a, script, abs)
      ensures sel.readable == a.readable && sel.writable == a.writable && sel.now == a.now
      ensures abs == Iterate(old(abs), sel, script)
      ensures wait == EventTimeout.TimeoutNext(old(abs), a.clock, tv).1
    {
      ghost var s := abs;
      var writeset := Collect(writequeue, abs, abs.writeq, mem);
      var readset := Collect(readqueue, abs, abs.readq, mem);
      var code;
      code, wait := TimeoutNext(a.clock, tv);
      Redistribute(Offer(a), a.readable * readset, a.writable * writeset, script);
      ghost var m := abs;
      TimeoutProcess(a.now, script);
      IterationAnswers(s, a, script, m, abs);
      sel := Served(s, a, script);
    }

    /**
     One round of the dispatch loop, on the i-th answer; `tv` is what the round before left in
     the buffer for the wait.  A failure counts as going beyond the answers.
     */
    method Continue(answers: seq<Selected>, i: nat, tv: Time, script: Script, ghost end: State)
      returns (next: nat, wait: Time)
      requires Valid() && Remains(abs, answers, i, script, end) && i < |answers| && Passed(answers, i)
      modifies this
      ensures Valid() && Remains(abs, answers, next, script, end) && i < next && Passed(answers, next)
    {
      ghost var s := abs;
      RemainsNow(s, answers, i, script, end);
      if answers[i] == Failed {
        next, wait := |answers| + 1, tv;
      } else {
        next, wait := i + 1, tv;
        if answers[i].Ready? {
          ghost var sel;
          wait, sel := Iteration(answers[i], tv, script);
        }
        RemainsOn(s, answers, i, script, end, abs);
      }
    }

    /** The first scan of event_dispatch. */
    method Start(ghost answers: seq<Selected>, script: Script) returns (ghost end: State)
      requires Valid() && Settled(abs) && AlwaysFinishes(Begun(abs), answers, script)
      modifies this
      ensures Valid() && Remains(abs, answers, 0, script, end)
      ensures end == Dispatched(Begun(old(abs)), answers, script)
    {
      end := Dispatched(Begun(abs), answers, script);
      EventsRecalc(0);
      assert answers[0..] == answers;
    }

    /** The dispatch loop, up to the failure of select or the end of the answers. */
    method Serve(answers: seq<Selected>, tv: Time, script: Script, ghost end: State) returns (i: nat)
      requires Valid() && Remains(abs, answers, 0, script, end)
      modifies this
      ensures Valid() && Remains(abs, answers, i, script, end) && Passed(answers, i) && i >= |answers|
    {
      var wait := tv;
      i := 0;
      while i < |answers|
        invariant Valid() && Remains(abs, answers, i, script, end) && Passed(answers, i)
      {
        i, wait := Continue(answers, i, wait, script, end);
      }
    }

    /**
     event_dispatch, for the answers that select gives.  It returns -1 at the first
     failure; running out of answers stands for a loop that is still running.  `tv` is what
     its buffer for the wait holds at first.
     */
    method EventDispatch(answers: seq<Selected>, tv: Time, script: Script) returns (code: int)
      requires Valid() && Settled(abs) && AlwaysFinishes(Begun(abs), answers, script)
      modifies this
      ensures Valid() && abs == Dispatched(Begun(old(abs)), answers, script)
      ensures code == (if Failed in answers then -1 else 0)
    {
      ghost var end := Start(answers, script);
      var served := Serve(answers, tv, script, end);
      RemainsNow(abs, answers, served, script, end);
      code := if served > |answers| then -1 else 0;
    }
  }
}
