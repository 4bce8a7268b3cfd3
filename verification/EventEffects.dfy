/**
 What one library call, one timeout and one events_recalc do and what they leave alone,
 told by queue contents, records and the globals.
 */
module EventEffects {
  import opened Options
  import opened Tailq
  import opened Timeval
  import opened EventState
  import opened EventInvariant
  import opened EventLoop
  import opened EventStable

  /** `r` is `q` without the event, which may be absent; everybody else keeps its place. */
  ghost predicate TakenOut(q: seq<Id>, e: Id, r: seq<Id>) {
    (e !in q && r == q) || exists i :: 0 <= i < |q| && q[i] == e && e !in q[..i] && r == q[..i] + q[i + 1..]
  }

  lemma {:induction false} WithoutTakesOut(q: seq<Id>, e: Id)
    ensures TakenOut(q, e, Without(q, e))
  {
    if e in q {
      var i := IndexOf(q, e);
      assert q[i] == e && e !in q[..i] && Without(q, e) == q[..i] + q[i + 1..];
    }
  }

  /** Only the record of `e` may differ. */
  ghost predicate OthersKept(s: State, t: State, e: Id) {
    forall x :: x != e ==> Get(t.ev, x) == Get(s.ev, x)
  }

  /** The globals and the callbacks made so far. */
  ghost predicate SameGlobals(s: State, t: State) {
    t.inloop == s.inloop && t.fds == s.fds && t.fdsz == s.fdsz && t.h.log == s.h.log
  }

  // ----- event_del -------------------------------------------------------------------

  /**
   event_del takes the event out of all four queues and clears exactly the queue bits; only
   the link of its predecessor on the read queue moves, to where its own link leads.
   */
  lemma DeletionEffect(s: State, e: Id)
    requires Inv(s)
    ensures var t := Exec(s, Del(e));
      && TakenOut(s.readq, e, t.readq) && TakenOut(s.writeq, e, t.writeq)
      && TakenOut(s.timeq, e, t.timeq) && TakenOut(s.addq, e, t.addq)
      && OthersKept(s, t, e) && SameGlobals(s, t)
      && Ev(t, e).fd == Ev(s, e).fd && Ev(t, e).events == Ev(s, e).events && Ev(t, e).deadline == Ev(s, e).deadline
      && (forall f :: f in Ev(t, e).flags <==> f in Ev(s, e).flags && f == INIT)
      && (forall x :: Link(t, x) == if Precedes(s.readq, x, e) then Link(s, e) else Link(s, x))
  {
    WithoutTakesOut(s.readq, e);
    WithoutTakesOut(s.writeq, e);
    WithoutTakesOut(s.timeq, e);
    WithoutTakesOut(s.addq, e);
    DeletedRecord(s, e);
    forall x ensures Link(Exec(s, Del(e)), x) == if Precedes(s.readq, x, e) then Link(s, e) else Link(s, x) {
      UnlinkAt(s.link, s.readq, e, x);
    }
  }

  lemma DeletedRecord(s: State, e: Id)
    ensures var t := EventDel(s, e);
      && OthersKept(s, t, e) && SameGlobals(s, t)
      && Ev(t, e).fd == Ev(s, e).fd && Ev(t, e).events == Ev(s, e).events && Ev(t, e).deadline == Ev(s, e).deadline
      && (forall f :: f in Ev(t, e).flags <==> f in Ev(s, e).flags && f == INIT)
  {}

  /** `x` stands right before `e` on the queue. */
  ghost predicate Precedes(q: seq<Id>, x: Id, e: Id) {
    exists i {:trigger q[i]} :: 0 < i < |q| && q[i] == e && q[i - 1] == x
  }

  lemma {:induction false} UnlinkAt(link: map<Id, Option<Id>>, q: seq<Id>, e: Id, x: Id)
    requires Distinct(q)
    ensures At(Unlink(link, q, e), x) == if Precedes(q, x, e) then At(link, e) else At(link, x)
  {
    if e in q {
      var k := IndexOf(q, e);
      assert forall i :: 0 <= i < |q| && q[i] == e ==> i == k;
    }
  }

  // ----- event_set -------------------------------------------------------------------

  /** event_set writes descriptor and interest, keeps the deadline, and leaves all else as it was. */
  lemma SetEffect(s: State, e: Id, fd: int, events: set<Flag>)
    ensures var t := EventSet(s, e, fd, events);
      && Ev(t, e) == Event(fd, events, Ev(s, e).deadline, {INIT}) && OthersKept(s, t, e)
      && t.(ev := s.ev) == s
    ensures Exec(s, Set(e, fd, events)) == if Unqueued(s, e) then EventSet(s, e, fd, events) else s
  {}

  // ----- event_add -------------------------------------------------------------------

  /**
   event_add with a deadline moves the event, with the new deadline, behind all strictly
   earlier ones; without one it leaves the deadlines alone.
   */
  lemma {:induction false} AddDeadline(s: State, e: Id, tv: Option<Time>, now: Time) returns (r: seq<Id>, k: nat)
    requires Inv(s)
    ensures var t := Exec(s, Add(e, tv, now));
      && (tv.None? ==> t.timeq == s.timeq && Ev(t, e).deadline == Ev(s, e).deadline)
      && (tv.Some? ==>
           && Ev(t, e).deadline == Plus(now, tv.value)
           && TakenOut(s.timeq, e, r) && k <= |r| && t.timeq == r[..k] + [e] + r[k..]
           && (forall i :: 0 <= i < k ==> Less(Ev(s, r[i]).deadline, Plus(now, tv.value)))
           && (forall i :: k <= i < |r| ==> !Less(Ev(s, r[i]).deadline, Plus(now, tv.value))))
  {
    r, k := s.timeq, 0;
    if tv.Some? {
      var d := Plus(now, tv.value);
      r := Without(s.timeq, e);
      k := Place(s.ev, r, d);
      WithoutTakesOut(s.timeq, e);
      WithoutSorted(s.ev, s.h.armed, s.timeq, e);
      forall i | k <= i < |r| ensures !Less(Ev(s, r[i]).deadline, d) {
        assert k < i ==> Before(s.ev, s.h.armed, r[k], r[i]);
      }
    }
  }

  /**
   Inside the passes event_add queues nothing but postpones the event, once; outside them
   it puts it at the end of each queue that it wants and is not on.
   */
  lemma {:induction false} AddQueues(s: State, e: Id, tv: Option<Time>, now: Time)
    requires Inv(s)
    ensures var t := Exec(s, Add(e, tv, now));
      && (s.inloop ==>
           && t.readq == s.readq && t.writeq == s.writeq && t.link == s.link
           && t.addq == if e in s.addq then s.addq else s.addq + [e])
      && (!s.inloop ==>
           && t.addq == s.addq
           && t.readq == (if READ in Ev(s, e).events && e !in s.readq then s.readq + [e] else s.readq)
           && t.writeq == (if WRITE in Ev(s, e).events && e !in s.writeq then s.writeq + [e] else s.writeq))
  {
    var s1 := if tv.Some? then Arm(s, e, Plus(now, tv.value)) else s;
    assert Ev(s1, e).events == Ev(s, e).events;
    assert s1.readq == s.readq && s1.writeq == s.writeq && s1.addq == s.addq && s1.link == s.link;
    JoinQueues(s1, e);
  }

  lemma JoinQueues(s: State, e: Id)
    requires (READ in Ev(s, e).flags <==> e in s.readq) && (WRITE in Ev(s, e).flags <==> e in s.writeq)
    requires ADD in Ev(s, e).flags <==> e in s.addq
    ensures var t := if s.inloop then Note(Postpone(s, e), Requested(e)) else AddPost(s, e);
      && (s.inloop ==>
           && t.readq == s.readq && t.writeq == s.writeq && t.link == s.link
           && t.addq == if e in s.addq then s.addq else s.addq + [e])
      && (!s.inloop ==>
           && t.addq == s.addq
           && t.readq == (if READ in Ev(s, e).events && e !in s.readq then s.readq + [e] else s.readq)
           && t.writeq == (if WRITE in Ev(s, e).events && e !in s.writeq then s.writeq + [e] else s.writeq))
  {
    assert WRITE in Ev(AddRead(s, e), e).flags <==> WRITE in Ev(s, e).flags;
  }

  /** The record that event_add leaves: the bits of the queues it joins, and the deadline, are all that changes. */
  lemma {:induction false} AddRecord(s: State, e: Id, tv: Option<Time>, now: Time, f: Flag)
    ensures var t := Exec(s, Add(e, tv, now));
      && OthersKept(s, t, e) && SameGlobals(s, t)
      && Ev(t, e).fd == Ev(s, e).fd && Ev(t, e).events == Ev(s, e).events
      && (f in Ev(t, e).flags <==>
           || f in Ev(s, e).flags || (f == TIMEOUT && tv.Some?)
           || if s.inloop then f == ADD else (f == READ || f == WRITE) && f in Ev(s, e).events)
  {
    var s1 := if tv.Some? then Arm(s, e, Plus(now, tv.value)) else s;
    assert Ev(s1, e).events == Ev(s, e).events && Ev(s1, e).fd == Ev(s, e).fd;
    assert f in Ev(s1, e).flags <==> f in Ev(s, e).flags || (f == TIMEOUT && tv.Some?);
    JoinRecord(s1, e, f);
  }

  lemma JoinRecord(s: State, e: Id, f: Flag)
    ensures var t := if s.inloop then Note(Postpone(s, e), Requested(e)) else AddPost(s, e);
      && OthersKept(s, t, e) && SameGlobals(s, t)
      && Ev(t, e).fd == Ev(s, e).fd && Ev(t, e).events == Ev(s, e).events
      && (f in Ev(t, e).flags <==>
           || f in Ev(s, e).flags
           || if s.inloop then f == ADD else (f == READ || f == WRITE) && f in Ev(s, e).events)
  {
    var m := AddRead(s, e);
    assert Ev(m, e).events == Ev(s, e).events;
    assert f in Ev(m, e).flags <==> f in Ev(s, e).flags || (f == READ && f in Ev(s, e).events);
  }

  /** A callback makes its calls one after the other. */
  lemma {:induction false} CallsInOrder(s: State, cs: seq<Call>, c: Call)
    ensures ExecAll(s, []) == s && ExecAll(s, cs + [c]) == Exec(ExecAll(s, cs), c)
    decreases |cs|
  {
    if cs == [] {
      assert [c][1..] == [];
      assert cs + [c] == [c];
    } else {
      assert (cs + [c])[1..] == cs[1..] + [c];
      CallsInOrder(Exec(s, cs[0]), cs[1..], c);
    }
  }

  // ----- events_recalc ---------------------------------------------------------------

  /** Some queued event has this descriptor. */
  ghost predicate QueuedFd(s: State, fd: int) {
    exists x :: (x in s.readq || x in s.writeq) && Ev(s, x).fd == fd
  }

  /**
   events_recalc takes a known maximum as it is, and otherwise finds the largest queued
   descriptor, at least 0; the sets grow to the least number of whole masks that holds it,
   if they do not hold so much already; nothing else changes.
   */
  lemma {:induction false} RecalcEffect(s: State, max: nat)
    ensures var t := Recalc(s, max);
      && t.(fds := s.fds, fdsz := s.fdsz) == s
      && (max != 0 ==> t.fds == max)
      && (max == 0 ==>
           && (t.fds == 0 || QueuedFd(s, t.fds)) && 0 <= t.fds
           && (forall x :: x in s.readq || x in s.writeq ==> Ev(s, x).fd <= t.fds))
      && (exists n: nat {:trigger LeastMasks(n, t.fds)} ::
           LeastMasks(n, t.fds) && t.fdsz == if 8 * n > s.fdsz then 8 * n else s.fdsz)
  {
    var t := Recalc(s, max);
    var n := (t.fds + 64) / 64;
    assert LeastMasks(n, t.fds);
    if max == 0 && t.fds != 0 {
      var w := Top(s, s.writeq, 0);
      assert QueuedFd(s, t.fds);
    }
  }

  /** `n` masks of 64 descriptors hold those up to `fds`, and fewer do not. */
  predicate LeastMasks(n: nat, fds: int) {
    64 * n > fds >= 64 * (n - 1)
  }

  // ----- one timeout -----------------------------------------------------------------

  /** Taking the first deadline off its queue clears its TIMEOUT bit, and leaves all else as it was. */
  lemma ExpireEffect(s: State)
    requires s.timeq != []
    ensures var e, t := s.timeq[0], Expire(s);
      && s.timeq == [e] + t.timeq && OthersKept(s, t, e) && t.(ev := s.ev, timeq := s.timeq) == s
      && Ev(t, e).fd == Ev(s, e).fd && Ev(t, e).events == Ev(s, e).events && Ev(t, e).deadline == Ev(s, e).deadline
      && (forall f :: f in Ev(t, e).flags <==> f in Ev(s, e).flags && f != TIMEOUT)
  {}

  /** A round is that, then EV_TIMEOUT reported to the event, then the calls of its callback. */
  lemma {:induction false} RoundIs(s: State, now: Time, script: Script, n: nat) returns (t: State)
    requires n > 0 && Due(s, now)
    ensures t == ExecAll(Logged(Expire(s), Firing(s.timeq[0], TIMEOUT)), script(|s.h.log|))
    ensures Timeouts(s, now, script, n) == Timeouts(t, now, script, n - 1)
  {
    t := Fire(Expire(s), s.timeq[0], TIMEOUT, script);
  }

  /** One of the callbacks deletes, or adds, the event. */
  ghost predicate DeletedBy(script: Script, i: nat, j: nat, x: Id) {
    exists k :: i <= k < j && Del(x) in script(k)
  }

  ghost predicate AddsTo(c: Call, x: Id) {
    c.Add? && c.e == x
  }

  ghost predicate AddedBy(script: Script, i: nat, j: nat, x: Id) {
    exists k, c :: i <= k < j && c in script(k) && AddsTo(c, x)
  }

  lemma ExecKeeps(s: State, c: Call, x: Id)
    requires Settled(s)
    ensures var t := Exec(s, c);
      && (x in s.readq && c != Del(x) ==> x in t.readq) && (x in s.writeq && c != Del(x) ==> x in t.writeq)
      && (!AddsTo(c, x) ==> (x in t.readq <==> x in s.readq && c != Del(x)))
      && (!AddsTo(c, x) ==> (x in t.writeq <==> x in s.writeq && c != Del(x)))
  {
    match c {
      case Add(e, tv, now) => AddQueues(s, e, tv, now);
      case Del(e) => WithoutKeeps(s.readq, e); WithoutKeeps(s.writeq, e);
      case Set(e, fd, events) =>
    }
  }

  lemma {:induction false} ExecAllKeeps(s: State, cs: seq<Call>, x: Id)
    requires Settled(s)
    ensures var t := ExecAll(s, cs);
      && (Del(x) !in cs ==> (x in s.readq ==> x in t.readq) && (x in s.writeq ==> x in t.writeq))
      && ((forall c :: c in cs ==> !AddsTo(c, x)) ==>
           (x in t.readq <==> x in s.readq && Del(x) !in cs) && (x in t.writeq <==> x in s.writeq && Del(x) !in cs))
    decreases |cs|
  {
    if cs != [] {
      ExecKeeps(s, cs[0], x);
      ExecSettled(s, cs[0]);
      ExecAllKeeps(Exec(s, cs[0]), cs[1..], x);
      assert Del(x) in cs <==> cs[0] == Del(x) || Del(x) in cs[1..];
    }
  }

  /** What callbacks from the i-th up to the j-th do to the event's place on a queue. */
  ghost predicate Stays(before: bool, after: bool, script: Script, i: nat, j: nat, x: Id) {
    && (before && !DeletedBy(script, i, j, x) ==> after)
    && (!AddedBy(script, i, j, x) ==> (after <==> before && !DeletedBy(script, i, j, x)))
  }

  lemma {:induction false} StaysOn(a: bool, b: bool, c: bool, script: Script, i: nat, j: nat, x: Id)
    requires i < j && Stays(a, b, script, i, i + 1, x) && Stays(b, c, script, i + 1, j, x)
    ensures Stays(a, c, script, i, j, x)
  {
    assert DeletedBy(script, i, j, x) <==> DeletedBy(script, i, i + 1, x) || DeletedBy(script, i + 1, j, x) by {
      if DeletedBy(script, i, j, x) {
        var k :| i <= k < j && Del(x) in script(k);
        assert if k == i then i <= k < i + 1 else i + 1 <= k < j;
      }
    }
    if AddedBy(script, i, i + 1, x) {
      var k, d :| i <= k < i + 1 && d in script(k) && AddsTo(d, x);
      assert i <= k < j && d in script(k) && AddsTo(d, x);
    }
    if AddedBy(script, i + 1, j, x) {
      var k, d :| i + 1 <= k < j && d in script(k) && AddsTo(d, x);
      assert i <= k < j && d in script(k) && AddsTo(d, x);
    }
  }

  lemma {:induction false} RoundStays(s: State, now: Time, script: Script, n: nat, x: Id) returns (t: State)
    requires Settled(s) && n > 0 && Due(s, now)
    ensures Settled(t) && |t.h.log| == |s.h.log| + 1
    ensures Timeouts(s, now, script, n) == Timeouts(t, now, script, n - 1)
    ensures var i := |s.h.log|;
      Stays(x in s.readq, x in t.readq, script, i, i + 1, x) && Stays(x in s.writeq, x in t.writeq, script, i, i + 1, x)
  {
    t := RoundIs(s, now, script, n);
    ExpireInv(s);
    CallbackStays(Logged(Expire(s), Firing(s.timeq[0], TIMEOUT)), script, |s.h.log|, x);
  }

  /** The i-th callback. */
  lemma {:induction false} CallbackStays(s: State, script: Script, i: nat, x: Id)
    requires Settled(s)
    ensures var t := ExecAll(s, script(i));
      && Settled(t) && t.h.log == s.h.log
      && Stays(x in s.readq, x in t.readq, script, i, i + 1, x) && Stays(x in s.writeq, x in t.writeq, script, i, i + 1, x)
  {
    var cs := script(i);
    ExecAllSettled(s, cs);
    ExecAllKeeps(s, cs, x);
    ExecAllLog(s, cs);
    assert Del(x) in cs ==> DeletedBy(script, i, i + 1, x);
    assert forall c :: c in cs && AddsTo(c, x) ==> AddedBy(script, i, i + 1, x);
  }

  /**
   Through the whole timeout loop an event stays on its queues as long as no callback of
   the loop deletes it; and exactly then, if none adds it either.
   */
  lemma {:induction false} TimeoutsStay(s: State, now: Time, script: Script, n: nat, x: Id)
    requires Settled(s)
    ensures var t := Timeouts(s, now, script, n);
      && |s.h.log| <= |t.h.log|
      && Stays(x in s.readq, x in t.readq, script, |s.h.log|, |t.h.log|, x)
      && Stays(x in s.writeq, x in t.writeq, script, |s.h.log|, |t.h.log|, x)
    decreases n
  {
    if n == 0 || !Due(s, now) {
      assert Timeouts(s, now, script, n) == s;
    } else {
      var t := RoundStays(s, now, script, n, x);
      TimeoutsStay(t, now, script, n - 1, x);
      var u := Timeouts(t, now, script, n - 1);
      StaysOn(x in s.readq, x in t.readq, x in u.readq, script, |s.h.log|, |u.h.log|, x);
      StaysOn(x in s.writeq, x in t.writeq, x in u.writeq, script, |s.h.log|, |u.h.log|, x);
    }
  }

  /** All that a timeout whose callback makes no calls changes. */
  lemma SilentRound(s: State, now: Time, script: Script)
    requires Due(s, now) && script(|s.h.log|) == []
    ensures var e, t := s.timeq[0], Timeouts(s, now, script, 1);
      && s.timeq == [e] + t.timeq && OthersKept(s, t, e)
      && t.readq == s.readq && t.writeq == s.writeq && t.addq == s.addq && t.link == s.link
      && t.inloop == s.inloop && t.fds == s.fds && t.fdsz == s.fdsz
      && Ev(t, e).fd == Ev(s, e).fd && Ev(t, e).events == Ev(s, e).events && Ev(t, e).deadline == Ev(s, e).deadline
      && (forall f :: f in Ev(t, e).flags <==> f in Ev(s, e).flags && f != TIMEOUT)
      && t.h.log == s.h.log + [Firing(e, TIMEOUT)]
  {
    var t := RoundIs(s, now, script, 1);
    assert Timeouts(t, now, script, 0) == t;
    ExpireEffect(s);
  }
}
