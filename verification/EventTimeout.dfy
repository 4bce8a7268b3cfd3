/** The waiting time handed to select, and the timeout loop. */
module EventTimeout {
  import opened Options
  import opened Tailq
  import opened Timeval
  import opened EventState
  import opened EventInvariant
  import opened EventLoop
  import opened EventStable

  const TIMEOUT_DEFAULT := 5

  /** timeout_next: its return value and what it leaves in `*tv`; `now` is None when the clock fails. */
  function TimeoutNext(s: State, now: Option<Time>, tv: Time): (int, Time) {
    if s.timeq == [] then (0, Time(TIMEOUT_DEFAULT, 0))
    else if now.None? then (-1, tv)
    else if Leq(Ev(s, s.timeq[0]).deadline, now.value) then (0, Time(0, 0))
    else (0, Minus(Ev(s, s.timeq[0]).deadline, now.value))
  }

  ghost predicate NormalTimes(s: State) {
    forall x :: x in s.timeq ==> Normal(Get(s.ev, x).deadline)
  }

  ghost predicate NormalCall(c: Call) {
    c.Add? && c.tv.Some? ==> Normal(c.tv.value) && Normal(c.now)
  }

  /** Nobody queued is due before the first in the queue. */
  lemma FirstIsEarliest(s: State, x: Id)
    requires Inv(s) && x in s.timeq
    ensures Leq(Ev(s, s.timeq[0]).deadline, Ev(s, x).deadline)
  {
    var i := IndexOf(s.timeq, x);
    if i > 0 {
      assert Before(s.ev, s.h.armed, s.timeq[0], s.timeq[i]);
    }
  }

  /** How long `x` still has to wait, in microseconds; never negative. */
  function Remaining(s: State, now: Time, x: Id): int {
    var d := Micros(Ev(s, x).deadline) - Micros(now);
    if d > 0 then d else 0
  }

  /**
   The wait is normalised, and it is the least remaining time of any queued deadline, or
   five seconds when there is none.
   */
  lemma WaitIsLeastRemaining(s: State, now: Time, tv: Time)
    requires Inv(s) && NormalTimes(s) && Normal(now)
    ensures var (code, wait) := TimeoutNext(s, Some(now), tv);
      && code == 0 && Normal(wait)
      && (s.timeq == [] ==> Micros(wait) == 5 * MICROS)
      && (s.timeq != [] ==> exists x :: x in s.timeq && Micros(wait) == Remaining(s, now, x))
      && (forall x :: x in s.timeq ==> Micros(wait) <= Remaining(s, now, x))
  {
    if s.timeq != [] {
      var wait, e := TimeoutNext(s, Some(now), tv).1, s.timeq[0];
      CompareMicros(Ev(s, e).deadline, now);
      MinusMicros(Ev(s, e).deadline, now);
      assert e in s.timeq && Micros(wait) == Remaining(s, now, e);
      forall x | x in s.timeq ensures Micros(wait) <= Remaining(s, now, x) {
        FirstIsEarliest(s, x);
        CompareMicros(Ev(s, e).deadline, Ev(s, x).deadline);
      }
    }
  }

  /** Without a deadline the wait is five seconds, and without a clock reading the buffer stays and -1 is returned. */
  lemma {:induction false} WaitCases(s: State, now: Option<Time>, tv: Time)
    ensures var (code, wait) := TimeoutNext(s, now, tv);
      && (code == 0 || code == -1) && (code == -1 <==> s.timeq != [] && now == None)
      && (code == -1 ==> wait == tv) && (s.timeq == [] ==> wait == Time(5, 0))
  {}

  lemma {:induction false} ArmMembers(s: State, e: Id, d: Time, x: Id)
    requires Inv(s)
    ensures x in Arm(s, e, d).timeq <==> x == e || x in s.timeq
  {
    var q := Without(s.timeq, e);
    WithoutKeeps(s.timeq, e);
    InsertedMembers(q, Place(s.ev, q, d), e, x);
  }

  lemma {:induction false} InsertedMembers(q: seq<Id>, k: nat, e: Id, x: Id)
    requires k <= |q|
    ensures x in q[..k] + [e] + q[k..] <==> x == e || x in q
  {
    assert q == q[..k] + q[k..];
  }

  /** The call sets a deadline for `x`. */
  predicate Sets(c: Call, x: Id) {
    c.Add? && c.e == x && c.tv.Some?
  }

  /** The same place among the deadlines: the same deadline, armed at the same time. */
  ghost predicate SameTime(s: State, t: State, x: Id) {
    Get(t.ev, x).deadline == Get(s.ev, x).deadline && Count(t.h.armed, x) == Count(s.h.armed, x)
  }

  /** The rest of event_add leaves deadlines alone. */
  lemma JoinTimes(s: State, e: Id, x: Id)
    ensures var t := if s.inloop then Note(Postpone(s, e), Requested(e)) else AddPost(s, e);
      t.timeq == s.timeq && SameTime(s, t, x)
  {}

  lemma {:induction false} AddTimes(s: State, e: Id, tv: Option<Time>, now: Time, x: Id)
    requires Inv(s)
    ensures var t := EventAdd(s, e, tv, now);
      && (x in t.timeq <==> x in s.timeq || (x == e && tv.Some?))
      && (if x == e && tv.Some? then Get(t.ev, x).deadline == Plus(now, tv.value) else SameTime(s, t, x))
  {
    if tv.Some? {
      ArmMembers(s, e, Plus(now, tv.value), x);
      JoinTimes(Arm(s, e, Plus(now, tv.value)), e, x);
    } else {
      JoinTimes(s, e, x);
    }
  }

  /** What a call does to the deadline of `x`. */
  lemma ExecTimes(s: State, c: Call, x: Id)
    requires Inv(s)
    ensures var t := Exec(s, c);
      && (x in t.timeq <==> Sets(c, x) || (x in s.timeq && c != Del(x)))
      && (if Sets(c, x) then Get(t.ev, x).deadline == Plus(c.now, c.tv.value) else SameTime(s, t, x))
  {
    match c {
      case Add(e, tv, now) => AddTimes(s, e, tv, now, x);
      case Del(e) => WithoutKeeps(s.timeq, e);
      case Set(e, fd, events) =>
    }
  }

  lemma ExecNormal(s: State, c: Call)
    requires Inv(s) && NormalTimes(s) && NormalCall(c)
    ensures NormalTimes(Exec(s, c))
  {
    forall x | x in Exec(s, c).timeq ensures Normal(Get(Exec(s, c).ev, x).deadline) {
      ExecTimes(s, c, x);
      if Sets(c, x) {
        PlusMicros(c.now, c.tv.value);
      }
    }
  }

  lemma EventDelNormal(s: State, e: Id)
    requires Inv(s) && NormalTimes(s)
    ensures NormalTimes(EventDel(s, e))
  {
    WithoutKeeps(s.timeq, e);
  }

  lemma DrainNormal(s: State)
    requires NormalTimes(s) && s.addq != []
    ensures NormalTimes(DrainOne(s))
  {
    var t := DrainOne(s);
    forall x | x in t.timeq ensures Normal(Get(t.ev, x).deadline) {
      JoinTimes(PopAdd(s).(inloop := false), s.addq[0], x);
    }
  }

  lemma NormalLoopStable()
    ensures LoopStable(NormalTimes, NormalCall)
  {
    forall s: State | Inv(s) && NormalTimes(s) && s.addq != [] ensures NormalTimes(DrainOne(s)) {
      DrainNormal(s);
    }
    forall s, c | Inv(s) && NormalTimes(s) && NormalCall(c) ensures NormalTimes(Exec(s, c)) {
      ExecNormal(s, c);
    }
    forall s, e | Inv(s) && NormalTimes(s) ensures NormalTimes(EventDel(s, e)) {
      EventDelNormal(s, e);
    }
  }

  /** With normalised arguments and clock, every queued deadline is normalised, over every run. */
  lemma {:induction false} RunNormal(acts: seq<Action>, script: Script)
    requires Settled(START) && Obeys(script, 0, |Run(START, acts, script).h.log|, NormalCall)
    requires forall a :: a in acts && a.Outside? ==> NormalCall(a.c)
    ensures NormalTimes(Run(START, acts, script))
  {
    NormalLoopStable();
    RunStable(NormalTimes, NormalCall, START, acts, script);
  }

  // ----- timeout_process -------------------------------------------------------------

  /** The queued events whose deadline has come. */
  ghost function DueSet(s: State, now: Time): set<Id> {
    set x | x in s.timeq && !Less(now, Get(s.ev, x).deadline)
  }

  /** The call sets no deadline that has come already. */
  ghost predicate ArmsLater(c: Call, now: Time) {
    c.Add? && c.tv.Some? ==> Less(now, Plus(c.now, c.tv.value))
  }

  /** No callback from the n-th up to the m-th sets a deadline that has come already. */
  ghost predicate LaterBetween(script: Script, n: nat, m: nat, now: Time) {
    forall k, c :: n <= k < m && c in script(k) ==> ArmsLater(c, now)
  }

  /** Whoever is due in `t` was due in `s`, with the same deadline, armed at the same time. */
  ghost predicate OldDue(s: State, t: State, now: Time) {
    forall x :: x in DueSet(t, now) ==> x in DueSet(s, now) && SameTime(s, t, x)
  }

  lemma ExecOldDue(s: State, t: State, now: Time, c: Call)
    requires Inv(t) && OldDue(s, t, now) && ArmsLater(c, now)
    ensures OldDue(s, Exec(t, c), now)
  {
    var u := Exec(t, c);
    forall x | x in DueSet(u, now) ensures x in DueSet(t, now) && SameTime(t, u, x) {
      ExecTimes(t, c, x);
    }
  }

  lemma OldDueStable(s: State, now: Time)
    ensures CallStable(t => OldDue(s, t, now), c => ArmsLater(c, now))
  {
    forall t, c | Inv(t) && OldDue(s, t, now) && ArmsLater(c, now) ensures OldDue(s, Exec(t, c), now) {
      ExecOldDue(s, t, now, c);
    }
  }

  /** A round uses up the event it fires and makes no other event due. */
  lemma RoundShrinks(s: State, now: Time, script: Script)
    requires Inv(s) && Due(s, now) && LaterBetween(script, |s.h.log|, |s.h.log| + 1, now)
    ensures var t := Fire(Expire(s), s.timeq[0], TIMEOUT, script);
      && Inv(t) && OldDue(s, t, now)
      && s.timeq[0] in DueSet(s, now) && s.timeq[0] !in DueSet(t, now)
      && t.h.log == s.h.log + [Firing(s.timeq[0], TIMEOUT)]
  {
    var e, s1 := s.timeq[0], Expire(s);
    var P, C := (t: State) => OldDue(s1, t, now), (c: Call) => ArmsLater(c, now);
    ExpireInv(s);
    OldDueStable(s1, now);
    assert P(s1);
    FireStable(P, C, s1, e, TIMEOUT, script);
    assert P(Fire(s1, e, TIMEOUT, script));
    assert e !in DueSet(s1, now);
    assert OldDue(s, s1, now);
  }

  /** The call deletes `x` or sets its deadline again. */
  predicate Touches(c: Call, x: Id) {
    c == Del(x) || Sets(c, x)
  }

  /** A callback between the i-th and the j-th touches `x`. */
  ghost predicate Touched(script: Script, i: nat, j: nat, x: Id) {
    exists k, c :: i <= k < j && c in script(k) && Touches(c, x)
  }

  lemma {:induction false} ExecAllKeepsDue(s: State, now: Time, cs: seq<Call>, x: Id)
    requires Inv(s) && x in DueSet(s, now) && forall c :: c in cs ==> !Touches(c, x)
    ensures x in DueSet(ExecAll(s, cs), now)
    decreases |cs|
  {
    if cs != [] {
      assert !Touches(cs[0], x);
      ExecTimes(s, cs[0], x);
      ExecInv(s, cs[0]);
      ExecAllKeepsDue(Exec(s, cs[0]), now, cs[1..], x);
    }
  }

  /** A due event that the round does not fire stays due, or the callback touched it. */
  lemma RoundKeeps(s: State, now: Time, script: Script, x: Id)
    requires Inv(s) && Due(s, now) && x in DueSet(s, now) && x != s.timeq[0]
    ensures var n := |s.h.log|;
      x in DueSet(Fire(Expire(s), s.timeq[0], TIMEOUT, script), now) || Touched(script, n, n + 1, x)
  {
    var n, s1 := |s.h.log|, Logged(Expire(s), Firing(s.timeq[0], TIMEOUT));
    if !Touched(script, n, n + 1, x) {
      ExpireInv(s);
      assert Inv(s1);
      assert x in s.timeq[1..] by {
        var i := IndexOf(s.timeq, x);
        assert s.timeq[1..][i - 1] == x;
      }
      assert forall c :: c in script(n) ==> !Touches(c, x);
      ExecAllKeepsDue(s1, now, script(n), x);
    }
  }

  lemma {:induction false} ExecAllEndsDue(s: State, now: Time, cs: seq<Call>, x: Id)
    requires Inv(s) && (forall c :: c in cs ==> ArmsLater(c, now))
    requires x !in DueSet(s, now) || exists c :: c in cs && Touches(c, x)
    ensures x !in DueSet(ExecAll(s, cs), now)
    decreases |cs|
  {
    if cs != [] {
      assert ArmsLater(cs[0], now);
      ExecTimes(s, cs[0], x);
      ExecInv(s, cs[0]);
      ExecAllEndsDue(Exec(s, cs[0]), now, cs[1..], x);
    }
  }

  /** An event that the round's callback touches is not due after it. */
  lemma RoundTouches(s: State, now: Time, script: Script, x: Id)
    requires Inv(s) && Due(s, now) && LaterBetween(script, |s.h.log|, |s.h.log| + 1, now)
    requires Touched(script, |s.h.log|, |s.h.log| + 1, x)
    ensures x !in DueSet(Fire(Expire(s), s.timeq[0], TIMEOUT, script), now)
  {
    var s1 := Logged(Expire(s), Firing(s.timeq[0], TIMEOUT));
    ExpireInv(s);
    assert Inv(s1);
    ExecAllEndsDue(s1, now, script(|s.h.log|), x);
  }

  /**
   One round of the loop, by its effect on the due events alone: of the other due events,
   it leaves due exactly those that its callback does not touch.
   */
  ghost predicate RoundEffect(s: State, now: Time, script: Script, m: State) {
    && s.timeq != [] && OldDue(s, m, now)
    && Extends(s.h.log, m.h.log) && |m.h.log| == |s.h.log| + 1
    && m.h.log[|s.h.log|] == Firing(s.timeq[0], TIMEOUT)
    && s.timeq[0] in DueSet(s, now) && s.timeq[0] !in DueSet(m, now)
    && (forall x :: x in DueSet(s, now) && x != s.timeq[0] ==>
          (x in DueSet(m, now) <==> !Touched(script, |s.h.log|, |s.h.log| + 1, x)))
  }

  lemma {:induction false} Round(s: State, now: Time, script: Script, n: nat) returns (m: State)
    requires Inv(s) && n > 0 && Due(s, now)
    requires LaterBetween(script, |s.h.log|, |Timeouts(s, now, script, n).h.log|, now)
    ensures Timeouts(s, now, script, n) == Timeouts(m, now, script, n - 1)
    ensures Inv(m) && RoundEffect(s, now, script, m)
  {
    m := Fire(Expire(s), s.timeq[0], TIMEOUT, script);
    FireLog(Expire(s), s.timeq[0], TIMEOUT, script);
    TimeoutsLog(m, now, script, n - 1);
    RoundShrinks(s, now, script);
    forall x | x in DueSet(s, now) && x != s.timeq[0]
      ensures x in DueSet(m, now) <==> !Touched(script, |s.h.log|, |s.h.log| + 1, x)
    {
      RoundKeeps(s, now, script, x);
      if Touched(script, |s.h.log|, |s.h.log| + 1, x) {
        RoundTouches(s, now, script, x);
      }
    }
  }

  /**
   If the callbacks it makes set no deadline that has come already, the timeout loop ends,
   after at most as many rounds as events were due, and leaves only deadlines still to come.
   */
  lemma {:induction false} TimeoutsEnd(s: State, now: Time, script: Script, n: nat)
    requires Inv(s) && LaterBetween(script, |s.h.log|, |Timeouts(s, now, script, n).h.log|, now) && |DueSet(s, now)| <= n
    ensures var t := Timeouts(s, now, script, n);
      !Due(t, now) && forall x :: x in t.timeq ==> Less(now, Get(t.ev, x).deadline)
    decreases n
  {
    if !Due(s, now) {
      Ended(s, now, script, n);
      NoneDue(s, now);
    } else {
      assert s.timeq[0] in DueSet(s, now);
      var m := Round(s, now, script, n);
      FewerDue(s, now, script, m);
      TimeoutsEnd(m, now, script, n - 1);
    }
  }

  lemma NoneDue(s: State, now: Time)
    requires Inv(s) && !Due(s, now)
    ensures forall x :: x in s.timeq ==> Less(now, Get(s.ev, x).deadline)
  {
    forall x | x in s.timeq ensures Less(now, Get(s.ev, x).deadline) {
      FirstIsEarliest(s, x);
    }
  }

  lemma FewerDue(s: State, now: Time, script: Script, m: State)
    requires RoundEffect(s, now, script, m)
    ensures |DueSet(m, now)| < |DueSet(s, now)| && |m.h.log| == |s.h.log| + 1
  {
    assert DueSet(m, now) <= DueSet(s, now);
    SmallerSet(DueSet(m, now), DueSet(s, now), s.timeq[0]);
  }

  // ----- when the loop ends ----------------------------------------------------------

  lemma {:induction false} TimeoutsOn(s: State, now: Time, script: Script, a: nat, b: nat) returns (t: State)
    requires 0 < a <= b && Due(s, now)
    ensures Timeouts(s, now, script, a) == Timeouts(t, now, script, a - 1)
    ensures Timeouts(s, now, script, b) == Timeouts(t, now, script, b - 1)
  {
    t := Fire(Expire(s), s.timeq[0], TIMEOUT, script);
  }

  /** The loop makes finitely many rounds. */
  ghost predicate Ends(s: State, now: Time, script: Script) {
    exists n: nat :: !Due(Timeouts(s, now, script, n), now)
  }

  /** Rounds enough for the loop, if it ends. */
  ghost function Rounds(s: State, now: Time, script: Script): (n: nat)
    ensures Ends(s, now, script) ==> !Due(Timeouts(s, now, script, n), now)
  {
    if Ends(s, now, script) then
      var n: nat :| !Due(Timeouts(s, now, script, n), now);
      n
    else 0
  }

  /** Of the callbacks that the loop makes, none from the n-th on sets a deadline that has come already. */
  ghost predicate LaterFrom(s: State, now: Time, script: Script, n: nat) {
    forall k: nat :: LaterBetween(script, n, |Timeouts(s, now, script, k).h.log|, now)
  }

  lemma {:induction false} FewerLog(s: State, now: Time, script: Script, k: nat, n: nat)
    requires k <= n
    ensures |Timeouts(s, now, script, k).h.log| <= |Timeouts(s, now, script, n).h.log|
    decreases k
  {
    if k == 0 || !Due(s, now) {
      Ended(s, now, script, k);
      TimeoutsLog(s, now, script, n);
    } else {
      var t := TimeoutsOn(s, now, script, k, n);
      FewerLog(t, now, script, k - 1, n - 1);
    }
  }

  /** Once the loop has ended, more rounds make no difference. */
  lemma {:induction false} EndedSame(s: State, now: Time, script: Script, n: nat, k: nat)
    requires n <= k && !Due(Timeouts(s, now, script, n), now)
    ensures Timeouts(s, now, script, k) == Timeouts(s, now, script, n)
    decreases n
  {
    if n == 0 || !Due(s, now) {
      Ended(s, now, script, n);
      Ended(s, now, script, k);
    } else {
      var t := TimeoutsOn(s, now, script, n, k);
      EndedSame(t, now, script, n - 1, k - 1);
    }
  }

  lemma {:induction false} Ended(s: State, now: Time, script: Script, n: nat)
    requires n == 0 || !Due(s, now)
    ensures Timeouts(s, now, script, n) == s
  {}

  lemma {:induction false} EndedLog(s: State, now: Time, script: Script, n: nat, k: nat)
    requires !Due(Timeouts(s, now, script, n), now)
    ensures |Timeouts(s, now, script, k).h.log| <= |Timeouts(s, now, script, n).h.log|
  {
    if k <= n {
      FewerLog(s, now, script, k, n);
    } else {
      EndedSame(s, now, script, n, k);
    }
  }

  /** One round on, there is one callback less to wait for. */
  lemma {:induction false} LaterOn(s: State, now: Time, script: Script, n: nat) returns (t: State)
    requires Inv(s) && LaterFrom(s, now, script, n) && Due(s, now)
    ensures Inv(t) && LaterFrom(t, now, script, n) && |t.h.log| == |s.h.log| + 1
    ensures forall k: nat :: Timeouts(s, now, script, k + 1) == Timeouts(t, now, script, k)
  {
    t := Fire(Expire(s), s.timeq[0], TIMEOUT, script);
    ExpireInv(s);
    FireInv(Expire(s), s.timeq[0], TIMEOUT, script);
    FireLog(Expire(s), s.timeq[0], TIMEOUT, script);
    forall k: nat ensures Timeouts(s, now, script, k + 1) == Timeouts(t, now, script, k) {}
    forall k: nat ensures LaterBetween(script, n, |Timeouts(t, now, script, k).h.log|, now) {
      assert LaterBetween(script, n, |Timeouts(s, now, script, k + 1).h.log|, now);
    }
  }

  lemma {:induction false} LaterEnds(s: State, now: Time, script: Script, n: nat) returns (k: nat)
    requires Inv(s) && LaterFrom(s, now, script, n)
    ensures !Due(Timeouts(s, now, script, k), now)
    decreases n - |s.h.log|
  {
    if !Due(s, now) {
      k := 0;
    } else if n <= |s.h.log| {
      k := |DueSet(s, now)|;
      assert LaterBetween(script, n, |Timeouts(s, now, script, k).h.log|, now);
      TimeoutsEnd(s, now, script, k);
    } else {
      var t := LaterOn(s, now, script, n);
      var j := LaterEnds(t, now, script, n);
      k := j + 1;
    }
  }

  /**
   The timeout loop ends exactly if only finitely many of the callbacks that it makes set a
   deadline that has come already.
   */
  lemma TimeoutsEndExactly(s: State, now: Time, script: Script)
    requires Inv(s)
    ensures Ends(s, now, script) <==> exists n: nat :: LaterFrom(s, now, script, n)
  {
    if Ends(s, now, script) {
      var n: nat :| !Due(Timeouts(s, now, script, n), now);
      forall k: nat ensures |Timeouts(s, now, script, k).h.log| <= |Timeouts(s, now, script, n).h.log| {
        EndedLog(s, now, script, n, k);
      }
      assert LaterFrom(s, now, script, |Timeouts(s, now, script, n).h.log|);
    }
    if n: nat :| LaterFrom(s, now, script, n) {
      var k := LaterEnds(s, now, script, n);
    }
  }

  // ----- which deadlines fire --------------------------------------------------------

  lemma FirstComesBefore(s: State, x: Id)
    requires Inv(s) && x in s.timeq && x != s.timeq[0]
    ensures Before(s.ev, s.h.armed, s.timeq[0], x)
  {
    var p := IndexOf(s.timeq, x);
    assert Before(s.ev, s.h.armed, s.timeq[0], s.timeq[p]);
  }

  lemma {:induction false} TouchedWiden(script: Script, i: nat, j: nat, i': nat, j': nat, x: Id)
    requires Touched(script, i, j, x) && i' <= i && j <= j'
    ensures Touched(script, i', j', x)
  {
    var k, c :| i <= k < j && c in script(k) && Touches(c, x);
    assert i' <= k < j' && c in script(k) && Touches(c, x);
  }

  /** One of the first `i` callbacks, all of events that come before `x`, deletes it or arms it again. */
  ghost predicate PreemptedBy(s: State, es: seq<Id>, script: Script, x: Id, i: nat) {
    && i <= |es| && Touched(script, |s.h.log|, |s.h.log| + i, x)
    && forall j :: 0 <= j < i ==> Before(s.ev, s.h.armed, es[j], x)
  }

  /** Before its turn comes, `x` is deleted or armed again. */
  ghost predicate Preempted(s: State, es: seq<Id>, script: Script, x: Id) {
    exists i: nat :: PreemptedBy(s, es, script, x, i)
  }

  /**
   The loop from `s` to `t` called exactly the events `es`: all of them due in `s`, in
   queue order (by deadline, and by latest arming among equals, so none of them twice),
   and none after an earlier callback deleted it or armed it again.  Every event due in `s`
   is among them, or was preempted in that way, or is still due.
   */
  ghost predicate Fired(s: State, es: seq<Id>, t: State, now: Time, script: Script) {
    && |t.h.log| == |s.h.log| + |es|
    && (forall k :: |s.h.log| <= k < |t.h.log| ==> t.h.log[k] == Firing(es[k - |s.h.log|], TIMEOUT))
    && (forall x :: x in es ==> x in DueSet(s, now))
    && (forall i, j :: 0 <= i < j < |es| ==> Before(s.ev, s.h.armed, es[i], es[j]))
    && (forall i :: 0 <= i < |es| ==> !Touched(script, |s.h.log|, |s.h.log| + i, es[i]))
    && (forall x :: x in DueSet(s, now) ==> x in es || Preempted(s, es, script, x) || x in DueSet(t, now))
  }

  lemma {:induction false} FiredOrder(s: State, m: State, es: seq<Id>, t: State, now: Time, script: Script, i: nat, j: nat)
    requires Inv(s) && RoundEffect(s, now, script, m) && Fired(m, es, t, now, script) && i < j <= |es|
    ensures var es' := [s.timeq[0]] + es; Before(s.ev, s.h.armed, es'[i], es'[j])
  {
    assert es[j - 1] in es;
    if i == 0 {
      FirstComesBefore(s, es[j - 1]);
    } else {
      assert es[i - 1] in es;
      assert Before(m.ev, m.h.armed, es[i - 1], es[j - 1]);
    }
  }

  lemma {:induction false} FiredUntouched(s: State, m: State, es: seq<Id>, t: State, now: Time, script: Script, i: nat)
    requires RoundEffect(s, now, script, m) && Fired(m, es, t, now, script) && i < |es|
    ensures !Touched(script, |s.h.log|, |s.h.log| + (i + 1), es[i])
  {
    assert es[i] in es && es[i] in DueSet(m, now) && es[i] in DueSet(s, now);
    assert !Touched(script, |m.h.log|, |m.h.log| + i, es[i]);
    TouchedSplit(script, |s.h.log|, |s.h.log| + (i + 1), es[i]);
  }

  lemma {:induction false} TouchedSplit(script: Script, i: nat, j: nat, x: Id)
    requires i < j
    ensures Touched(script, i, j, x) <==> Touched(script, i, i + 1, x) || Touched(script, i + 1, j, x)
  {
    if Touched(script, i, j, x) {
      var k, c :| i <= k < j && c in script(k) && Touches(c, x);
      assert if k == i then i <= k < i + 1 else i + 1 <= k < j;
    }
  }

  /** Whoever the rest of the loop leaves out for good was preempted, counting from this round. */
  lemma {:induction false} PreemptedOn(s: State, m: State, es: seq<Id>, now: Time, script: Script, x: Id)
    requires Inv(s) && RoundEffect(s, now, script, m) && x in DueSet(s, now) && x != s.timeq[0]
    requires forall y :: y in es ==> y in DueSet(m, now)
    requires x !in DueSet(m, now) || Preempted(m, es, script, x)
    ensures Preempted(s, [s.timeq[0]] + es, script, x)
  {
    var e, n := s.timeq[0], |s.h.log|;
    var es' := [e] + es;
    FirstComesBefore(s, x);
    if x !in DueSet(m, now) {
      assert PreemptedBy(s, es', script, x, 1);
    } else {
      var i: nat :| PreemptedBy(m, es, script, x, i);
      TouchedWiden(script, n + 1, n + 1 + i, n, n + (i + 1), x);
      forall j | 0 <= j < i + 1 ensures Before(s.ev, s.h.armed, es'[j], x) {
        if j > 0 {
          assert es'[j] == es[j - 1] && es[j - 1] in es;
          assert Before(m.ev, m.h.armed, es[j - 1], x);
        }
      }
      assert PreemptedBy(s, es', script, x, i + 1);
    }
  }

  /** One more round in front. */
  lemma {:induction false} FiredStep(s: State, m: State, es: seq<Id>, t: State, now: Time, script: Script)
    requires Inv(s) && RoundEffect(s, now, script, m) && Fired(m, es, t, now, script) && Extends(m.h.log, t.h.log)
    ensures Fired(s, [s.timeq[0]] + es, t, now, script)
  {
    var e := s.timeq[0];
    var es' := [e] + es;
    forall i, j | 0 <= i < j < |es'| ensures Before(s.ev, s.h.armed, es'[i], es'[j]) {
      FiredOrder(s, m, es, t, now, script, i, j);
    }
    forall i | 0 <= i < |es'| ensures !Touched(script, |s.h.log|, |s.h.log| + i, es'[i]) {
      if i > 0 {
        FiredUntouched(s, m, es, t, now, script, i - 1);
      }
    }
    forall x | x in DueSet(s, now) ensures x in es' || Preempted(s, es', script, x) || x in DueSet(t, now) {
      FiredCovers(s, m, es, t, now, script, x);
    }
  }

  lemma {:induction false} FiredCovers(s: State, m: State, es: seq<Id>, t: State, now: Time, script: Script, x: Id)
    requires Inv(s) && RoundEffect(s, now, script, m) && Fired(m, es, t, now, script) && x in DueSet(s, now)
    ensures var es' := [s.timeq[0]] + es; x in es' || Preempted(s, es', script, x) || x in DueSet(t, now)
  {
    var es' := [s.timeq[0]] + es;
    assert es'[0] == s.timeq[0] && (x in es ==> x in es');
    if x !in es' && x !in DueSet(t, now) {
      PreemptedOn(s, m, es, now, script, x);
    }
  }

  /** Which deadlines fire, if the callbacks that the loop makes set none that has come already. */
  lemma {:induction false} TimeoutsFire(s: State, now: Time, script: Script, n: nat) returns (es: seq<Id>)
    requires Inv(s) && LaterBetween(script, |s.h.log|, |Timeouts(s, now, script, n).h.log|, now)
    ensures Fired(s, es, Timeouts(s, now, script, n), now, script)
    ensures Extends(s.h.log, Timeouts(s, now, script, n).h.log)
    decreases n
  {
    TimeoutsLog(s, now, script, n);
    if n == 0 || !Due(s, now) {
      assert Timeouts(s, now, script, n) == s;
      es := [];
    } else {
      var m := Round(s, now, script, n);
      var rest := TimeoutsFire(m, now, script, n - 1);
      FiredStep(s, m, rest, Timeouts(m, now, script, n - 1), now, script);
      es := [s.timeq[0]] + rest;
    }
  }

  /** When the loop has ended: an event due at its start is called exactly if it was not preempted. */
  lemma {:induction false} FiredExactly(s: State, es: seq<Id>, t: State, now: Time, script: Script, x: Id)
    requires Fired(s, es, t, now, script) && DueSet(t, now) == {} && x in DueSet(s, now)
    ensures x in es <==> !Preempted(s, es, script, x)
  {
    if x in es {
      var p :| 0 <= p < |es| && es[p] == x;
      forall i: nat ensures !PreemptedBy(s, es, script, x, i) {
        PreemptedTouched(s, es, script, p, i);
      }
    }
  }

  lemma {:induction false} PreemptedTouched(s: State, es: seq<Id>, script: Script, p: nat, i: nat)
    requires p < |es|
    ensures PreemptedBy(s, es, script, es[p], i) ==> Touched(script, |s.h.log|, |s.h.log| + p, es[p])
  {
    var n, x := |s.h.log|, es[p];
    assert !Before(s.ev, s.h.armed, x, x);
    if i <= p && Touched(script, n, n + i, x) {
      TouchedWiden(script, n, n + i, n, n + p, x);
    }
  }

  /** Once the loop has ended, each event that was due when it started was called exactly if it was not preempted. */
  lemma {:induction false} TimeoutsFireExactly(s: State, now: Time, script: Script, n: nat) returns (es: seq<Id>)
    requires Inv(s) && LaterBetween(script, |s.h.log|, |Timeouts(s, now, script, n).h.log|, now) && |DueSet(s, now)| <= n
    ensures Fired(s, es, Timeouts(s, now, script, n), now, script)
    ensures forall x :: x in DueSet(s, now) ==> (x in es <==> !Preempted(s, es, script, x))
  {
    var t := Timeouts(s, now, script, n);
    TimeoutsEnd(s, now, script, n);
    assert DueSet(t, now) == {};
    es := TimeoutsFire(s, now, script, n);
    forall x | x in DueSet(s, now) ensures x in es <==> !Preempted(s, es, script, x) {
      FiredExactly(s, es, t, now, script, x);
    }
  }

  lemma SmallerSet<T>(a: set<T>, b: set<T>, e: T)
    requires e in b && e !in a && a <= b
    ensures |a| < |b|
  {
    assert a <= b - {e};
    SubsetSize(a, b - {e});
  }

  lemma {:induction false} SubsetSize<T>(a: set<T>, b: set<T>)
    requires a <= b
    ensures |a| <= |b|
    decreases a
  {
    if a != {} {
      var x :| x in a;
      SubsetSize(a - {x}, b - {x});
    }
  }
}
