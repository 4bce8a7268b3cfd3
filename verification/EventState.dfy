/**
 The reactor's state and its operations, over queue contents.

 The four queues are sequences.  `link` is the `ev_read_next` field of every event, live
 or left behind by a removal, because both dispatch passes walk it.  `History` holds
 auxiliary facts that no operation branches on, except that the number of callbacks made
 so far selects what the next callback does.
 */
module EventState {
  import opened Options
  import opened Tailq
  import opened Timeval

  datatype Flag = TIMEOUT | READ | WRITE | ADD | INIT

  datatype Event = Event(fd: int, events: set<Flag>, deadline: Time, flags: set<Flag>)

  /** Event memory that nothing has written yet. */
  const BLANK := Event(0, {}, Time(0, 0), {})

  datatype Firing = Firing(e: Id, kind: Flag)

  datatype Op = Requested(e: Id) | Deleted(e: Id)

  datatype History = History(
    stamp: map<Id, nat>,   // when an event last entered the read queue
    inserts: nat,          // insertions into the read queue so far
    armed: map<Id, nat>,   // when an event's deadline was last set
    arms: nat,             // deadlines set so far
    log: seq<Firing>,      // callbacks made
    ops: seq<Op>)          // event_add and event_del calls of the current passes

  datatype State = State(
    ev: map<Id, Event>,
    readq: seq<Id>,
    writeq: seq<Id>,
    timeq: seq<Id>,
    addq: seq<Id>,
    link: map<Id, Option<Id>>,
    inloop: bool,
    fds: int,
    fdsz: int,
    h: History)

  /** event_init, on zeroed memory. */
  const START := State(map[], [], [], [], [], map[], false, 0, 0, History(map[], 0, map[], 0, [], []))

  function Get(ev: map<Id, Event>, e: Id): Event {
    if e in ev then ev[e] else BLANK
  }

  function Count(m: map<Id, nat>, e: Id): nat {
    if e in m then m[e] else 0
  }

  function Ev(s: State, e: Id): Event {
    Get(s.ev, e)
  }

  function Link(s: State, e: Id): Option<Id> {
    At(s.link, e)
  }

  function Stamp(s: State, e: Id): nat {
    Count(s.h.stamp, e)
  }

  function PutEv(s: State, e: Id, v: Event): State {
    s.(ev := s.ev[e := v])
  }

  function SetFlag(s: State, e: Id, f: Flag): State {
    PutEv(s, e, Ev(s, e).(flags := Ev(s, e).flags + {f}))
  }

  /** Is the event on none of the four queues, as its flags tell it? */
  predicate Unqueued(s: State, e: Id) {
    var f := Ev(s, e).flags;
    TIMEOUT !in f && READ !in f && WRITE !in f && ADD !in f
  }

  // ----- event_del ---------------------------------------------------------------

  function Note(s: State, op: Op): State {
    if s.inloop then s.(h := s.h.(ops := s.h.ops + [op])) else s
  }

  /** The event leaves every queue and its four queue flags are cleared. */
  function EventDel(s: State, e: Id): State {
    Note(s.(ev := s.ev[e := Ev(s, e).(flags := Ev(s, e).flags - {ADD, TIMEOUT, READ, WRITE})],
            addq := Without(s.addq, e),
            timeq := Without(s.timeq, e),
            readq := Without(s.readq, e),
            link := Unlink(s.link, s.readq, e),
            writeq := Without(s.writeq, e)), Deleted(e))
  }

  // ----- event_add ---------------------------------------------------------------

  /** The first position whose deadline is not before `d`. */
  function Place(ev: map<Id, Event>, q: seq<Id>, d: Time): (i: nat)
    ensures i <= |q|
    ensures forall k :: 0 <= k < i ==> Less(Get(ev, q[k]).deadline, d)
    ensures i < |q| ==> Leq(d, Get(ev, q[i]).deadline)
  {
    if q == [] || Leq(d, Get(ev, q[0]).deadline) then 0 else 1 + Place(ev, q[1..], d)
  }

  /** The event gets a deadline and position `i` among the other deadlines. */
  function ArmAt(s: State, e: Id, d: Time, i: nat): State
    requires i <= |Without(s.timeq, e)|
  {
    var q := Without(s.timeq, e);
    s.(ev := s.ev[e := Ev(s, e).(deadline := d, flags := Ev(s, e).flags + {TIMEOUT})],
       timeq := q[..i] + [e] + q[i..],
       h := s.h.(armed := s.h.armed[e := s.h.arms + 1], arms := s.h.arms + 1))
  }

  function Arm(s: State, e: Id, d: Time): State {
    ArmAt(s, e, d, Place(s.ev, Without(s.timeq, e), d))
  }

  function Postpone(s: State, e: Id): State {
    if ADD in Ev(s, e).flags then s else SetFlag(s.(addq := s.addq + [e]), e, ADD)
  }

  function AddRead(s: State, e: Id): State {
    if READ in Ev(s, e).events && READ !in Ev(s, e).flags
    then SetFlag(s.(readq := s.readq + [e], link := LinkTail(s.link, s.readq, e),
                    h := s.h.(stamp := s.h.stamp[e := s.h.inserts + 1], inserts := s.h.inserts + 1)), e, READ)
    else s
  }

  function AddWrite(s: State, e: Id): State {
    if WRITE in Ev(s, e).events && WRITE !in Ev(s, e).flags
    then SetFlag(s.(writeq := s.writeq + [e]), e, WRITE)
    else s
  }

  function AddPost(s: State, e: Id): State {
    AddWrite(AddRead(s, e), e)
  }

  function EventAdd(s: State, e: Id, tv: Option<Time>, now: Time): State {
    var s1 := if tv.Some? then Arm(s, e, Plus(now, tv.value)) else s;
    if s1.inloop then Note(Postpone(s1, e), Requested(e)) else AddPost(s1, e)
  }

  // ----- event_set and callbacks ---------------------------------------------------

  function EventSet(s: State, e: Id, fd: int, events: set<Flag>): State {
    PutEv(s, e, Ev(s, e).(fd := fd, events := events, flags := {INIT}))
  }

  /** One call into the library; `now` is what gettimeofday answers. */
  datatype Call =
    | Add(e: Id, tv: Option<Time>, now: Time)
    | Del(e: Id)
    | Set(e: Id, fd: int, events: set<Flag>)

  /**
   What a call does.  Clients do not call event_set on a queued event; the model drops
   such a call, so that every list of calls is the behaviour of some allowed client.
   */
  function Exec(s: State, c: Call): State {
    match c
    case Add(e, tv, now) => EventAdd(s, e, tv, now)
    case Del(e) => EventDel(s, e)
    case Set(e, fd, events) => if Unqueued(s, e) then EventSet(s, e, fd, events) else s
  }

  function ExecAll(s: State, cs: seq<Call>): State
    decreases |cs|
  {
    if cs == [] then s else ExecAll(Exec(s, cs[0]), cs[1..])
  }

  /** What the k-th callback of a run does: any finite list of calls. */
  type Script = nat -> seq<Call>

  /** Call the event's callback. */
  function Fire(s: State, e: Id, kind: Flag, script: Script): State {
    ExecAll(s.(h := s.h.(log := s.h.log + [Firing(e, kind)])), script(|s.h.log|))
  }
}
