/** Deferred actions: scope-exit objects that survive moves and run once, in reverse. */
module Defer {
  import opened Options

  /** A visible effect, by what it prints. */
  type Label = string

  /** A program over labelled actions; a loop is a sequence of blocks. */
  datatype Stmt =
    | Act(a: Label)                     // something with a visible effect
    | Defer(body: Code, moves: nat)    // register `body`, through so many moves
    | Block(inner: Code)               // a nested scope
    | Return                           // leave the enclosing function

  datatype Code = End | Then(first: Stmt, rest: Code)

  // ----- the meaning -----------------------------------------------------------------

  /** What code does before its scope ends, and the traces of what it has registered, in order. */
  datatype Outcome = Outcome(trace: seq<Label>, deferred: seq<seq<Label>>, returned: bool)

  /** The registered traces, last first. */
  function Unwind(ds: seq<seq<Label>>): seq<Label> {
    if ds == [] then [] else Unwind(ds[1..]) + ds[0]
  }

  function Eval(c: Code): Outcome
    decreases c, 0
  {
    match c
    case End => Outcome([], [], false)
    case Then(Act(a), rest) =>
      var r := Eval(rest);
      r.(trace := [a] + r.trace)
    case Then(Defer(body, _), rest) =>
      var r := Eval(rest);
      r.(deferred := [Scope(body)] + r.deferred)
    case Then(Block(b), rest) =>
      if Eval(b).returned then Outcome(Scope(b), [], true)
      else
        var r := Eval(rest);
        r.(trace := Scope(b) + r.trace)
    case Then(Return, _) => Outcome([], [], true)
  }

  /** A scope, or a whole deferred function: its own actions, then what it registered, in reverse. */
  function Scope(c: Code): seq<Label>
    decreases c, 1
  {
    Eval(c).trace + Unwind(Eval(c).deferred)
  }

  function Size(c: Code): nat {
    match c
    case End => 0
    case Then(s, rest) => 1 + StmtSize(s) + Size(rest)
  }

  function StmtSize(s: Stmt): nat {
    match s
    case Defer(body, _) => 1 + Size(body)
    case Block(b) => 1 + Size(b)
    case _ => 0
  }

  // ----- properties of the meaning ---------------------------------------------------

  function Append(c: Code, d: Code): Code {
    match c
    case End => d
    case Then(s, rest) => Then(s, Append(rest, d))
  }

  lemma {:induction false} UnwindAppend(a: seq<seq<Label>>, b: seq<seq<Label>>)
    ensures Unwind(a + b) == Unwind(b) + Unwind(a)
  {
    if a == [] {
      assert a + b == b;
    } else {
      assert (a + b)[1..] == a[1..] + b;
      UnwindAppend(a[1..], b);
    }
  }

  /** Early return: the code after it registers and does nothing. */
  lemma {:induction false} ReturnCutsOff(c: Code, d: Code)
    ensures Eval(Append(c, Then(Return, d))) == Eval(c).(returned := true)
    ensures Scope(Append(c, Then(Return, d))) == Scope(c)
  {
    if c.Then? {
      ReturnCutsOff(c.rest, d);
    }
  }

  function Scopes(bodies: seq<Code>): seq<seq<Label>> {
    seq(|bodies|, i requires 0 <= i < |bodies| => Scope(bodies[i]))
  }

  /** A sequence from its last position to its first. */
  function Backwards<T>(s: seq<T>): (r: seq<T>)
    ensures |r| == |s| && forall i :: 0 <= i < |s| ==> r[i] == s[|s| - 1 - i]
  {
    seq(|s|, i requires 0 <= i < |s| => s[|s| - 1 - i])
  }

  /** One trace after the other. */
  function Flatten(ds: seq<seq<Label>>): seq<Label> {
    if ds == [] then [] else ds[0] + Flatten(ds[1..])
  }

  lemma {:induction false} FlattenSnoc(ds: seq<seq<Label>>, d: seq<Label>)
    ensures Flatten(ds + [d]) == Flatten(ds) + d
  {
    if ds == [] {
      assert [d][1..] == [];
    } else {
      assert (ds + [d])[1..] == ds[1..] + [d];
      FlattenSnoc(ds[1..], d);
    }
  }

  lemma {:induction false} UnwindIsBackwards(ds: seq<seq<Label>>)
    ensures Unwind(ds) == Flatten(Backwards(ds))
  {
    if ds != [] {
      UnwindIsBackwards(ds[1..]);
      assert Backwards(ds) == Backwards(ds[1..]) + [ds[0]];
      FlattenSnoc(Backwards(ds[1..]), ds[0]);
    }
  }

  /** The bodies that a scope's own statements register, in order, up to a return. */
  function Registered(c: Code): seq<Code> {
    match c
    case End => []
    case Then(Defer(body, _), rest) => [body] + Registered(rest)
    case Then(Block(b), rest) => if Returns(b) then [] else Registered(rest)
    case Then(Return, _) => []
    case Then(_, rest) => Registered(rest)
  }

  lemma {:induction false} RegisteredInOrder(c: Code)
    ensures Eval(c).deferred == Scopes(Registered(c))
  {
    if c.Then? {
      RegisteredInOrder(c.rest);
      if c.first.Block? {
        ReturnsIsReturned(c.first.inner);
      }
    }
  }

  /** In every scope the registered actions come after the rest, from the last registered to the first. */
  lemma {:induction false} RunsInReverse(c: Code)
    ensures Scope(c) == Eval(c).trace + Flatten(Backwards(Scopes(Registered(c))))
  {
    RegisteredInOrder(c);
    UnwindIsBackwards(Scopes(Registered(c)));
  }

  /**
   Every action counted once per execution of the statement that makes it: a registered body
   counts once, and what follows a return not at all.  Order and scopes play no part.
   */
  function Tally(c: Code): multiset<Label> {
    match c
    case End => multiset{}
    case Then(Act(a), rest) => multiset{a} + Tally(rest)
    case Then(Defer(body, _), rest) => Tally(body) + Tally(rest)
    case Then(Block(b), rest) => if Returns(b) then Tally(b) else Tally(b) + Tally(rest)
    case Then(Return, _) => multiset{}
  }

  /** Does the code reach a return? */
  predicate Returns(c: Code) {
    match c
    case End => false
    case Then(Return, _) => true
    case Then(Block(b), rest) => Returns(b) || Returns(rest)
    case Then(_, rest) => Returns(rest)
  }

  lemma {:induction false} ReturnsIsReturned(c: Code)
    ensures Returns(c) <==> Eval(c).returned
  {
    match c
    case End =>
    case Then(Block(b), rest) => ReturnsIsReturned(b); ReturnsIsReturned(rest);
    case Then(_, rest) => ReturnsIsReturned(rest);
  }

  /** What a scope's trace is, statement by statement. */
  lemma {:induction false} ScopeStep(s: Stmt, rest: Code)
    ensures match s
      case Act(a) => Scope(Then(s, rest)) == [a] + Scope(rest)
      case Defer(body, _) => Scope(Then(s, rest)) == Scope(rest) + Scope(body)
      case Block(b) => Scope(Then(s, rest)) == if Returns(b) then Scope(b) else Scope(b) + Scope(rest)
      case Return => Scope(Then(s, rest)) == []
  {
    match s
    case Act(a) =>
    case Defer(body, _) => assert ([Scope(body)] + Eval(rest).deferred)[1..] == Eval(rest).deferred;
    case Block(b) => ReturnsIsReturned(b);
    case Return =>
  }

  /** Each registered action runs exactly once, and nothing else runs. */
  lemma {:induction false} EachRunsOnce(c: Code)
    ensures multiset(Scope(c)) == Tally(c)
  {
    if c.Then? {
      ScopeStep(c.first, c.rest);
      EachRunsOnce(c.rest);
      match c.first
      case Act(a) =>
      case Defer(body, _) => EachRunsOnce(body);
      case Block(b) => EachRunsOnce(b);
      case Return =>
    }
  }

  // ----- the objects -----------------------------------------------------------------

  class DeferredAction {
    var func: Option<Code>

    constructor (body: Code)
      ensures func == Some(body)
    {
      func := Some(body);
    }

    /** The move constructor takes the function over and clears it in `other`. */
    constructor Move(other: DeferredAction)
      modifies other
      ensures func == old(other.func) && other.func == None
    {
      func := other.func;
      new;
      other.func := None;
    }
  }

  ghost function FuncSize(o: DeferredAction): nat
    reads o
  {
    match o.func
    case None => 0
    case Some(body) => Size(body)
  }

  /** The destructor: call the function if there is one. */
  method Destroy(o: DeferredAction) returns (trace: seq<Label>)
    ensures trace == match o.func case None => [] case Some(body) => Scope(body)
    decreases FuncSize(o), 4
  {
    trace := [];
    if o.func.Some? {
      var returned;
      trace, returned := Execute(o.func.value);
    }
  }

  /**
   `auto var = __Defer()- body`: a temporary, then as many moves as the compiler makes, each
   followed by the destruction of the object moved from.
   */
  method Register(body: Code, moves: nat) returns (o: DeferredAction, trace: seq<Label>)
    ensures fresh(o) && o.func == Some(body) && trace == []
    decreases Size(body), 5
  {
    o := new DeferredAction(body);
    trace := [];
    for i := 0 to moves
      invariant fresh(o) && o.func == Some(body) && trace == []
    {
      var temporary := o;
      o := new DeferredAction.Move(temporary);
      var t := Destroy(temporary);
      trace := trace + t;
    }
  }

  /** The outcome still to come: nothing more after a return. */
  function Rest(c: Code, returned: bool): Outcome {
    if returned then Outcome([], [], true) else Eval(c)
  }

  /** What a finished part and the rest of a scope make together. */
  function Joined(trace: seq<Label>, bodies: seq<Code>, r: Outcome): Outcome {
    Outcome(trace + r.trace, Scopes(bodies) + r.deferred, r.returned)
  }

  /** A scope's objects: one for each registered body, in order. */
  ghost predicate Holding(objs: seq<DeferredAction>, bodies: seq<Code>, limit: nat)
    reads objs
  {
    |objs| == |bodies| && forall i :: 0 <= i < |objs| ==> objs[i].func == Some(bodies[i]) && Size(bodies[i]) < limit
  }

  lemma {:induction false} ScopesSnoc(bodies: seq<Code>, b: Code)
    ensures Scopes(bodies + [b]) == Scopes(bodies) + [Scope(b)]
  {}

  /** One statement forward. */
  lemma {:induction false} JoinedStep(trace: seq<Label>, bodies: seq<Code>, c: Code)
    requires c.Then?
    ensures match c.first
      case Act(a) => Joined(trace, bodies, Eval(c)) == Joined(trace + [a], bodies, Eval(c.rest))
      case Defer(b, _) => Joined(trace, bodies, Eval(c)) == Joined(trace, bodies + [b], Eval(c.rest))
      case Block(b) => Joined(trace, bodies, Eval(c)) == Joined(trace + Scope(b), bodies, Rest(c.rest, Eval(b).returned))
      case Return => Joined(trace, bodies, Eval(c)) == Joined(trace, bodies, Rest(c.rest, true))
  {
    match c.first
    case Act(a) => assert trace + ([a] + Eval(c.rest).trace) == (trace + [a]) + Eval(c.rest).trace;
    case Defer(b, _) => ScopesSnoc(bodies, b);
    case Block(b) =>
    case Return =>
  }

  lemma {:induction false} JoinedEnd(trace: seq<Label>, bodies: seq<Code>, c: Code, returned: bool)
    requires c == End || returned
    ensures Joined(trace, bodies, Rest(c, returned)) == Outcome(trace, Scopes(bodies), returned)
  {
    assert trace + [] == trace;
    assert Scopes(bodies) + [] == Scopes(bodies);
  }

  /** The statements of a scope, in order, and the objects they leave. */
  method RunStatements(code: Code)
    returns (objs: seq<DeferredAction>, trace: seq<Label>, returned: bool, ghost bodies: seq<Code>)
    ensures Holding(objs, bodies, Size(code))
    ensures Eval(code) == Outcome(trace, Scopes(bodies), returned)
    decreases Size(code), 1
  {
    objs, bodies, trace, returned := [], [], [], false;
    var c := code;
    while c.Then? && !returned
      invariant Size(c) <= Size(code)
      invariant Holding(objs, bodies, Size(code))
      invariant Eval(code) == Joined(trace, bodies, Rest(c, returned))
      decreases Size(c)
    {
      JoinedStep(trace, bodies, c);
      match c.first {
        case Act(a) =>
          trace := trace + [a];
        case Defer(body, moves) =>
          var o, t := Register(body, moves);
          objs, trace, bodies := objs + [o], trace + t, bodies + [body];
        case Block(inner) =>
          var t;
          t, returned := Execute(inner);
          trace := trace + t;
        case Return =>
          returned := true;
      }
      c := c.rest;
    }
    JoinedEnd(trace, bodies, c, returned);
  }

  /** A scope, or a whole function body: its statements, then its objects destroyed last first. */
  method Execute(code: Code) returns (trace: seq<Label>, returned: bool)
    ensures trace == Scope(code) && returned == Eval(code).returned
    decreases Size(code), 3
  {
    var objs;
    ghost var bodies;
    objs, trace, returned, bodies := RunStatements(code);
    trace := Leave(objs, bodies, trace, Size(code));
  }

  /** The end of a scope. */
  method Leave(objs: seq<DeferredAction>, ghost bodies: seq<Code>, before: seq<Label>, ghost limit: nat)
    returns (trace: seq<Label>)
    requires Holding(objs, bodies, limit)
    ensures trace == before + Unwind(Scopes(bodies))
    decreases limit, 2
  {
    trace := before;
    var n := |objs|;
    assert bodies[..n] == bodies;
    while n > 0
      invariant 0 <= n <= |objs|
      invariant trace + Unwind(Scopes(bodies[..n])) == before + Unwind(Scopes(bodies))
    {
      n := n - 1;
      UnwindLast(bodies, n);
      var t := Destroy(objs[n]);
      trace := trace + t;
    }
  }

  lemma {:induction false} UnwindLast(bodies: seq<Code>, n: nat)
    requires n < |bodies|
    ensures Unwind(Scopes(bodies[..n + 1])) == Scope(bodies[n]) + Unwind(Scopes(bodies[..n]))
  {
    assert bodies[..n + 1] == bodies[..n] + [bodies[n]];
    ScopesSnoc(bodies[..n], bodies[n]);
    UnwindAppend(Scopes(bodies[..n]), [Scope(bodies[n])]);
    assert Unwind([Scope(bodies[n])]) == Unwind([]) + Scope(bodies[n]);
  }

  // ----- the example program ---------------------------------------------------------

  /** A deferred printing of one line. */
  function Later(l: Label): Stmt {
    Defer(Then(Act(l), End), 1)
  }

  lemma {:induction false} LaterLast(l: Label, rest: Code)
    ensures Scope(Then(Later(l), rest)) == Scope(rest) + [l]
  {
    ScopeStep(Later(l), rest);
    ScopeStep(Act(l), End);
    assert Scope(End) == [];
  }

  /** Deferred printings, one after the other. */
  function Laters(ls: seq<Label>, rest: Code): Code {
    if ls == [] then rest else Then(Later(ls[0]), Laters(ls[1..], rest))
  }

  lemma {:induction false} LatersReverse(ls: seq<Label>, rest: Code)
    ensures Scope(Laters(ls, rest)) == Scope(rest) + Backwards(ls)
    ensures rest == End ==> !Returns(Laters(ls, rest))
  {
    if ls != [] {
      LatersReverse(ls[1..], rest);
      LaterLast(ls[0], Laters(ls[1..], rest));
      assert Backwards(ls) == Backwards(ls[1..]) + [ls[0]];
    }
  }

  /** The lines of one round of the example's inner loop. */
  datatype Round = Round(begin: Label, middle: Label, end: Label)

  /** A round: a deferred function that defers a function that defers its end. */
  function RoundCode(r: Round): Code {
    Then(Defer(Then(Defer(RoundBody(r), 1), End), 1), End)
  }

  function RoundBody(r: Round): Code {
    Then(Act(r.begin), Then(Later(r.end), Then(Act(r.middle), End)))
  }

  lemma RoundScope(r: Round)
    ensures Scope(RoundCode(r)) == [r.begin, r.middle, r.end]
  {
    assert Scope(End) == [];
    ScopeStep(Act(r.middle), End);
    LaterLast(r.end, Then(Act(r.middle), End));
    ScopeStep(Act(r.begin), Then(Later(r.end), Then(Act(r.middle), End)));
    ScopeStep(Defer(RoundBody(r), 1), End);
    ScopeStep(Defer(Then(Defer(RoundBody(r), 1), End), 1), End);
  }

  function Rounds(rs: seq<Round>): Code {
    if rs == [] then End else Then(Block(RoundCode(rs[0])), Rounds(rs[1..]))
  }

  function Lines(rs: seq<Round>): seq<Label> {
    if rs == [] then [] else [rs[0].begin, rs[0].middle, rs[0].end] + Lines(rs[1..])
  }

  lemma {:induction false} RoundsScope(rs: seq<Round>)
    ensures Scope(Rounds(rs)) == Lines(rs)
  {
    if rs != [] {
      RoundScope(rs[0]);
      RoundsScope(rs[1..]);
      ScopeStep(Block(RoundCode(rs[0])), Rounds(rs[1..]));
    }
  }

  /** The end of the example's main function: the deferred loop, the sum, the return. */
  function ExampleEnd(c: Label, rs: seq<Round>, sum: Label): Code {
    Then(Defer(Then(Act(c), Rounds(rs)), 1), Then(Later(sum), Then(Return, End)))
  }

  lemma {:induction false} ExampleEndScope(c: Label, rs: seq<Round>, sum: Label)
    ensures Scope(ExampleEnd(c, rs, sum)) == [sum, c] + Lines(rs)
  {
    ScopeStep(Return, End);
    LaterLast(sum, Then(Return, End));
    RoundsScope(rs);
    ScopeStep(Act(c), Rounds(rs));
    ScopeStep(Defer(Then(Act(c), Rounds(rs)), 1), Then(Later(sum), Then(Return, End)));
  }

  /** From `defer a` on, with a local block in between. */
  function Example(a: seq<Label>, local: seq<Label>, c: Label, rs: seq<Round>, sum: Label): Code {
    Laters(a, Then(Block(Laters(local, End)), ExampleEnd(c, rs, sum)))
  }

  /** The listing: the local block at once, then the rest from the bottom up, with the loop's rounds in order. */
  lemma {:induction false} ExampleListing(a: seq<Label>, local: seq<Label>, c: Label, rs: seq<Round>, sum: Label)
    ensures Scope(Example(a, local, c, rs, sum)) == Backwards(local) + ([sum, c] + Lines(rs)) + Backwards(a)
  {
    assert Scope(End) == [];
    LatersReverse(local, End);
    ExampleEndScope(c, rs, sum);
    ScopeStep(Block(Laters(local, End)), ExampleEnd(c, rs, sum));
    LatersReverse(a, Then(Block(Laters(local, End)), ExampleEnd(c, rs, sum)));
  }
}
