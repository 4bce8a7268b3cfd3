/**
 The tail queue macros over explicit link memory.

 An event is named by its address (`Id`).  A queue head together with the one link
 field that the macros use for it is a `Queue`: `first` and `last` are the head, `next`
 and `prev` are the link fields of every event, in the queue or not.  A removed event
 keeps its own links, as `TAILQ_REMOVE` leaves them.
 */
module Tailq {
  import opened Options

  type Id = int

  /** What a `struct event **` points at: the head's first field, or an event's next field. */
  datatype Slot = Head | NextOf(e: Id)

  /** No event occurs twice. */
  ghost predicate Distinct(s: seq<Id>) {
    forall i, j :: 0 <= i < j < |s| ==> s[i] != s[j]
  }

  function IndexOf(s: seq<Id>, e: Id): (i: nat)
    requires e in s
    ensures i < |s| && s[i] == e && e !in s[..i]
  {
    if s[0] == e then 0 else 1 + IndexOf(s[1..], e)
  }

  /** The queue contents once `e` is taken out; unchanged when `e` is absent. */
  function Without(s: seq<Id>, e: Id): (r: seq<Id>) {
    if e in s then var i := IndexOf(s, e); s[..i] + s[i + 1..] else s
  }

  lemma {:induction false} WithoutAt(s: seq<Id>, e: Id, i: nat)
    requires e in s && i < |s| - 1
    ensures |Without(s, e)| == |s| - 1
    ensures Without(s, e)[i] == s[if i < IndexOf(s, e) then i else i + 1]
  {}

  lemma {:induction false} WithoutKeeps(s: seq<Id>, e: Id)
    requires Distinct(s)
    ensures Distinct(Without(s, e))
    ensures forall x :: x in Without(s, e) <==> x in s && x != e
  {
    if e in s {
      var i := IndexOf(s, e);
      var r := Without(s, e);
      assert forall k :: 0 <= k < |r| ==> r[k] == if k < i then s[k] else s[k + 1];
      forall x | x in s && x != e ensures x in r {
        var k :| 0 <= k < |s| && s[k] == x;
        assert r[if k < i then k else k - 1] == x;
      }
    }
  }

  /** Memory for one link field starts with null links; an absent key is a null pointer. */
  function At(next: map<Id, Option<Id>>, e: Id): Option<Id> {
    if e in next then next[e] else None
  }

  datatype Queue = Queue(
    first: Option<Id>,
    last: Slot,
    next: map<Id, Option<Id>>,
    prev: map<Id, Slot>)
  {
    function Next(e: Id): Option<Id> {
      At(next, e)
    }

    function Prev(e: Id): Slot {
      if e in prev then prev[e] else Head
    }

    /** The assignment `*slot = v`. */
    function Store(slot: Slot, v: Option<Id>): Queue {
      match slot
      case Head => this.(first := v)
      case NextOf(p) => this.(next := next[p := v])
    }

    function InsertTail(e: Id): Queue {
      var q := this.(next := next[e := None], prev := prev[e := last]);
      q.Store(last, Some(e)).(last := NextOf(e))
    }

    function InsertBefore(x: Id, e: Id): Queue {
      var slot := Prev(x);
      var q := this.(prev := prev[e := slot], next := next[e := Some(x)]);
      var r := q.Store(slot, Some(e));
      r.(prev := r.prev[x := NextOf(e)])
    }

    function Remove(e: Id): Queue {
      var q := match Next(e)
        case Some(n) => this.(prev := prev[n := Prev(e)])
        case None => this.(last := Prev(e));
      q.Store(q.Prev(e), q.Next(e))
    }
  }

  const EMPTY := Queue(None, Head, map[], map[])

  /** The slot that points at position `i` of the contents. */
  function SlotAt(s: seq<Id>, i: nat): Slot
    requires i <= |s|
  {
    if i == 0 then Head else NextOf(s[i - 1])
  }

  function IdAt(s: seq<Id>, i: nat): Option<Id> {
    if i < |s| then Some(s[i]) else None
  }

  /** The links of `q` thread exactly the sequence `s`, forwards and backwards. */
  ghost predicate Represents(q: Queue, s: seq<Id>) {
    && Distinct(s)
    && q.first == IdAt(s, 0)
    && q.last == SlotAt(s, |s|)
    && (forall i {:trigger q.Next(s[i])} :: 0 <= i < |s| ==> q.Next(s[i]) == IdAt(s, i + 1))
    && (forall i {:trigger q.Prev(s[i])} :: 0 <= i < |s| ==> q.Prev(s[i]) == SlotAt(s, i))
  }

  /** The next links once `e` is inserted at the end of `s`. */
  function LinkTail(next: map<Id, Option<Id>>, s: seq<Id>, e: Id): map<Id, Option<Id>> {
    var n := next[e := None];
    if s == [] then n else n[s[|s| - 1] := Some(e)]
  }

  /** The next links once `e` is removed from `s`: only its predecessor's link moves. */
  function Unlink(next: map<Id, Option<Id>>, s: seq<Id>, e: Id): map<Id, Option<Id>> {
    if e !in s || IndexOf(s, e) == 0 then next else next[s[IndexOf(s, e) - 1] := At(next, e)]
  }

  lemma {:induction false} InsertTailRefines(q: Queue, s: seq<Id>, e: Id)
    requires Represents(q, s) && e !in s
    ensures Represents(q.InsertTail(e), s + [e])
    ensures q.InsertTail(e).next == LinkTail(q.next, s, e)
  {
    var q', s' := q.InsertTail(e), s + [e];
    forall i | 0 <= i < |s'|
      ensures q'.Next(s'[i]) == IdAt(s', i + 1) && q'.Prev(s'[i]) == SlotAt(s', i)
    {
      if i < |s| {
        assert q.Next(s[i]) == IdAt(s, i + 1) && q.Prev(s[i]) == SlotAt(s, i);
      }
    }
  }

  /** TAILQ_REMOVE, seen from one event's links. */
  lemma RemoveAt(q: Queue, e: Id, x: Id)
    requires q.Next(e) != Some(e)
    ensures q.Remove(e).Next(x) == if q.Prev(e) == NextOf(x) then q.Next(e) else q.Next(x)
    ensures q.Remove(e).Prev(x) == if q.Next(e) == Some(x) then q.Prev(e) else q.Prev(x)
  {}

  lemma {:induction false} RemoveRefines(q: Queue, s: seq<Id>, e: Id)
    requires Represents(q, s) && e in s
    ensures Represents(q.Remove(e), Without(s, e))
    ensures q.Remove(e).next == Unlink(q.next, s, e)
    ensures q.Remove(e).Next(e) == q.Next(e)
  {
    var k := IndexOf(s, e);
    assert q.Next(s[k]) == IdAt(s, k + 1) && q.Prev(s[k]) == SlotAt(s, k);
    RemoveAt(q, e, e);
    forall x
      ensures q.Remove(e).Next(x) == if q.Prev(e) == NextOf(x) then q.Next(e) else q.Next(x)
      ensures q.Remove(e).Prev(x) == if q.Next(e) == Some(x) then q.Prev(e) else q.Prev(x)
    {
      RemoveAt(q, e, x);
    }
    RemoveThreads(q, q.Remove(e), s, k);
  }

  lemma {:induction false} RemoveThreads(q: Queue, q': Queue, s: seq<Id>, k: nat)
    requires Represents(q, s) && k < |s|
    requires q'.first == (if k == 0 then IdAt(s, 1) else q.first)
    requires q'.last == (if k == |s| - 1 then SlotAt(s, k) else q.last)
    requires forall x :: q'.Next(x) == if q.Prev(s[k]) == NextOf(x) then q.Next(s[k]) else q.Next(x)
    requires forall x :: q'.Prev(x) == if q.Next(s[k]) == Some(x) then q.Prev(s[k]) else q.Prev(x)
    ensures Represents(q', Without(s, s[k]))
  {
    var s' := Without(s, s[k]);
    WithoutKeeps(s, s[k]);
    assert IndexOf(s, s[k]) == k;
    forall i | 0 <= i < |s'|
      ensures q'.Next(s'[i]) == IdAt(s', i + 1) && q'.Prev(s'[i]) == SlotAt(s', i)
    {
      RemoveLinksAt(q, q', s, s', k, i);
    }
  }

  /** The links of the surviving element at position `i`, given what the removal did to them. */
  lemma {:induction false} RemoveLinksAt(q: Queue, q': Queue, s: seq<Id>, s': seq<Id>, k: nat, i: nat)
    requires Represents(q, s) && k < |s| && i < |s'| == |s| - 1
    requires forall m {:trigger s'[m]} :: 0 <= m < |s'| ==> s'[m] == s[if m < k then m else m + 1]
    requires forall x :: q'.Next(x) == if q.Prev(s[k]) == NextOf(x) then q.Next(s[k]) else q.Next(x)
    requires forall x :: q'.Prev(x) == if q.Next(s[k]) == Some(x) then q.Prev(s[k]) else q.Prev(x)
    ensures q'.Next(s'[i]) == IdAt(s', i + 1) && q'.Prev(s'[i]) == SlotAt(s', i)
  {
    var j := if i < k then i else i + 1;
    assert q.Next(s[k]) == IdAt(s, k + 1) && q.Prev(s[k]) == SlotAt(s, k);
    assert q.Next(s[j]) == IdAt(s, j + 1) && q.Prev(s[j]) == SlotAt(s, j);
    assert s'[i] == s[j];
    assert i + 1 < |s'| ==> s'[i + 1] == s[if i + 1 < k then i + 1 else i + 2];
    assert i > 0 ==> s'[i - 1] == s[if i - 1 < k then i - 1 else i];
    assert k > 0 && j != k - 1 ==> s[j] != s[k - 1];
    assert k + 1 < |s| && j != k + 1 ==> s[j] != s[k + 1];
  }

  /** TAILQ_INSERT_BEFORE, seen from one event's links. */
  lemma InsertBeforeAt(q: Queue, x: Id, e: Id, y: Id)
    requires x != e && q.Prev(x) != NextOf(e)
    ensures q.InsertBefore(x, e).Next(y) ==
      if q.Prev(x) == NextOf(y) then Some(e) else if y == e then Some(x) else q.Next(y)
    ensures q.InsertBefore(x, e).Prev(y) ==
      if y == x then NextOf(e) else if y == e then q.Prev(x) else q.Prev(y)
  {}

  lemma {:induction false} InsertBeforeRefines(q: Queue, s: seq<Id>, k: nat, e: Id)
    requires Represents(q, s) && e !in s && k < |s|
    ensures Represents(q.InsertBefore(s[k], e), s[..k] + [e] + s[k..])
  {
    var q', s' := q.InsertBefore(s[k], e), s[..k] + [e] + s[k..];
    assert q.Prev(s[k]) == SlotAt(s, k);
    forall i | 0 <= i < |s'|
      ensures q'.Next(s'[i]) == IdAt(s', i + 1) && q'.Prev(s'[i]) == SlotAt(s', i)
    {
      InsertBeforeLinksAt(q, s, k, e, i);
    }
  }

  lemma {:induction false} InsertBeforeLinksAt(q: Queue, s: seq<Id>, k: nat, e: Id, i: nat)
    requires Represents(q, s) && e !in s && k < |s| && i <= |s|
    ensures var s' := s[..k] + [e] + s[k..];
      && q.InsertBefore(s[k], e).Next(s'[i]) == IdAt(s', i + 1)
      && q.InsertBefore(s[k], e).Prev(s'[i]) == SlotAt(s', i)
  {
    assert q.Prev(s[k]) == SlotAt(s, k);
    if i == k {
      InsertBeforeAt(q, s[k], e, e);
    } else {
      var j := if i < k then i else i - 1;
      assert q.Next(s[j]) == IdAt(s, j + 1) && q.Prev(s[j]) == SlotAt(s, j);
      InsertBeforeAt(q, s[k], e, s[j]);
    }
  }
}
