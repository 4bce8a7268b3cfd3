/** The two replace loops, over one flat memory in which source and destination may overlap. */
module Replace {

  /** What becomes of one element. */
  function Swap<T(==)>(x: T, was: T, now: T): T {
    if x == was then now else x
  }

  /** A range with every `was` replaced by `now`. */
  function Replaced<T(==)>(s: seq<T>, was: T, now: T): (r: seq<T>)
    ensures |r| == |s| && forall i :: 0 <= i < |s| ==> r[i] == Swap(s[i], was, now)
  {
    seq(|s|, i requires 0 <= i < |s| => Swap(s[i], was, now))
  }

  /** _algo_find: the first position of `x` in [first, last), or `last`. */
  method Find<T(==)>(a: array<T>, first: nat, last: nat, x: T) returns (i: nat)
    requires first <= last <= a.Length
    ensures first <= i <= last && (i < last ==> a[i] == x) && forall k :: first <= k < i ==> a[k] != x
  {
    i := first;
    while i < last && a[i] != x
      invariant first <= i <= last && forall k :: first <= k < i ==> a[k] != x
    {
      i := i + 1;
    }
  }

  /** algo_replace: ends also when the two values are equal, because the search resumes past each hit. */
  method AlgoReplace<T(==)>(a: array<T>, first: nat, last: nat, was: T, now: T)
    requires first <= last <= a.Length
    modifies a
    ensures a[..] == old(a[..first]) + Replaced(old(a[first..last]), was, now) + old(a[last..])
    ensures forall k :: 0 <= k < a.Length ==> a[k] == if first <= k < last && old(a[k]) == was then now else old(a[k])
  {
    ghost var s := a[..];
    var i := Find(a, first, last, was);
    while i != last
      invariant first <= i <= last && (i < last ==> a[i] == was)
      invariant forall k :: 0 <= k < a.Length ==> a[k] == if first <= k < i then Swap(s[k], was, now) else s[k]
      decreases last - i
    {
      a[i] := now;
      i := Find(a, i + 1, last, was);
    }
    assert a[..] == s[..first] + Replaced(s[first..last], was, now) + s[last..];
  }

  /** The first `n` positions of the destination are written, and nothing else is. */
  ghost predicate Copied<T>(s: seq<T>, r: seq<T>, first: nat, dest: nat, n: nat, was: T, now: T)
    requires |r| == |s| && first + n <= |s| && dest + n <= |s|
  {
    && (forall k {:trigger r[k]} :: 0 <= k < |s| && !(dest <= k < dest + n) ==> r[k] == s[k])
    && (forall j :: dest <= j < dest + n ==> r[j] == Swap(s[first + Source(first, dest, j - dest)], was, now))
  }

  /**
   Where the value comes from that the copy loop puts at destination position `k`: the loop
   may have written that source position itself, `dest - first` positions earlier.
   */
  function Source(first: nat, dest: nat, k: nat): (r: nat)
    ensures r <= k
    decreases k
  {
    if first < dest <= first + k then Source(first, dest, k - (dest - first)) else k
  }

  /** Replacing twice is replacing once, so what the loop reads is as good as the original. */
  lemma SwapTwice<T>(x: T, was: T, now: T)
    ensures Swap(Swap(x, was, now), was, now) == Swap(x, was, now)
  {
  }

  lemma {:induction false} ReadsReplaced<T>(s: seq<T>, r: seq<T>, first: nat, dest: nat, n: nat, was: T, now: T)
    requires |r| == |s| && first + n < |s| && dest + n < |s| && Copied(s, r, first, dest, n, was, now)
    ensures Swap(r[first + n], was, now) == Swap(s[first + Source(first, dest, n)], was, now)
  {
    var j := first + n;
    if first < dest <= j {
      var i := first + Source(first, dest, j - dest);
      assert Source(first, dest, n) == Source(first, dest, j - dest);
      assert r[j] == Swap(s[i], was, now);
      SwapTwice(s[i], was, now);
    } else {
      assert r[j] == s[j];
    }
  }

  /** algo_replace_copy, with the destination anywhere in the same memory. */
  method AlgoReplaceCopy<T(==)>(a: array<T>, first: nat, last: nat, dest: nat, was: T, now: T)
    requires first <= last <= a.Length && dest + (last - first) <= a.Length
    modifies a
    ensures Copied(old(a[..]), a[..], first, dest, last - first, was, now)
    ensures forall k :: 0 <= k < a.Length && !(dest <= k < dest + (last - first)) ==> a[k] == old(a[k])
    ensures !(first < dest < last) ==> forall k :: first <= k < last ==>
      a[dest + (k - first)] == if old(a[k]) == was then now else old(a[k])
  {
    ghost var s := a[..];
    var n := 0;
    while first + n != last
      invariant 0 <= n <= last - first
      invariant Copied(s, a[..], first, dest, n, was, now)
    {
      ReadsReplaced(s, a[..], first, dest, n, was, now);
      ghost var before := a[..];
      var tmp := Find(a, first + n, last, was);
      if tmp == first + n {
        a[dest + n] := now;
      } else {
        a[dest + n] := a[first + n];
      }
      assert a[..] == before[dest + n := Swap(before[first + n], was, now)];
      CopiedNext(s, before, first, dest, n, was, now);
      n := n + 1;
    }
    CopyExactly(s, a[..], first, dest, n, was, now);
    forall k | first <= k < last && !(first < dest < last)
      ensures a[dest + (k - first)] == if s[k] == was then now else s[k]
    {
      assert a[..][dest + (k - first)] == Swap(s[first + (k - first)], was, now);
    }
  }

  lemma {:induction false} CopiedNext<T>(s: seq<T>, r: seq<T>, first: nat, dest: nat, n: nat, was: T, now: T)
    requires |r| == |s| && first + n < |s| && dest + n < |s| && Copied(s, r, first, dest, n, was, now)
    ensures Copied(s, r[dest + n := Swap(r[first + n], was, now)], first, dest, n + 1, was, now)
  {
    ReadsReplaced(s, r, first, dest, n, was, now);
    var r' := r[dest + n := Swap(r[first + n], was, now)];
    forall j | dest <= j < dest + n + 1 ensures r'[j] == Swap(s[first + Source(first, dest, j - dest)], was, now) {
      assert j < dest + n ==> r'[j] == r[j];
    }
  }

  /** The destination holds the pointwise replacement of the original source. */
  ghost predicate Pointwise<T>(s: seq<T>, r: seq<T>, first: nat, dest: nat, n: nat, was: T, now: T)
    requires |r| == |s| && first + n <= |s| && dest + n <= |s|
  {
    forall j :: dest <= j < dest + n ==> r[j] == Swap(s[first + (j - dest)], was, now)
  }

  ghost predicate RepeatsAt<T>(s: seq<T>, d: nat, j: nat, was: T, now: T)
    requires d <= j < |s|
  {
    Swap(s[j], was, now) == Swap(s[j - d], was, now)
  }

  /** After replacement, the source repeats itself every `d` positions. */
  ghost predicate Repeats<T>(s: seq<T>, first: nat, d: nat, n: nat, was: T, now: T)
    requires first + n <= |s|
  {
    forall j :: first + d <= j < first + n ==> RepeatsAt(s, d, j, was, now)
  }

  lemma {:induction false} RepeatsBack<T>(s: seq<T>, first: nat, dest: nat, n: nat, was: T, now: T, k: nat)
    requires first < dest && first + n <= |s| && Repeats(s, first, dest - first, n, was, now) && k < n
    ensures Swap(s[first + Source(first, dest, k)], was, now) == Swap(s[first + k], was, now)
    decreases k
  {
    if dest <= first + k {
      RepeatsBack(s, first, dest, n, was, now, k - (dest - first));
      assert RepeatsAt(s, dest - first, first + k, was, now);
    }
  }

  lemma {:induction false} RepeatsIsPointwise<T>(s: seq<T>, r: seq<T>, first: nat, dest: nat, n: nat, was: T, now: T)
    requires |r| == |s| && first + n <= |s| && dest + n <= |s| && Copied(s, r, first, dest, n, was, now)
    requires first < dest && Repeats(s, first, dest - first, n, was, now)
    ensures Pointwise(s, r, first, dest, n, was, now)
  {
    forall j | dest <= j < dest + n ensures r[j] == Swap(s[first + (j - dest)], was, now) {
      RepeatsBack(s, first, dest, n, was, now, j - dest);
    }
  }

  lemma {:induction false} PointwiseIsRepeats<T>(s: seq<T>, r: seq<T>, first: nat, dest: nat, n: nat, was: T, now: T)
    requires |r| == |s| && first + n <= |s| && dest + n <= |s| && Copied(s, r, first, dest, n, was, now)
    requires first < dest && Pointwise(s, r, first, dest, n, was, now)
    ensures Repeats(s, first, dest - first, n, was, now)
  {
    var d := dest - first;
    forall j | first + d <= j < first + n ensures RepeatsAt(s, d, j, was, now) {
      assert r[j + d] == Swap(s[j], was, now);
      assert r[j] == Swap(s[j - d], was, now);
      assert Source(first, dest, j - first) == Source(first, dest, j - dest);
    }
  }

  /**
   Exactly when the copy is the pointwise replacement of the source: when the destination
   does not start strictly inside the source, or when the replaced source repeats itself at
   that distance.
   */
  lemma {:induction false} CopyExactly<T>(s: seq<T>, r: seq<T>, first: nat, dest: nat, n: nat, was: T, now: T)
    requires |r| == |s| && first + n <= |s| && dest + n <= |s| && Copied(s, r, first, dest, n, was, now)
    ensures Pointwise(s, r, first, dest, n, was, now) <==>
      !(first < dest < first + n) || Repeats(s, first, dest - first, n, was, now)
  {
    if first < dest < first + n {
      if Repeats(s, first, dest - first, n, was, now) {
        RepeatsIsPointwise(s, r, first, dest, n, was, now);
      }
      if Pointwise(s, r, first, dest, n, was, now) {
        PointwiseIsRepeats(s, r, first, dest, n, was, now);
      }
    } else {
      forall j | dest <= j < dest + n ensures r[j] == Swap(s[first + (j - dest)], was, now) {
        assert Source(first, dest, j - dest) == j - dest;
      }
    }
  }

  /** In place, the copy loop leaves what the replace loop leaves. */
  lemma {:induction false} InPlaceSame<T>(s: seq<T>, r: seq<T>, first: nat, last: nat, was: T, now: T)
    requires |r| == |s| && first <= last <= |s| && Copied(s, r, first, first, last - first, was, now)
    ensures r == s[..first] + Replaced(s[first..last], was, now) + s[last..]
  {
    var q := s[..first] + Replaced(s[first..last], was, now) + s[last..];
    forall k | 0 <= k < |s| ensures r[k] == q[k] {
      if first <= k < last {
        assert r[k] == Swap(s[first + Source(first, first, k - first)], was, now);
      }
    }
  }
}
