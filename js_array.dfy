/**
 * The few `Array.prototype` operations the sound relinking code relies on,
 * with their JavaScript semantics, on sequences.
 */
module JsArray {
  import opened Wrappers

  /** `s.indexOf(x)`: an index holding `x`, or -1 when there is none (IndexOfFirst: the first one). */
  function IndexOf<T(==)>(s: seq<T>, x: T): (i: int)
    ensures -1 <= i < |s|
    ensures i == -1 <==> x !in s
    ensures 0 <= i ==> s[i] == x
  {
    if |s| == 0 then -1
    else if s[0] == x then 0
    else
      var j := IndexOf(s[1..], x);
      if j == -1 then -1 else j + 1
  }

  /** No index before the one `indexOf` returns holds `x`. */
  lemma {:induction false} IndexOfFirst<T>(s: seq<T>, x: T)
    ensures 0 <= IndexOf(s, x) ==> x !in s[..IndexOf(s, x)]
  {
    if |s| > 0 && s[0] != x {
      IndexOfFirst(s[1..], x);
      var j := IndexOf(s[1..], x);
      if j != -1 {
        assert s[..j + 1] == [s[0]] + s[1..][..j];
      }
    }
  }

  /** `s` without its element at index `k`; `s` itself when `k` is past the end. */
  function RemoveAt<T>(s: seq<T>, k: nat): (r: seq<T>)
  {
    if |s| == 0 then []
    else
      assert s == [s[0]] + s[1..];
      if k == 0 then s[1..] else [s[0]] + RemoveAt(s[1..], k - 1)
  }

  /** Removing an element never adds one. */
  lemma {:induction false} RemoveAtShrinks<T>(s: seq<T>, k: nat)
    ensures multiset(RemoveAt(s, k)) <= multiset(s)
  {
    if |s| > 0 {
      assert s == [s[0]] + s[1..];
      if k > 0 {
        RemoveAtShrinks(s[1..], k - 1);
      }
    }
  }

  /** RemoveAt before the end, in terms of slices. */
  lemma {:induction false} RemoveAtSlices<T>(s: seq<T>, k: nat)
    requires k < |s|
    ensures RemoveAt(s, k) == s[..k] + s[k + 1..]
  {
    if k == 0 {
      assert s[..k] + s[k + 1..] == s[1..];
    } else {
      var t := s[1..];
      RemoveAtSlices(t, k - 1);
      assert RemoveAt(s, k) == [s[0]] + (t[..k - 1] + t[k..]);
      assert s[..k] + s[k + 1..] == [s[0]] + (t[..k - 1] + t[k..]) by {
        assert s[..k] == [s[0]] + t[..k - 1];
        assert s[k + 1..] == t[k..];
      }
    }
  }

  /** RemoveAt past the end removes nothing. */
  lemma {:induction false} RemoveAtPastEnd<T>(s: seq<T>, k: nat)
    requires |s| <= k
    ensures RemoveAt(s, k) == s
  {
    if |s| > 0 {
      RemoveAtPastEnd(s[1..], k - 1);
      assert s == [s[0]] + s[1..];
    }
  }

  /**
   * `s.splice(start, 1)`: removes the element at `start`; a negative `start`
   * counts from the end, so `splice(-1, 1)` removes the LAST element
   * (SpliceOneRemoves states the cases).
   */
  function SpliceOne<T>(s: seq<T>, start: int): (r: seq<T>)
    ensures multiset(r) <= multiset(s)
  {
    var k := if start < 0 then (if |s| + start < 0 then 0 else |s| + start)
             else (if start > |s| then |s| else start);
    RemoveAtShrinks(s, k);
    RemoveAt(s, k)
  }

  /** Which element `splice(start, 1)` removes, for the starts indexOf can return. */
  lemma SpliceOneRemoves<T>(s: seq<T>, start: int)
    ensures s == [] ==> SpliceOne(s, start) == []
    ensures 0 <= start < |s| ==> |SpliceOne(s, start)| == |s| - 1
    ensures 0 <= start < |s| ==> SpliceOne(s, start) == s[..start] + s[start + 1..]
    ensures 0 <= start < |s| ==> multiset(SpliceOne(s, start)) == multiset(s) - multiset{s[start]}
    ensures start == -1 && s != [] ==> SpliceOne(s, start) == s[..|s| - 1]
  {
    var k := if start < 0 then (if |s| + start < 0 then 0 else |s| + start)
             else (if start > |s| then |s| else start);
    if k < |s| {
      RemoveAtSlices(s, k);
    } else {
      RemoveAtPastEnd(s, k);
    }
    if 0 <= start < |s| {
      assert s == s[..start] + [s[start]] + s[start + 1..];
    }
  }

  /**
   * `s.splice(s.indexOf(x), 1)`: removes the first occurrence of `x` when there
   * is one; when there is none, indexOf gives -1 and the last element goes
   * (SpliceIndexOfRemoves states both cases).
   */
  function SpliceIndexOf<T(==)>(s: seq<T>, x: T): (r: seq<T>)
    ensures multiset(r) <= multiset(s)
  {
    SpliceOne(s, IndexOf(s, x))
  }

  /**
   * How `splice(indexOf(x), 1)` behaves: it removes exactly the first
   * occurrence of a present `x` and keeps the others in order; for an absent
   * `x` it drops the last element of a non-empty array.
   */
  lemma SpliceIndexOfRemoves<T>(s: seq<T>, x: T)
    ensures x in s ==> |SpliceIndexOf(s, x)| == |s| - 1
    ensures x in s ==> multiset(SpliceIndexOf(s, x)) == multiset(s) - multiset{x}
    ensures x in s ==> x !in s[..IndexOf(s, x)] && SpliceIndexOf(s, x) == s[..IndexOf(s, x)] + s[IndexOf(s, x) + 1..]
    ensures x !in s && s != [] ==> SpliceIndexOf(s, x) == s[..|s| - 1]
    ensures s == [] ==> SpliceIndexOf(s, x) == []
  {
    SpliceOneRemoves(s, IndexOf(s, x));
    IndexOfFirst(s, x);
  }

  /** `s.filter(v => v != x)`. */
  function Without<T(==,!new)>(s: seq<T>, x: T): (r: seq<T>)
    ensures x !in r
    ensures forall y {:trigger y in r} :: y in r <==> y in s && y != x
    ensures x !in s ==> r == s
    ensures multiset(r) == multiset(s)[x := 0]
  {
    if |s| == 0 then []
    else
      assert s == [s[0]] + s[1..];
      if s[0] == x then Without(s[1..], x) else [s[0]] + Without(s[1..], x)
  }

  /** `s.filter(v => keep.indexOf(v) != -1)`; by IndexOf's contract the test is membership. */
  function KeepIn<T(==,!new)>(s: seq<T>, keep: seq<T>): (r: seq<T>)
    ensures forall y {:trigger y in r} :: y in r <==> y in s && y in keep
    ensures |r| <= |s|
  {
    if |s| == 0 then []
    else if s[0] in keep then [s[0]] + KeepIn(s[1..], keep)
    else KeepIn(s[1..], keep)
  }

  /**
   * The filter keeps every copy of a recorded entry and no copy of any
   * other: it changes how often a value occurs only by dropping it.
   */
  lemma {:induction false} KeepInCounts<T(!new)>(s: seq<T>, keep: seq<T>, y: T)
    ensures multiset(KeepIn(s, keep))[y] == if y in keep then multiset(s)[y] else 0
  {
    if s != [] {
      KeepInCounts(s[1..], keep, y);
      assert s == [s[0]] + s[1..];
    }
  }

  /** The filter keeps or drops the head and goes on with the tail. */
  lemma KeepInCons<T(!new)>(x: T, t: seq<T>, keep: seq<T>)
    ensures KeepIn([x] + t, keep) == if x in keep then [x] + KeepIn(t, keep) else KeepIn(t, keep)
  {
    assert ([x] + t)[1..] == t;
  }

  /** Filtering against an empty array keeps nothing. */
  lemma {:induction false} KeepInNothing<T(!new)>(s: seq<T>)
    ensures KeepIn(s, []) == []
  {
    if s != [] {
      KeepInNothing(s[1..]);
    }
  }

  /** Filtering a concatenation filters each part. */
  lemma {:induction false} KeepInAppend<T(!new)>(a: seq<T>, b: seq<T>, keep: seq<T>)
    ensures KeepIn(a + b, keep) == KeepIn(a, keep) + KeepIn(b, keep)
  {
    if a == [] {
      assert a + b == b;
    } else {
      var x, t := a[0], a[1..];
      assert a == [x] + t;
      assert a + b == [x] + (t + b);
      KeepInAppend(t, b, keep);
      KeepInCons(x, t + b, keep);
      KeepInCons(x, t, keep);
      if x in keep {
        assert ([x] + KeepIn(t, keep)) + KeepIn(b, keep) == [x] + (KeepIn(t, keep) + KeepIn(b, keep));
      }
    }
  }

  /** Appending nothing (used where the loop of `linkNodes` breaks). */
  lemma AppendEmpty<T>(s: seq<T>)
    ensures s + [] == s
  {
  }

  /** Concatenation is associative. */
  lemma AppendAssoc<T>(a: seq<T>, b: seq<T>, c: seq<T>)
    ensures (a + b) + c == a + (b + c)
  {
  }

  /** Moving one element across a concatenation (used by the loop of `linkNodes`). */
  lemma SeqShift<T>(a: seq<T>, x: T, b: seq<T>)
    ensures a + [x] + b == a + ([x] + b)
  {
  }

  /** `s.reverse()`. */
  function Reverse<T>(s: seq<T>): (r: seq<T>)
    ensures |r| == |s|
    ensures forall k :: 0 <= k < |s| ==> r[k] == s[|s| - 1 - k]
  {
    if |s| == 0 then [] else Reverse(s[1..]) + [s[0]]
  }

  /** Reversing a concatenation reverses the order of its parts. */
  lemma ReverseAppend<T>(a: seq<T>, b: seq<T>)
    ensures Reverse(a + b) == Reverse(b) + Reverse(a)
  {
    var l, r := Reverse(a + b), Reverse(b) + Reverse(a);
    assert |l| == |r|;
    forall k | 0 <= k < |l| ensures l[k] == r[k] {
      if k < |b| {
        assert r[k] == Reverse(b)[k];
      } else {
        assert r[k] == Reverse(a)[k - |b|];
      }
    }
  }

  /** Wraps every element in `Some`: an array of nodes seen as nullable slots. */
  function Lift<T>(s: seq<T>): (r: seq<Option<T>>)
    ensures |r| == |s|
    ensures forall k :: 0 <= k < |s| ==> r[k] == Some(s[k])
  {
    if |s| == 0 then [] else [Some(s[0])] + Lift(s[1..])
  }

  /** Lifting distributes over concatenation. */
  lemma {:induction false} LiftAppend<T>(a: seq<T>, b: seq<T>)
    ensures Lift(a + b) == Lift(a) + Lift(b)
  {
    if a == [] {
      assert a + b == b;
    } else {
      assert (a + b)[1..] == a[1..] + b;
      LiftAppend(a[1..], b);
    }
  }

  /** Lifting and reversing commute, and lifting distributes over concatenation. */
  lemma {:induction false} LiftFacts<T>(a: seq<T>, b: seq<T>)
    ensures Lift(a + b) == Lift(a) + Lift(b)
    ensures Reverse(Lift(a)) == Lift(Reverse(a))
  {
    LiftAppend(a, b);
    if a != [] {
      LiftFacts(a[1..], b);
      assert Lift(a)[1..] == Lift(a[1..]);
      LiftAppend(Reverse(a[1..]), [a[0]]);
    }
  }
}
