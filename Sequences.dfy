/** Order-keeping removal of duplicates: the iteration order of a JavaScript `Map` or `Set`
    filled from a sequence, which keeps each key where it first went in. */
module Sequences {

  predicate NoDuplicates<T(==)>(s: seq<T>) {
    forall i, j :: 0 <= i < j < |s| ==> s[i] != s[j]
  }

  /** The elements of `s` in the order of their first occurrences. */
  function Dedup<T(==)>(s: seq<T>): (r: seq<T>)
    ensures forall i :: 0 <= i < |s| ==> s[i] in r
    ensures forall i :: 0 <= i < |r| ==> r[i] in s
    ensures NoDuplicates(r)
    ensures |r| <= |s|
    decreases |s|
  {
    if s == [] then []
    else
      var front := Dedup(s[..|s| - 1]);
      if s[|s| - 1] in front then front else front + [s[|s| - 1]]
  }

  /** `f` applied to every element, in order. */
  function Map<T, U>(f: T -> U, s: seq<T>): (r: seq<U>)
    ensures |r| == |s|
  {
    seq(|s|, i requires 0 <= i < |s| => f(s[i]))
  }

  lemma MapAppend<T, U>(f: T -> U, a: seq<T>, b: seq<T>)
    ensures Map(f, a + b) == Map(f, a) + Map(f, b)
  {
    var l, r := Map(f, a + b), Map(f, a) + Map(f, b);
    forall k | 0 <= k < |l|
      ensures l[k] == r[k]
    {
      if k < |a| {
        assert (a + b)[k] == a[k];
      } else {
        assert (a + b)[k] == b[k - |a|];
      }
    }
  }

  /** `f` applied to every element together with its position, counted from `first`. */
  function MapNumbered<T, U>(f: (nat, T) -> U, s: seq<T>, first: nat): (r: seq<U>)
    ensures |r| == |s|
  {
    seq(|s|, i requires 0 <= i < |s| => f(first + i, s[i]))
  }

  lemma MapNumberedAppend<T, U>(f: (nat, T) -> U, a: seq<T>, b: seq<T>, first: nat)
    ensures MapNumbered(f, a + b, first) == MapNumbered(f, a, first) + MapNumbered(f, b, first + |a|)
  {
    var l, r := MapNumbered(f, a + b, first), MapNumbered(f, a, first) + MapNumbered(f, b, first + |a|);
    forall k | 0 <= k < |l|
      ensures l[k] == r[k]
    {
      if k < |a| {
        assert (a + b)[k] == a[k];
      } else {
        assert (a + b)[k] == b[k - |a|];
      }
    }
  }

  /** The pieces of `ss` joined end to end. */
  function Flatten<T>(ss: seq<seq<T>>): seq<T>
    decreases |ss|
  {
    if ss == [] then [] else Flatten(ss[..|ss| - 1]) + ss[|ss| - 1]
  }

  lemma FlattenSnoc<T>(ss: seq<seq<T>>, x: seq<T>)
    ensures Flatten(ss + [x]) == Flatten(ss) + x
  {
    assert (ss + [x])[..|ss|] == ss;
  }

  lemma {:induction false} FlattenAppend<T>(a: seq<seq<T>>, b: seq<seq<T>>)
    ensures Flatten(a + b) == Flatten(a) + Flatten(b)
    decreases |b|
  {
    if b == [] {
      assert a + b == a;
    } else {
      var front := b[..|b| - 1];
      FlattenAppend(a, front);
      AppendSnoc(a, b);
      FlattenSnoc(a + front, b[|b| - 1]);
      FlattenSnoc(front, b[|b| - 1]);
      AppendAssociates(Flatten(a), Flatten(front), b[|b| - 1]);
    }
  }

  lemma AppendAssociates<T>(a: seq<T>, b: seq<T>, c: seq<T>)
    ensures a + b + c == a + (b + c)
  {
  }

  /** Appending a non-empty sequence is appending its front, then its last element. */
  lemma AppendSnoc<T>(s: seq<T>, t: seq<T>)
    requires t != []
    ensures s + t == (s + t[..|t| - 1]) + [t[|t| - 1]]
  {
    assert t == t[..|t| - 1] + [t[|t| - 1]];
  }

  /** Appending one element adds it at the end exactly when it is new. */
  lemma DedupSnoc<T>(s: seq<T>, x: T)
    ensures Dedup(s + [x]) == if x in s then Dedup(s) else Dedup(s) + [x]
  {
    assert (s + [x])[..|s|] == s;
  }

  /** A sequence without duplicates is its own deduplication. */
  lemma {:induction false} DedupOfDistinct<T>(s: seq<T>)
    requires NoDuplicates(s)
    ensures Dedup(s) == s
    decreases |s|
  {
    if s != [] {
      var front := s[..|s| - 1];
      DedupOfDistinct(front);
      assert s == front + [s[|s| - 1]];
    }
  }

  /** Deduplicating twice is deduplicating once. */
  lemma DedupIdempotent<T>(s: seq<T>)
    ensures Dedup(Dedup(s)) == Dedup(s)
  {
    DedupOfDistinct(Dedup(s));
  }

  /** `Dedup(s)` is a subsequence of `s` that keeps the first occurrence of each element:
      an element of the result comes before another exactly when its first occurrence
      in `s` does. */
  function FirstIndex<T(==)>(s: seq<T>, x: T): (k: nat)
    requires x in s
    ensures k < |s| && s[k] == x && x !in s[..k]
  {
    if s[0] == x then 0
    else
      assert s == [s[0]] + s[1..];
      1 + FirstIndex(s[1..], x)
  }

  lemma {:induction false} DedupOrder<T>(s: seq<T>, i: nat, j: nat)
    requires i < j < |Dedup(s)|
    ensures FirstIndex(s, Dedup(s)[i]) < FirstIndex(s, Dedup(s)[j])
    decreases |s|
  {
    var front := s[..|s| - 1];
    var x := s[|s| - 1];
    assert s == front + [x];
    var df := Dedup(front);
    if j < |df| {
      assert Dedup(s)[i] == df[i] && Dedup(s)[j] == df[j];
      DedupOrder(front, i, j);
      FirstIndexPrefix(front, x, df[i]);
      FirstIndexPrefix(front, x, df[j]);
    } else {
      assert x !in df && Dedup(s) == df + [x];
      assert x !in front by {
        forall k | 0 <= k < |front|
          ensures front[k] != x
        {
          assert front[k] in df;
        }
      }
      assert Dedup(s)[i] == df[i] && df[i] in front;
      FirstIndexPrefix(front, x, df[i]);
      FirstIndexLast(front, x);
    }
  }

  lemma FirstIndexLast<T>(front: seq<T>, x: T)
    requires x !in front
    ensures FirstIndex(front + [x], x) == |front|
  {
  }

  lemma {:induction false} FirstIndexPrefix<T>(front: seq<T>, x: T, a: T)
    requires a in front
    ensures FirstIndex(front + [x], a) == FirstIndex(front, a)
  {
    if front[0] != a {
      assert (front + [x])[1..] == front[1..] + [x];
      assert front == [front[0]] + front[1..];
      FirstIndexPrefix(front[1..], x, a);
    }
  }
}
