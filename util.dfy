/** The collection helpers the charts and the link rewriter call (lodash's `reverse`,
    `union`, `max`, `minBy`, `flatten`, and `Array.prototype.reverse` in place),
    each given here with the behaviour those libraries document. */
module Util {

  datatype Option<+T> = None | Some(value: T) {
    /** `x ?? d` in the source. */
    function GetOr(default: T): T {
      match this
      case Some(v) => v
      case None => default
    }
  }

  /** A CSS colour string. */
  type Color = string

  function Abs(x: real): real {
    if x < 0.0 then -x else x
  }

  // ---------------------------------------------------------------- reverse

  /** The elements of `s` in the opposite order. */
  function Reversed<T>(s: seq<T>): (r: seq<T>)
    ensures |r| == |s|
    ensures forall i :: 0 <= i < |s| ==> r[i] == s[|s| - 1 - i]
  {
    if s == [] then [] else [s[|s| - 1]] + Reversed(s[..|s| - 1])
  }

  lemma {:induction false} ReversedTwice<T>(s: seq<T>)
    ensures Reversed(Reversed(s)) == s
  {
    var r := Reversed(Reversed(s));
    assert |r| == |s|;
    forall i | 0 <= i < |s| ensures r[i] == s[i] {
      assert r[i] == Reversed(s)[|s| - 1 - i];
    }
  }

  /** `Array.prototype.reverse`: reverses the array in place. */
  method ReverseInPlace<T>(a: array<T>)
    modifies a
    ensures a[..] == Reversed(old(a[..]))
  {
    var n := a.Length;
    var i := 0;
    while i < n / 2
      invariant 0 <= i <= n / 2
      invariant forall k :: 0 <= k < i ==> a[k] == old(a[n - 1 - k]) && a[n - 1 - k] == old(a[k])
      invariant forall k :: i <= k < n - i ==> a[k] == old(a[k])
    {
      a[i], a[n - 1 - i] := a[n - 1 - i], a[i];
      i := i + 1;
    }
    assert forall k :: 0 <= k < n ==> a[..][k] == Reversed(old(a[..]))[k];
  }

  // ---------------------------------------------------------------- flatten

  /** lodash `flatten`: the inner sequences one after another. Every element of
      every inner sequence is in the result, and every element of the result comes
      from some inner sequence. */
  function Flatten<T>(ss: seq<seq<T>>): (r: seq<T>)
    ensures r == [] <==> forall i :: 0 <= i < |ss| ==> ss[i] == []
    ensures forall i :: 0 <= i < |ss| ==> |ss[i]| <= |r|
    ensures forall i, j :: 0 <= i < |ss| && 0 <= j < |ss[i]| ==> ss[i][j] in r
    ensures forall k :: 0 <= k < |r| ==> exists i :: 0 <= i < |ss| && r[k] in ss[i]
  {
    if ss == [] then []
    else
      var rest := Flatten(ss[1..]);
      assert forall i :: 1 <= i < |ss| ==> ss[i] == ss[1..][i - 1];
      assert forall k :: |ss[0]| <= k < |ss[0]| + |rest| ==>
        (ss[0] + rest)[k] == rest[k - |ss[0]|];
      assert forall k :: |ss[0]| <= k < |ss[0]| + |rest| ==>
        exists i :: 0 <= i < |ss| && (ss[0] + rest)[k] in ss[i] by {
        forall k | |ss[0]| <= k < |ss[0]| + |rest|
          ensures exists i :: 0 <= i < |ss| && (ss[0] + rest)[k] in ss[i]
        {
          var i' :| 0 <= i' < |ss[1..]| && rest[k - |ss[0]|] in ss[1..][i'];
          assert (ss[0] + rest)[k] in ss[i' + 1];
        }
      }
      ss[0] + rest
  }

  // ---------------------------------------------------------------- max / minBy

  /** lodash `max`: undefined for an empty list, otherwise its largest element. */
  function MaxOf(s: seq<real>): (r: Option<real>)
    ensures r.None? <==> s == []
    ensures r.Some? ==> r.value in s
    ensures r.Some? ==> forall i :: 0 <= i < |s| ==> s[i] <= r.value
  {
    if s == [] then None
    else
      var rest := MaxOf(s[1..]);
      if rest.None? || rest.value < s[0] then Some(s[0]) else rest
  }

  /** The index lodash `minBy` settles on: it scans left to right and replaces its
      candidate only on a strictly smaller key, so the first minimum wins. */
  function MinByIndex(keys: seq<real>): (k: nat)
    requires |keys| > 0
    ensures k < |keys|
    ensures forall j :: 0 <= j < |keys| ==> keys[k] <= keys[j]
    ensures forall j :: 0 <= j < k ==> keys[k] < keys[j]
  {
    if |keys| == 1 then 0
    else
      var k := MinByIndex(keys[..|keys| - 1]);
      if keys[|keys| - 1] < keys[k] then |keys| - 1 else k
  }

  // ---------------------------------------------------------------- union

  predicate NoDuplicates<T(==)>(s: seq<T>) {
    forall i, j :: 0 <= i < j < |s| ==> s[i] != s[j]
  }

  /** The position of the first occurrence of `x` in `s`. */
  function FirstIndex<T(==)>(s: seq<T>, x: T): (k: nat)
    requires x in s
    ensures k < |s| && s[k] == x
    ensures forall j :: 0 <= j < k ==> s[j] != x
  {
    if s[0] == x then 0 else 1 + FirstIndex(s[1..], x)
  }

  /** Extending a sequence does not move the first occurrence of an element it had. */
  lemma {:induction false} FirstIndexOfPrefix<T>(p: seq<T>, q: seq<T>, x: T)
    requires x in p
    ensures x in p + q && FirstIndex(p + q, x) == FirstIndex(p, x)
  {
    if p[0] != x {
      assert (p + q)[1..] == p[1..] + q;
      FirstIndexOfPrefix(p[1..], q, x);
    }
  }

  /** Keeps the first occurrence of every element, in order (lodash `uniq`): the
      result has no duplicates and holds exactly the elements of `s`;
      `DedupFirstOccurrenceOrder` gives the order. */
  function Dedup<T(==)>(s: seq<T>): (r: seq<T>)
    ensures NoDuplicates(r)
    ensures forall i :: 0 <= i < |s| ==> s[i] in r
    ensures forall i :: 0 <= i < |r| ==> r[i] in s
    ensures |r| <= |s|
  {
    if s == [] then []
    else
      var d := Dedup(s[..|s| - 1]);
      if s[|s| - 1] in d then d else d + [s[|s| - 1]]
  }

  /** The distinct elements come in the order of their first occurrences in `s`. */
  lemma {:induction false} DedupFirstOccurrenceOrder<T>(s: seq<T>)
    ensures forall i, j :: 0 <= i < j < |Dedup(s)| ==> FirstIndex(s, Dedup(s)[i]) < FirstIndex(s, Dedup(s)[j])
  {
    if s != [] {
      var p := s[..|s| - 1];
      var x := s[|s| - 1];
      assert s == p + [x];
      DedupFirstOccurrenceOrder(p);
      var d := Dedup(p);
      forall i | 0 <= i < |d| ensures d[i] in p && FirstIndex(s, d[i]) == FirstIndex(p, d[i]) {
        FirstIndexOfPrefix(p, [x], d[i]);
      }
      if x !in d {
        assert x !in p;
        assert FirstIndex(s, x) == |s| - 1;
        assert Dedup(s) == d + [x];
      }
    }
  }

  /** The elements of `s` that are not in `a`, in order. */
  function Without<T(==)>(s: seq<T>, a: seq<T>): (r: seq<T>)
    ensures forall k :: 0 <= k < |r| ==> r[k] in s && r[k] !in a
    ensures forall i :: 0 <= i < |s| && s[i] !in a ==> s[i] in r
  {
    if s == [] then []
    else
      var p := s[..|s| - 1];
      assert forall i :: 0 <= i < |p| ==> s[i] == p[i];
      Without(p, a) + (if s[|s| - 1] in a then [] else [s[|s| - 1]])
  }

  /** lodash `union`: the distinct elements of `a` then `b`, in order of first occurrence. */
  function Union<T(==)>(a: seq<T>, b: seq<T>): seq<T> {
    Dedup(a + b)
  }

  /** Deduplicating a longer list only appends to the deduplicated prefix. */
  lemma DedupPrefix<T>(a: seq<T>, b: seq<T>)
    ensures Dedup(a) <= Dedup(a + b)
  {
    DedupAppend(a, b);
  }

  lemma DedupMember<T>(s: seq<T>, x: T)
    ensures x in Dedup(s) <==> x in s
  {
    var d := Dedup(s);
    if x in d {
      var k :| 0 <= k < |d| && d[k] == x;
    }
    if x in s {
      var i :| 0 <= i < |s| && s[i] == x;
    }
  }

  /** Deduplicating one more element that is already there changes nothing. */
  lemma DedupSnocOld<T>(s: seq<T>, x: T)
    requires x in s
    ensures Dedup(s + [x]) == Dedup(s)
  {
    var e := s + [x];
    assert e[..|e| - 1] == s;
    DedupMember(s, x);
  }

  /** Deduplicating one more, new element appends it. */
  lemma DedupSnocNew<T>(s: seq<T>, x: T)
    requires x !in s
    ensures Dedup(s + [x]) == Dedup(s) + [x]
  {
    var e := s + [x];
    assert e[..|e| - 1] == s;
    DedupMember(s, x);
  }

  lemma WithoutSnoc<T>(s: seq<T>, x: T, a: seq<T>)
    ensures Without(s + [x], a) == Without(s, a) + (if x in a then [] else [x])
  {
    var e := s + [x];
    assert e[..|e| - 1] == s;
  }

  /** Deduplicating `a + b` gives the distinct elements of `a`, then the distinct
      elements of `b` that are not in `a`, each part in first-occurrence order. */
  lemma {:induction false} DedupAppend<T>(a: seq<T>, b: seq<T>)
    ensures Dedup(a + b) == Dedup(a) + Without(Dedup(b), a)
  {
    if b == [] {
      assert a + b == a;
    } else {
      var p := b[..|b| - 1];
      var x := b[|b| - 1];
      assert b == p + [x];
      assert a + b == (a + p) + [x];
      DedupAppend(a, p);
      DedupAppendStep(a, p, x);
    }
  }

  /** One step of `DedupAppend`: appending `x` to `b`. */
  lemma DedupAppendStep<T>(a: seq<T>, p: seq<T>, x: T)
    requires Dedup(a + p) == Dedup(a) + Without(Dedup(p), a)
    ensures Dedup((a + p) + [x]) == Dedup(a) + Without(Dedup(p + [x]), a)
  {
    InConcat(a, p, x);
    if x in p {
      StepSeen(a, p, x);
    } else if x in a {
      StepInFirst(a, p, x);
    } else {
      StepNew(a, p, x);
    }
  }

  /** The appended element was already in `b`. */
  lemma StepSeen<T>(a: seq<T>, p: seq<T>, x: T)
    requires x in p && x in a + p
    requires Dedup(a + p) == Dedup(a) + Without(Dedup(p), a)
    ensures Dedup((a + p) + [x]) == Dedup(a) + Without(Dedup(p + [x]), a)
  {
    DedupSnocOld(a + p, x);
    DedupSnocOld(p, x);
  }

  /** The appended element is new to `b` but is in `a`. */
  lemma StepInFirst<T>(a: seq<T>, p: seq<T>, x: T)
    requires x !in p && x in a && x in a + p
    requires Dedup(a + p) == Dedup(a) + Without(Dedup(p), a)
    ensures Dedup((a + p) + [x]) == Dedup(a) + Without(Dedup(p + [x]), a)
  {
    DedupSnocOld(a + p, x);
    DedupSnocNew(p, x);
    WithoutSnoc(Dedup(p), x, a);
  }

  /** The appended element is in neither list. */
  lemma StepNew<T>(a: seq<T>, p: seq<T>, x: T)
    requires x !in p && x !in a && x !in a + p
    requires Dedup(a + p) == Dedup(a) + Without(Dedup(p), a)
    ensures Dedup((a + p) + [x]) == Dedup(a) + Without(Dedup(p + [x]), a)
  {
    DedupSnocNew(a + p, x);
    NewTail(a, p, x);
    SnocRegroup(Dedup(a + p), Dedup(a), Without(Dedup(p), a), x);
  }

  /** The deduplicated tail of `b` gains the new element at its end. */
  lemma NewTail<T>(a: seq<T>, p: seq<T>, x: T)
    requires x !in p && x !in a
    ensures Without(Dedup(p + [x]), a) == Without(Dedup(p), a) + [x]
  {
    DedupSnocNew(p, x);
    WithoutSnoc(Dedup(p), x, a);
  }

  lemma SnocRegroup<T>(u: seq<T>, v: seq<T>, w: seq<T>, x: T)
    requires u == v + w
    ensures u + [x] == v + (w + [x])
  {
  }

  lemma InConcat<T>(a: seq<T>, b: seq<T>, x: T)
    ensures x in a + b <==> x in a || x in b
  {
    if x in a {
      var i :| 0 <= i < |a| && a[i] == x;
      assert (a + b)[i] == x;
    }
    if x in b {
      var i :| 0 <= i < |b| && b[i] == x;
      assert (a + b)[|a| + i] == x;
    }
    if x in a + b {
      var i :| 0 <= i < |a + b| && (a + b)[i] == x;
      if i >= |a| {
        assert b[i - |a|] == x;
      }
    }
  }

  /** The union has no duplicates, holds exactly the elements of both lists, and is
      the distinct elements of the first list in their own order followed by the
      distinct elements of the second list that the first lacks, in their order. */
  lemma UnionProperties<T>(a: seq<T>, b: seq<T>)
    ensures NoDuplicates(Union(a, b))
    ensures forall i :: 0 <= i < |a| ==> a[i] in Union(a, b)
    ensures forall i :: 0 <= i < |b| ==> b[i] in Union(a, b)
    ensures forall i :: 0 <= i < |Union(a, b)| ==> Union(a, b)[i] in a || Union(a, b)[i] in b
    ensures Dedup(a) <= Union(a, b)
    ensures Union(a, b) == Dedup(a) + Without(Dedup(b), a)
  {
    var ab := a + b;
    var u := Dedup(ab);
    forall i | 0 <= i < |a| ensures a[i] in u {
      assert a[i] == ab[i];
    }
    forall i | 0 <= i < |b| ensures b[i] in u {
      assert b[i] == ab[|a| + i];
    }
    forall i | 0 <= i < |u| ensures u[i] in a || u[i] in b {
      assert u[i] in ab;
    }
    DedupAppend(a, b);
  }

  /** A list without duplicates is left as it is. */
  lemma {:induction false} DedupOfDistinct<T>(s: seq<T>)
    requires NoDuplicates(s)
    ensures Dedup(s) == s
  {
    if s != [] {
      var p := s[..|s| - 1];
      assert NoDuplicates(p);
      DedupOfDistinct(p);
      assert s[|s| - 1] !in p;
      assert p + [s[|s| - 1]] == s;
    }
  }
}
