/** In-place sorting of an array by a real-valued key, in the role of
    JavaScript's `Array.prototype.sort` with a numeric comparator. */
module Sorting {

  predicate SortedBy<T>(s: seq<T>, key: T -> real)
  {
    forall p, q :: 0 <= p < q < |s| ==> key(s[p]) <= key(s[q])
  }

  /** The elements of s whose key is v, in their order in s. */
  function KeyClass<T>(s: seq<T>, key: T -> real, v: real): seq<T>
  {
    if s == [] then [] else (if key(s[0]) == v then [s[0]] else []) + KeyClass(s[1..], key, v)
  }

  /** s and t hold the same elements of every key in the same relative order:
      the guarantee of a stable sort. */
  ghost predicate SameKeyClasses<T>(s: seq<T>, t: seq<T>, key: T -> real)
  {
    forall v :: KeyClass(s, key, v) == KeyClass(t, key, v)
  }

  /** Sorts `a` into ascending key order by insertion: each element is swapped
      leftwards past every element with a strictly larger key, so elements with
      equal keys are never exchanged and keep their relative order. */
  method InsertionSortBy<T>(a: array<T>, key: T -> real)
    modifies a
    ensures SortedBy(a[..], key)
    ensures multiset(a[..]) == multiset(old(a[..]))
    ensures SameKeyClasses(a[..], old(a[..]), key)
  {
    if a.Length == 0 {
      return;
    }
    var i := 1;
    while i < a.Length
      invariant 1 <= i <= a.Length
      invariant SortedBy(a[..i], key)
      invariant multiset(a[..]) == multiset(old(a[..]))
      invariant SameKeyClasses(a[..], old(a[..]), key)
    {
      Insert(a, i, key);
      i := i + 1;
    }
    assert a[..i] == a[..];
  }

  /** Moves a[i] left into the sorted prefix a[..i], leaving a[..i+1] sorted. */
  method Insert<T>(a: array<T>, i: nat, key: T -> real)
    requires i < a.Length
    requires SortedBy(a[..i], key)
    modifies a
    ensures SortedBy(a[..i + 1], key)
    ensures multiset(a[..]) == multiset(old(a[..]))
    ensures SameKeyClasses(a[..], old(a[..]), key)
  {
    var j := i;
    while j > 0 && key(a[j - 1]) > key(a[j])
      invariant 0 <= j <= i
      invariant forall p, q :: 0 <= p < q <= i && p != j && q != j ==> key(a[p]) <= key(a[q])
      invariant forall q :: j < q <= i ==> key(a[j]) < key(a[q])
      invariant multiset(a[..]) == multiset(old(a[..]))
      invariant SameKeyClasses(a[..], old(a[..]), key)
    {
      ghost var before := a[..];
      Swap(a, j - 1, j);
      AdjacentSwapKeepsClasses(before, a[..], j, key);
      j := j - 1;
    }
  }

  method Swap<T>(a: array<T>, i: nat, j: nat)
    requires i < j < a.Length
    modifies a
    ensures a[i] == old(a[j]) && a[j] == old(a[i])
    ensures forall k :: 0 <= k < a.Length && k != i && k != j ==> a[k] == old(a[k])
    ensures multiset(a[..]) == multiset(old(a[..]))
  {
    a[i], a[j] := a[j], a[i];
  }

  lemma {:induction false} KeyClassAppend<T>(s: seq<T>, t: seq<T>, key: T -> real, v: real)
    ensures KeyClass(s + t, key, v) == KeyClass(s, key, v) + KeyClass(t, key, v)
  {
    if s == [] {
      assert s + t == t;
    } else {
      var head := if key(s[0]) == v then [s[0]] else [];
      assert (s + t)[0] == s[0] && (s + t)[1..] == s[1..] + t;
      KeyClassAppend(s[1..], t, key, v);
      calc {
        KeyClass(s + t, key, v);
        head + KeyClass(s[1..] + t, key, v);
        head + (KeyClass(s[1..], key, v) + KeyClass(t, key, v));
        (head + KeyClass(s[1..], key, v)) + KeyClass(t, key, v);
      }
    }
  }

  /** Exchanging two neighbours with different keys keeps every key class. */
  lemma AdjacentSwapKeepsClasses<T>(s: seq<T>, s': seq<T>, j: nat, key: T -> real)
    requires 0 < j < |s| == |s'|
    requires s'[j - 1] == s[j] && s'[j] == s[j - 1] && key(s[j - 1]) != key(s[j])
    requires forall k :: 0 <= k < |s| && k != j - 1 && k != j ==> s'[k] == s[k]
    ensures SameKeyClasses(s', s, key)
  {
    var x, y := s[j - 1], s[j];
    assert s == s[..j - 1] + [x, y] + s[j + 1..];
    assert s' == s[..j - 1] + [y, x] + s[j + 1..];
    forall v
      ensures KeyClass(s', key, v) == KeyClass(s, key, v)
    {
      KeyClassAppend(s[..j - 1] + [x, y], s[j + 1..], key, v);
      KeyClassAppend(s[..j - 1], [x, y], key, v);
      KeyClassAppend(s[..j - 1] + [y, x], s[j + 1..], key, v);
      KeyClassAppend(s[..j - 1], [y, x], key, v);
      assert [x, y][1..] == [y] && [y, x][1..] == [x];
      assert [x][1..] == [] && [y][1..] == [];
    }
  }

  lemma {:induction false} KeyClassMembers<T>(s: seq<T>, key: T -> real, v: real)
    ensures forall x :: x in KeyClass(s, key, v) ==> x in s && key(x) == v
    ensures forall k :: 0 <= k < |s| && key(s[k]) == v ==> KeyClass(s, key, v) != []
  {
    if s != [] {
      KeyClassMembers(s[1..], key, v);
      forall k | 0 <= k < |s| && key(s[k]) == v
        ensures KeyClass(s, key, v) != []
      {
        if k > 0 {
          assert s[1..][k - 1] == s[k];
        }
      }
    }
  }

  /** A sorted sequence is determined by its key classes: two sorted
      arrangements with the same key classes are equal. So a sort that is
      stable has exactly one possible result. */
  lemma {:induction false} SortedStableUnique<T>(s: seq<T>, t: seq<T>, key: T -> real)
    requires SortedBy(s, key) && SortedBy(t, key) && SameKeyClasses(s, t, key)
    ensures s == t
    decreases |s|
  {
    if s != [] {
      KeyClassMembers(s, key, key(s[0]));
      KeyClassMembers(t, key, key(s[0]));
    }
    if t != [] {
      KeyClassMembers(t, key, key(t[0]));
      KeyClassMembers(s, key, key(t[0]));
    }
    if s != [] && t != [] {
      var m, n := key(s[0]), key(t[0]);
      var y := KeyClass(s, key, m)[0];
      assert y in KeyClass(t, key, m);
      var q :| 0 <= q < |t| && t[q] == y;
      assert n <= m;
      var z := KeyClass(t, key, n)[0];
      assert z in KeyClass(s, key, n);
      var p :| 0 <= p < |s| && s[p] == z;
      assert m <= n;
      assert s[0] == t[0];
      forall v
        ensures KeyClass(s[1..], key, v) == KeyClass(t[1..], key, v)
      {
        var h := if key(s[0]) == v then [s[0]] else [];
        assert KeyClass(s, key, v) == h + KeyClass(s[1..], key, v);
        assert KeyClass(t, key, v) == h + KeyClass(t[1..], key, v);
        assert KeyClass(s[1..], key, v) == (h + KeyClass(s[1..], key, v))[|h|..];
        assert KeyClass(t[1..], key, v) == (h + KeyClass(t[1..], key, v))[|h|..];
      }
      SortedStableUnique(s[1..], t[1..], key);
      assert s == [s[0]] + s[1..] && t == [t[0]] + t[1..];
    }
  }
}
