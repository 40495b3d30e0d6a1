/** Facts about sequences that the intrusive lists are specified with. */
module Sequences {

  ghost predicate Distinct<T>(s: seq<T>) {
    forall i, j | 0 <= i < j < |s| :: s[i] != s[j]
  }

  /** `s` with every occurrence of `x` deleted. */
  function Without<T(==)>(s: seq<T>, x: T): seq<T> {
    if s == [] then []
    else if s[0] == x then Without(s[1..], x)
    else [s[0]] + Without(s[1..], x)
  }

  ghost predicate IsSuffix<T>(a: seq<T>, b: seq<T>) {
    |a| <= |b| && b[|b| - |a|..] == a
  }

  ghost predicate Disjoint<T>(a: seq<T>, b: seq<T>) {
    forall x | x in a :: x !in b
  }

  /** `r` has the members of `s` other than `x`. */
  ghost predicate LosesOnly<T>(s: seq<T>, r: seq<T>, x: T) {
    && (forall y | y in r :: y in s && y != x)
    && (forall y | y in s && y != x :: y in r)
  }

  lemma {:induction false} WithoutMembers<T>(s: seq<T>, x: T)
    ensures LosesOnly(s, Without(s, x), x)
    ensures |Without(s, x)| <= |s|
  {
    if s != [] {
      WithoutMembers(s[1..], x);
    }
  }

  lemma {:induction false} WithoutAbsent<T>(s: seq<T>, x: T)
    requires x !in s
    ensures Without(s, x) == s
  {
    if s != [] {
      WithoutAbsent(s[1..], x);
    }
  }

  lemma {:induction false} WithoutConcat<T>(a: seq<T>, b: seq<T>, x: T)
    ensures Without(a + b, x) == Without(a, x) + Without(b, x)
  {
    if a == [] {
      assert a + b == b;
    } else {
      assert (a + b)[1..] == a[1..] + b;
      WithoutConcat(a[1..], b, x);
    }
  }

  /** In a duplicate-free sequence, deleting an element is cutting out one position. */
  lemma WithoutAt<T>(s: seq<T>, i: nat)
    requires i < |s| && Distinct(s)
    ensures Without(s, s[i]) == s[..i] + s[i + 1..]
  {
    hide Without;
    var x := s[i];
    assert s == (s[..i] + [x]) + s[i + 1..];
    WithoutConcat(s[..i] + [x], s[i + 1..], x);
    WithoutConcat(s[..i], [x], x);
    WithoutAbsent(s[..i], x);
    WithoutAbsent(s[i + 1..], x);
    WithoutSingle(x);
  }

  lemma WithoutSingle<T>(x: T)
    ensures Without([x], x) == []
  {
  }

  lemma DistinctConcat<T>(a: seq<T>, b: seq<T>)
    requires Distinct(a) && Distinct(b) && Disjoint(a, b)
    ensures Distinct(a + b)
  {
    forall i, j | 0 <= i < j < |a + b|
      ensures (a + b)[i] != (a + b)[j]
    {
      if i < |a| <= j {
        assert a[i] in a && b[j - |a|] in b;
      }
    }
  }

  lemma DistinctCut<T>(s: seq<T>, i: nat)
    requires i < |s| && Distinct(s)
    ensures Distinct(s[..i] + s[i + 1..])
  {
    var cut := s[..i] + s[i + 1..];
    forall j, k | 0 <= j < k < |cut|
      ensures cut[j] != cut[k]
    {
      assert cut[j] == s[if j < i then j else j + 1];
      assert cut[k] == s[if k < i then k else k + 1];
    }
  }

  lemma SuffixTransitive<T>(a: seq<T>, b: seq<T>, c: seq<T>)
    requires IsSuffix(a, b) && IsSuffix(b, c)
    ensures IsSuffix(a, c)
  {
    assert c[|c| - |a|..] == c[|c| - |b|..][|b| - |a|..];
  }

  lemma SuffixOfPrepend<T>(a: seq<T>, x: T)
    ensures IsSuffix(a, [x] + a)
  {
    assert ([x] + a)[1..] == a;
  }

  lemma DistinctPrepend<T>(x: T, s: seq<T>)
    requires Distinct(s) && x !in s
    ensures Distinct([x] + s)
  {
    forall i, j | 0 <= i < j < |[x] + s|
      ensures ([x] + s)[i] != ([x] + s)[j]
    {
      assert ([x] + s)[j] == s[j - 1];
    }
  }

  ghost predicate AllIn<T>(a: seq<T>, b: seq<T>) {
    forall x | x in a :: x in b
  }

  /** A duplicate-free sequence is no longer than one that has all its members. */
  lemma {:induction false} DistinctIsShorter<T>(a: seq<T>, b: seq<T>)
    requires Distinct(a) && AllIn(a, b)
    ensures |a| <= |b|
  {
    if a != [] {
      assert a[0] in b;
      var i :| 0 <= i < |b| && b[i] == a[0];
      var tail, rest := a[1..], b[..i] + b[i + 1..];
      forall j | 0 <= j < |tail|
        ensures tail[j] in rest
      {
        assert a[j + 1] != a[0] && a[j + 1] in b;
        var k :| 0 <= k < |b| && b[k] == a[j + 1];
        assert rest[if k < i then k else k - 1] == tail[j];
      }
      assert Distinct(tail) by {
        assert forall k | 0 <= k < |tail| :: tail[k] == a[k + 1];
      }
      DistinctIsShorter(tail, rest);
    }
  }
}
