/** Facts about sequences that several components share. */
module Sequences {

  predicate NoDup<T(==)>(s: seq<T>) {
    forall i, j :: 0 <= i < j < |s| ==> s[i] != s[j]
  }

  /** The elements satisfying `p`, in order: Python's `[x for x in s if p(x)]`. */
  function Filter<T(!new)>(s: seq<T>, p: T -> bool): (r: seq<T>)
    ensures forall x :: x in r <==> x in s && p(x)
    ensures |r| <= |s|
  {
    if s == [] then []
    else (if p(s[0]) then [s[0]] else []) + Filter(s[1..], p)
  }

  lemma {:induction false} FilterConcat<T(!new)>(a: seq<T>, b: seq<T>, p: T -> bool)
    ensures Filter(a + b, p) == Filter(a, p) + Filter(b, p)
  {
    if a == [] {
      assert a + b == b;
    } else {
      assert (a + b)[1..] == a[1..] + b;
      FilterConcat(a[1..], b, p);
    }
  }

  lemma {:induction false} FilterAll<T(!new)>(s: seq<T>, p: T -> bool)
    requires forall x :: x in s ==> p(x)
    ensures Filter(s, p) == s
  {
    if s != [] {
      FilterAll(s[1..], p);
    }
  }

  lemma {:induction false} FilterNone<T(!new)>(s: seq<T>, p: T -> bool)
    requires forall x :: x in s ==> !p(x)
    ensures Filter(s, p) == []
  {
    if s != [] {
      FilterNone(s[1..], p);
    }
  }

  lemma FilterSuffix<T(!new)>(a: seq<T>, b: seq<T>, p: T -> bool)
    requires forall x :: x in a ==> !p(x)
    requires forall x :: x in b ==> p(x)
    ensures Filter(a + b, p) == b
  {
    FilterNone(a, p);
    FilterAll(b, p);
    FilterConcat(a, b, p);
  }

  lemma ConcatAssoc<T>(a: seq<T>, b: seq<T>, c: seq<T>)
    ensures a + (b + c) == (a + b) + c
  {
  }

  /**
   Appending `b` to a duplicate-free `a` keeps it so exactly when `b` is duplicate-free and shares nothing with `a`.
   */
  lemma NoDupConcat<T(!new)>(a: seq<T>, b: seq<T>)
    ensures NoDup(a + b) <==> NoDup(a) && NoDup(b) && forall x :: x in a ==> x !in b
  {
    var s := a + b;
    assert forall i :: 0 <= i < |a| ==> s[i] == a[i];
    assert forall j :: 0 <= j < |b| ==> s[|a| + j] == b[j];
    if NoDup(s) {
      forall i, j | 0 <= i < j < |b| ensures b[i] != b[j] {
        assert s[|a| + i] == b[i] && s[|a| + j] == b[j];
      }
      forall i, j | 0 <= i < |a| && 0 <= j < |b| ensures a[i] != b[j] {
        assert s[i] == a[i] && s[|a| + j] == b[j];
      }
    }
    if NoDup(a) && NoDup(b) && (forall x :: x in a ==> x !in b) {
      forall i, j | 0 <= i < j < |s| ensures s[i] != s[j] {
        if i < |a| && |a| <= j {
          assert s[i] in a && s[j] == b[j - |a|] && s[j] in b;
        }
      }
    }
  }
}
