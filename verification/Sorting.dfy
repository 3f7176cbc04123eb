/** What Python's `sorted` promises: the same elements, in nondecreasing order, ties left in place. */
module Sorting {

  ghost predicate TotalPreorder<T(!new)>(le: (T, T) -> bool) {
    && (forall x, y :: le(x, y) || le(y, x))
    && (forall x, y, z :: le(x, y) && le(y, z) ==> le(x, z))
  }

  /** Every element is ordered before every later one. */
  ghost predicate Sorted<T>(le: (T, T) -> bool, s: seq<T>) {
    forall i, j :: 0 <= i < j < |s| ==> le(s[i], s[j])
  }

  function Insert<T>(le: (T, T) -> bool, x: T, s: seq<T>): (r: seq<T>)
    ensures |r| == |s| + 1
  {
    if s == [] then [x]
    else if le(x, s[0]) then [x] + s
    else [s[0]] + Insert(le, x, s[1..])
  }

  function Sort<T>(le: (T, T) -> bool, s: seq<T>): (r: seq<T>)
    ensures |r| == |s|
  {
    if s == [] then [] else Insert(le, s[0], Sort(le, s[1..]))
  }

  lemma {:induction false} InsertKeepsElements<T>(le: (T, T) -> bool, x: T, s: seq<T>)
    ensures multiset(Insert(le, x, s)) == multiset{x} + multiset(s)
  {
    if s != [] && !le(x, s[0]) {
      InsertKeepsElements(le, x, s[1..]);
      assert s == [s[0]] + s[1..];
    }
  }

  lemma {:induction false} InsertKeepsSorted<T(!new)>(le: (T, T) -> bool, x: T, s: seq<T>)
    requires TotalPreorder(le) && Sorted(le, s)
    ensures Sorted(le, Insert(le, x, s))
  {
    if s != [] && !le(x, s[0]) {
      InsertKeepsSorted(le, x, s[1..]);
      InsertKeepsElements(le, x, s[1..]);
      var rest := Insert(le, x, s[1..]);
      forall j | 0 <= j < |rest| ensures le(s[0], rest[j]) {
        assert rest[j] in multiset(rest);
      }
    } else if s != [] {
      assert forall j :: 0 <= j < |s| ==> le(x, s[j]) by {
        assert forall j :: 0 < j < |s| ==> le(s[0], s[j]);
      }
    }
  }

  lemma {:induction false} SortSorts<T(!new)>(le: (T, T) -> bool, s: seq<T>)
    requires TotalPreorder(le)
    ensures Sorted(le, Sort(le, s))
    ensures multiset(Sort(le, s)) == multiset(s)
  {
    if s != [] {
      SortSorts(le, s[1..]);
      InsertKeepsSorted(le, s[0], Sort(le, s[1..]));
      InsertKeepsElements(le, s[0], Sort(le, s[1..]));
      assert s == [s[0]] + s[1..];
    }
  }

  /** An ordered sequence starts with a least element. */
  lemma LeastFirst<T(!new)>(le: (T, T) -> bool, s: seq<T>, x: T)
    requires TotalPreorder(le) && Sorted(le, s)
    requires x in multiset(s)
    ensures s != [] && le(s[0], x)
  {
  }

  lemma TailElements<T>(s: seq<T>)
    requires s != []
    ensures s[0] in multiset(s)
    ensures multiset(s[1..]) == multiset(s) - multiset{s[0]}
  {
    assert s == [s[0]] + s[1..];
    assert multiset(s) == multiset{s[0]} + multiset(s[1..]);
  }

  /** When ties are equal elements, an ordered arrangement of a multiset is unique. */
  lemma {:induction false} SortedIsUnique<T(!new)>(le: (T, T) -> bool, s: seq<T>, t: seq<T>)
    requires TotalPreorder(le)
    requires forall x, y :: le(x, y) && le(y, x) ==> x == y
    requires Sorted(le, s) && Sorted(le, t)
    requires multiset(s) == multiset(t)
    ensures s == t
  {
    assert |s| == |multiset(s)| == |multiset(t)| == |t|;
    if s != [] {
      TailElements(s);
      TailElements(t);
      LeastFirst(le, s, t[0]);
      LeastFirst(le, t, s[0]);
      assert s[0] == t[0];
      SortedIsUnique(le, s[1..], t[1..]);
      assert s == [s[0]] + s[1..] && t == [t[0]] + t[1..];
    }
  }
}
