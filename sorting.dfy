/** Python's `sorted`/`list.sort` with a key, as the reports use it: a
    stable sort by a total preorder, ascending or (with `reverse=True`)
    descending. */
module Sorting {

  /** `le` orders every pair and is transitive. */
  ghost predicate TotalPreorder<T(!new)>(le: (T, T) -> bool) {
    (forall a, b :: le(a, b) || le(b, a))
    && (forall a, b, c :: le(a, b) && le(b, c) ==> le(a, c))
  }

  ghost predicate SortedBy<T>(s: seq<T>, le: (T, T) -> bool) {
    forall i, j :: 0 <= i < j < |s| ==> le(s[i], s[j])
  }

  /** Puts `x` after every element of `s`, from the front, that is not
      above it, so equal keys keep their order of arrival. */
  function Insert<T>(x: T, s: seq<T>, le: (T, T) -> bool): (r: seq<T>)
    ensures multiset(r) == multiset(s) + multiset{x} && |r| == |s| + 1
  {
    if s == [] then [x]
    else if le(s[0], x) then
      assert s == [s[0]] + s[1..];
      [s[0]] + Insert(x, s[1..], le)
    else [x] + s
  }

  lemma {:induction false} InsertSorted<T(!new)>(x: T, s: seq<T>, le: (T, T) -> bool)
    requires TotalPreorder(le) && SortedBy(s, le)
    ensures SortedBy(Insert(x, s, le), le)
  {
    if s != [] && le(s[0], x) {
      var t := Insert(x, s[1..], le);
      InsertSorted(x, s[1..], le);
      InsertAbove(x, s, le);
      assert Insert(x, s, le) == [s[0]] + t;
      ConsSorted(s[0], t, le);
    }
  }

  /** Behind the head of `s`, everything `Insert` places is above that head. */
  lemma InsertAbove<T>(x: T, s: seq<T>, le: (T, T) -> bool)
    requires SortedBy(s, le) && s != [] && le(s[0], x)
    ensures forall j :: 0 <= j < |Insert(x, s[1..], le)| ==> le(s[0], Insert(x, s[1..], le)[j])
  {
    var t := Insert(x, s[1..], le);
    forall j | 0 <= j < |t| ensures le(s[0], t[j]) {
      InsertFrom(x, s[1..], le, j);
      if t[j] != x {
        var k :| 0 <= k < |s[1..]| && s[1..][k] == t[j];
        assert s[k + 1] == t[j];
      }
    }
  }

  /** Each element `Insert` places is `x` or an element of `s`. */
  lemma {:induction false} InsertFrom<T>(x: T, s: seq<T>, le: (T, T) -> bool, j: nat)
    requires j < |Insert(x, s, le)|
    ensures Insert(x, s, le)[j] == x || Insert(x, s, le)[j] in s
  {
    if s != [] {
      assert s == [s[0]] + s[1..];
      if le(s[0], x) && j > 0 {
        InsertFrom(x, s[1..], le, j - 1);
      }
    }
  }

  lemma ConsSorted<T>(a: T, t: seq<T>, le: (T, T) -> bool)
    requires SortedBy(t, le)
    requires forall j :: 0 <= j < |t| ==> le(a, t[j])
    ensures SortedBy([a] + t, le)
  {
    var r := [a] + t;
    forall i, j | 0 <= i < j < |r| ensures le(r[i], r[j]) {
      if i == 0 { assert r[j] == t[j - 1]; } else { assert r[i] == t[i - 1] && r[j] == t[j - 1]; }
    }
  }

  /** The list sorted by `le`: an insertion sort that takes the elements in
      their original order. */
  function SortBy<T(!new)>(s: seq<T>, le: (T, T) -> bool): (r: seq<T>)
    requires TotalPreorder(le)
    ensures multiset(r) == multiset(s) && |r| == |s|
    ensures SortedBy(r, le)
  {
    if s == [] then []
    else
      assert s == s[..|s| - 1] + [s[|s| - 1]];
      InsertSorted(s[|s| - 1], SortBy(s[..|s| - 1], le), le);
      Insert(s[|s| - 1], SortBy(s[..|s| - 1], le), le)
  }

  /** The elements of `s` that tie with `e` under `le`, in their order. */
  function Tied<T>(s: seq<T>, le: (T, T) -> bool, e: T): seq<T> {
    if s == [] then []
    else (if le(s[0], e) && le(e, s[0]) then [s[0]] else []) + Tied(s[1..], le, e)
  }

  lemma {:induction false} TiedAppend<T>(a: seq<T>, b: seq<T>, le: (T, T) -> bool, e: T)
    ensures Tied(a + b, le, e) == Tied(a, le, e) + Tied(b, le, e)
  {
    if a == [] {
      assert a + b == b;
    } else {
      assert (a + b)[1..] == a[1..] + b;
      TiedAppend(a[1..], b, le, e);
    }
  }

  lemma {:induction false} TiedNone<T>(s: seq<T>, le: (T, T) -> bool, e: T)
    requires forall k :: 0 <= k < |s| ==> !(le(s[k], e) && le(e, s[k]))
    ensures Tied(s, le, e) == []
  {
    if s != [] {
      TiedNone(s[1..], le, e);
    }
  }

  /** Where the insertion stops, nothing further ties with `x`. */
  lemma NoTieAfter<T(!new)>(x: T, s: seq<T>, le: (T, T) -> bool, e: T)
    requires TotalPreorder(le) && SortedBy(s, le)
    requires s != [] && !le(s[0], x) && le(x, e) && le(e, x)
    ensures forall k :: 0 <= k < |s| ==> !(le(s[k], e) && le(e, s[k]))
  {
    assert forall k :: 0 <= k < |s| ==> le(s[0], s[k]) by {
      assert forall k :: 0 < k < |s| ==> le(s[0], s[k]);
    }
  }

  /** Inserting `x` puts it after every element it ties with. */
  lemma {:induction false} InsertStable<T(!new)>(x: T, s: seq<T>, le: (T, T) -> bool, e: T)
    requires TotalPreorder(le) && SortedBy(s, le)
    ensures Tied(Insert(x, s, le), le, e)
         == Tied(s, le, e) + (if le(x, e) && le(e, x) then [x] else [])
  {
    if s == [] {
      TiedLast([], x, le, e);
      assert [] + [x] == [x];
    } else if le(s[0], x) {
      assert SortedBy(s[1..], le);
      InsertStable(x, s[1..], le, e);
      InsertBehind(x, s, le, e);
    } else {
      if le(x, e) && le(e, x) {
        NoTieAfter(x, s, le, e);
        TiedNone(s, le, e);
      }
      InsertInFront(x, s, le, e);
    }
  }

  /** The step where `x` goes behind the head of `s`. */
  lemma InsertBehind<T>(x: T, s: seq<T>, le: (T, T) -> bool, e: T)
    requires s != [] && le(s[0], x)
    requires Tied(Insert(x, s[1..], le), le, e)
          == Tied(s[1..], le, e) + (if le(x, e) && le(e, x) then [x] else [])
    ensures Tied(Insert(x, s, le), le, e)
         == Tied(s, le, e) + (if le(x, e) && le(e, x) then [x] else [])
  {
    var t := Insert(x, s[1..], le);
    var h := if le(s[0], e) && le(e, s[0]) then [s[0]] else [];
    var tail := if le(x, e) && le(e, x) then [x] else [];
    assert Insert(x, s, le) == [s[0]] + t;
    assert Tied([s[0]] + t, le, e) == h + Tied(t, le, e) by {
      assert ([s[0]] + t)[0] == s[0];
      assert ([s[0]] + t)[1..] == t;
    }
    assert Tied(s, le, e) == h + Tied(s[1..], le, e);
    Associative(h, Tied(s[1..], le, e), tail);
  }

  lemma Associative<T>(a: seq<T>, b: seq<T>, c: seq<T>)
    ensures a + (b + c) == (a + b) + c
  {
  }

  /** The step where `x` goes in front of `s`. */
  lemma InsertInFront<T>(x: T, s: seq<T>, le: (T, T) -> bool, e: T)
    requires s != [] && !le(s[0], x)
    requires le(x, e) && le(e, x) ==> Tied(s, le, e) == []
    ensures Tied(Insert(x, s, le), le, e)
         == Tied(s, le, e) + (if le(x, e) && le(e, x) then [x] else [])
  {
    assert Insert(x, s, le) == [x] + s;
    assert ([x] + s)[1..] == s;
  }

  /** The sort is stable: the elements that tie with any `e` come out in the
      order they went in. With sortedness and the permutation this fixes the
      result, and it is what Python's sort promises, with or without
      `reverse=True`. */
  lemma {:induction false} SortStable<T(!new)>(s: seq<T>, le: (T, T) -> bool, e: T)
    requires TotalPreorder(le)
    ensures Tied(SortBy(s, le), le, e) == Tied(s, le, e)
  {
    if s != [] {
      var init, last := s[..|s| - 1], s[|s| - 1];
      assert s == init + [last];
      var sorted := SortBy(init, le);
      var tail := if le(last, e) && le(e, last) then [last] else [];
      assert SortBy(s, le) == Insert(last, sorted, le);
      SortStable(init, le, e);
      InsertStable(last, sorted, le, e);
      assert Tied(SortBy(s, le), le, e) == Tied(init, le, e) + tail;
      TiedLast(init, last, le, e);
    }
  }

  lemma TiedLast<T>(init: seq<T>, last: T, le: (T, T) -> bool, e: T)
    ensures Tied(init + [last], le, e) == Tied(init, le, e) + (if le(last, e) && le(e, last) then [last] else [])
  {
    TiedAppend(init, [last], le, e);
    assert [last][1..] == [];
  }

  /** The first `n` elements, or all of them when there are fewer. */
  function Take<T>(s: seq<T>, n: nat): (r: seq<T>)
    ensures |r| == if |s| < n then |s| else n
    ensures r == s[..|r|]
  {
    if |s| <= n then s else s[..n]
  }

  /** Cutting a sorted list keeps the elements that come first in the order:
      everything cut off lies above everything kept. */
  lemma TakeKeepsFirst<T>(s: seq<T>, le: (T, T) -> bool, n: nat)
    requires SortedBy(s, le)
    ensures SortedBy(Take(s, n), le)
    ensures forall i, j :: 0 <= i < |Take(s, n)| <= j < |s| ==> le(Take(s, n)[i], s[j])
  {
  }
}
