/** Sorting by a lexicographic key, as Python's `sorted` does it. */
module Sorting {

  type SortKey = (nat, nat, nat)

  predicate Less(a: SortKey, b: SortKey) {
    a.0 < b.0 || (a.0 == b.0 && (a.1 < b.1 || (a.1 == b.1 && a.2 < b.2)))
  }

  predicate Ascending<T(!new)>(s: seq<T>, key: T -> SortKey) {
    forall i, j :: 0 <= i < j < |s| ==> Less(key(s[i]), key(s[j]))
  }

  predicate DistinctKeys<T(!new)>(s: seq<T>, key: T -> SortKey) {
    forall i, j :: 0 <= i < j < |s| ==> key(s[i]) != key(s[j])
  }

  /** Behind everything that is not greater: the sort is stable. */
  function Insert<T>(s: seq<T>, x: T, key: T -> SortKey): seq<T> {
    if s == [] then [x]
    else if Less(key(x), key(s[0])) then [x] + s
    else [s[0]] + Insert(s[1..], x, key)
  }

  function Sorted<T>(s: seq<T>, key: T -> SortKey): seq<T> {
    if s == [] then [] else Insert(Sorted(s[..|s| - 1], key), s[|s| - 1], key)
  }

  lemma {:induction false} InsertPermutes<T>(s: seq<T>, x: T, key: T -> SortKey)
    ensures multiset(Insert(s, x, key)) == multiset(s) + multiset{x}
  {
    if s == [] || Less(key(x), key(s[0])) {
    } else {
      InsertPermutes(s[1..], x, key);
      assert s == [s[0]] + s[1..];
    }
  }

  lemma {:induction false} SortedPermutes<T>(s: seq<T>, key: T -> SortKey)
    ensures multiset(Sorted(s, key)) == multiset(s)
  {
    if s == [] {
    } else {
      SortedPermutes(s[..|s| - 1], key);
      InsertPermutes(Sorted(s[..|s| - 1], key), s[|s| - 1], key);
      assert s == s[..|s| - 1] + [s[|s| - 1]];
    }
  }

  lemma SameMembers<T>(s: seq<T>, key: T -> SortKey, x: T)
    ensures x in Sorted(s, key) <==> x in s
  {
    SortedPermutes(s, key);
    assert x in s <==> x in multiset(s);
    assert x in Sorted(s, key) <==> x in multiset(Sorted(s, key));
  }

  lemma ConsAscends<T(!new)>(x: T, s: seq<T>, key: T -> SortKey)
    requires Ascending(s, key) && forall y :: y in s ==> Less(key(x), key(y))
    ensures Ascending([x] + s, key)
  {
    hide Less;
    var t := [x] + s;
    forall i, j | 0 <= i < j < |t| ensures Less(key(t[i]), key(t[j])) {
      if i == 0 { assert t[j] in s; } else { assert t[i] == s[i - 1] && t[j] == s[j - 1]; }
    }
  }

  lemma FirstIsLeast<T(!new)>(s: seq<T>, key: T -> SortKey)
    requires Ascending(s, key) && s != []
    ensures Ascending(s[1..], key) && s == [s[0]] + s[1..]
    ensures forall y :: y in s[1..] ==> Less(key(s[0]), key(y))
  {
    hide Less;
    forall i, j | 0 <= i < j < |s[1..]| ensures Less(key(s[1..][i]), key(s[1..][j])) {
      assert s[1..][i] == s[i + 1] && s[1..][j] == s[j + 1];
    }
    forall y | y in s[1..] ensures Less(key(s[0]), key(y)) {
      var i :| 0 <= i < |s[1..]| && s[1..][i] == y;
      assert s[i + 1] == y;
    }
  }

  lemma LessOrder(a: SortKey, b: SortKey, c: SortKey)
    ensures Less(a, b) && Less(b, c) ==> Less(a, c)
    ensures !(Less(a, b) && Less(b, a))
    ensures Less(a, b) || Less(b, a) || a == b
  {
  }

  lemma {:induction false} InsertAscends<T(!new)>(s: seq<T>, x: T, key: T -> SortKey)
    requires Ascending(s, key) && forall y :: y in s ==> key(y) != key(x)
    ensures Ascending(Insert(s, x, key), key)
    ensures forall y :: y in Insert(s, x, key) <==> y in s || y == x
  {
    hide Less, Ascending;
    if s == [] {
      assert Ascending([x], key) by { AscendingOne(x, key); }
    } else {
      assert s[0] in s;
      FirstIsLeast(s, key);
      LessOrder(key(x), key(s[0]), key(x));
      if Less(key(x), key(s[0])) {
        forall y | y in s ensures Less(key(x), key(y)) { LessOrder(key(x), key(s[0]), key(y)); }
        ConsAscends(x, s, key);
      } else {
        InsertAscends(s[1..], x, key);
        ConsAscends(s[0], Insert(s[1..], x, key), key);
      }
    }
  }

  lemma AscendingOne<T(!new)>(x: T, key: T -> SortKey)
    ensures Ascending([x], key)
  {
  }

  lemma {:induction false} SortedAscends<T(!new)>(s: seq<T>, key: T -> SortKey)
    requires DistinctKeys(s, key)
    ensures Ascending(Sorted(s, key), key)
  {
    if s == [] {
    } else {
      var front, x := s[..|s| - 1], s[|s| - 1];
      SortedAscends(front, key);
      forall y | y in Sorted(front, key) ensures key(y) != key(x) {
        SameMembers(front, key, y);
        var i :| 0 <= i < |front| && front[i] == y;
        assert key(s[i]) != key(s[|s| - 1]);
      }
      InsertAscends(Sorted(front, key), x, key);
    }
  }

  /** There is only one ascending arrangement of given elements. */
  lemma {:induction false} AscendingIsUnique<T(!new)>(a: seq<T>, b: seq<T>, key: T -> SortKey)
    requires Ascending(a, key) && Ascending(b, key) && multiset(a) == multiset(b)
    ensures a == b
  {
    hide Less, Ascending;
    if a == [] || b == [] {
      assert |a| == |multiset(a)| && |b| == |multiset(b)|;
    } else {
      FirstIsLeast(a, key);
      FirstIsLeast(b, key);
      assert a[0] in multiset(a) && b[0] in multiset(b);
      assert a[0] in b && b[0] in a;
      LessOrder(key(a[0]), key(b[0]), key(a[0]));
      assert a[0] == b[0];
      assert multiset(a[1..]) == multiset(a) - multiset{a[0]};
      assert multiset(b[1..]) == multiset(b) - multiset{b[0]};
      AscendingIsUnique(a[1..], b[1..], key);
    }
  }

  /** Sorting rows with distinct keys does not depend on their order. */
  lemma SortForgetsOrder<T(!new)>(a: seq<T>, b: seq<T>, key: T -> SortKey)
    requires multiset(a) == multiset(b) && DistinctKeys(a, key) && DistinctKeys(b, key)
    ensures Sorted(a, key) == Sorted(b, key)
  {
    SortedPermutes(a, key);
    SortedPermutes(b, key);
    SortedAscends(a, key);
    SortedAscends(b, key);
    AscendingIsUnique(Sorted(a, key), Sorted(b, key), key);
  }
}
