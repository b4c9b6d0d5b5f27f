/** Stable sorting by an order, and how Python orders texts. */
module Sorting {

  /** Total and transitive. */
  ghost predicate Orders<T(!new)>(le: (T, T) -> bool) {
    && (forall x, y :: le(x, y) || le(y, x))
    && (forall x, y, z :: le(x, y) && le(y, z) ==> le(x, z))
  }

  function Insert<T>(s: seq<T>, x: T, le: (T, T) -> bool): seq<T> {
    if s == [] || le(s[|s| - 1], x) then s + [x] else Insert(s[..|s| - 1], x, le) + [s[|s| - 1]]
  }

  function Sort<T>(s: seq<T>, le: (T, T) -> bool): seq<T> {
    if s == [] then [] else Insert(Sort(s[..|s| - 1], le), s[|s| - 1], le)
  }

  predicate Sorted<T>(s: seq<T>, le: (T, T) -> bool) {
    forall i, j :: 0 <= i < j < |s| ==> le(s[i], s[j])
  }

  lemma {:induction false} InsertHolds<T>(s: seq<T>, x: T, le: (T, T) -> bool)
    ensures multiset(Insert(s, x, le)) == multiset(s) + multiset{x}
  {
    if s != [] {
      var front, last := s[..|s| - 1], s[|s| - 1];
      assert s == front + [last];
      InsertHolds(front, x, le);
    }
  }

  lemma SortedSnoc<T>(s: seq<T>, x: T, le: (T, T) -> bool)
    requires Sorted(s, le) && forall i :: 0 <= i < |s| ==> le(s[i], x)
    ensures Sorted(s + [x], le)
  {
  }

  lemma {:induction false} InsertSorts<T(!new)>(s: seq<T>, x: T, le: (T, T) -> bool)
    requires Orders(le) && Sorted(s, le)
    ensures Sorted(Insert(s, x, le), le)
  {
    if s != [] {
      var front, last := s[..|s| - 1], s[|s| - 1];
      if le(last, x) {
        forall i | 0 <= i < |s|
          ensures le(s[i], x)
        {
          assert le(s[i], last);
        }
        SortedSnoc(s, x, le);
      } else {
        InsertSorts(front, x, le);
        InsertWithin(front, x, le, last);
        SortedSnoc(Insert(front, x, le), last, le);
      }
    }
  }

  lemma InsertWithin<T>(s: seq<T>, x: T, le: (T, T) -> bool, bound: T)
    requires le(x, bound) && forall i :: 0 <= i < |s| ==> le(s[i], bound)
    ensures forall i :: 0 <= i < |Insert(s, x, le)| ==> le(Insert(s, x, le)[i], bound)
  {
    var t := Insert(s, x, le);
    InsertHolds(s, x, le);
    forall i | 0 <= i < |t|
      ensures le(t[i], bound)
    {
      assert t[i] in multiset(t);
      assert t[i] == x || t[i] in s;
    }
  }

  lemma {:induction false} SortHolds<T>(s: seq<T>, le: (T, T) -> bool)
    ensures multiset(Sort(s, le)) == multiset(s)
  {
    if s != [] {
      var front, last := s[..|s| - 1], s[|s| - 1];
      assert s == front + [last];
      SortHolds(front, le);
      InsertHolds(Sort(front, le), last, le);
    }
  }

  /** The result is in order and holds the same elements as often. */
  lemma {:induction false} SortSorts<T(!new)>(s: seq<T>, le: (T, T) -> bool)
    requires Orders(le)
    ensures Sorted(Sort(s, le), le) && multiset(Sort(s, le)) == multiset(s)
  {
    SortHolds(s, le);
    if s != [] {
      SortSorts(s[..|s| - 1], le);
      InsertSorts(Sort(s[..|s| - 1], le), s[|s| - 1], le);
    }
  }

  // ---- when the order tells elements apart ----

  ghost predicate Tells<T(!new)>(s: seq<T>, le: (T, T) -> bool) {
    forall x, y :: x in s && y in s && le(x, y) && le(y, x) ==> x == y
  }

  lemma LastIsGreatest<T(!new)>(s: seq<T>, x: T, le: (T, T) -> bool)
    requires Orders(le) && Sorted(s, le) && x in s
    ensures le(x, s[|s| - 1])
  {
    var i :| 0 <= i < |s| && s[i] == x;
    assert le(x, x);
  }

  lemma SameLast<T(!new)>(a: seq<T>, b: seq<T>, le: (T, T) -> bool)
    requires Orders(le) && Sorted(a, le) && Sorted(b, le) && Tells(a, le) && multiset(a) == multiset(b)
    requires a != [] && b != []
    ensures a[|a| - 1] == b[|b| - 1]
  {
    var x, y := a[|a| - 1], b[|b| - 1];
    assert x in multiset(a) && y in multiset(b);
    assert x in b && y in a;
    LastIsGreatest(b, x, le);
    LastIsGreatest(a, y, le);
  }

  lemma FrontKeeps<T(!new)>(a: seq<T>, le: (T, T) -> bool)
    requires a != [] && Sorted(a, le)
    ensures var x := a[..|a| - 1];
      && a == x + [a[|a| - 1]]
      && Sorted(x, le) && (Tells(a, le) ==> Tells(x, le))
      && multiset(x) == multiset(a) - multiset{a[|a| - 1]}
  {
    assert forall z :: z in a[..|a| - 1] ==> z in a;
    assert a == a[..|a| - 1] + [a[|a| - 1]];
  }

  lemma {:induction false} SortedUnique<T(!new)>(a: seq<T>, b: seq<T>, le: (T, T) -> bool)
    requires Orders(le) && Sorted(a, le) && Sorted(b, le) && Tells(a, le) && multiset(a) == multiset(b)
    ensures a == b
    decreases |a|
  {
    assert |multiset(a)| == |a| && |multiset(b)| == |b|;
    if a != [] {
      SameLast(a, b, le);
      FrontKeeps(a, le);
      FrontKeeps(b, le);
      SortedUnique(a[..|a| - 1], b[..|b| - 1], le);
    }
  }

  lemma SortIsCanonical<T(!new)>(a: seq<T>, b: seq<T>, le: (T, T) -> bool)
    requires Orders(le) && Tells(a, le)
    ensures multiset(a) == multiset(b) <==> Sort(a, le) == Sort(b, le)
    ensures Sort(Sort(a, le), le) == Sort(a, le)
  {
    SortSorts(a, le);
    SortSorts(b, le);
    SortSorts(Sort(a, le), le);
    assert Tells(Sort(a, le), le) by {
      forall x | x in Sort(a, le) ensures x in a { assert x in multiset(a); }
    }
    SortedUnique(Sort(a, le), Sort(Sort(a, le), le), le);
    if multiset(a) == multiset(b) {
      SortedUnique(Sort(a, le), Sort(b, le), le);
    }
  }

  lemma SortedStays<T(!new)>(s: seq<T>, le: (T, T) -> bool)
    requires Orders(le) && Sorted(s, le) && Tells(s, le)
    ensures Sort(s, le) == s
  {
    SortSorts(s, le);
    SortedUnique(s, Sort(s, le), le);
  }

  // ---- texts ----

  predicate TextLe(s: string, t: string) {
    if s == "" then true else if t == "" then false
    else s[0] < t[0] || (s[0] == t[0] && TextLe(s[1..], t[1..]))
  }

  lemma {:induction false} TextTotal(s: string, t: string)
    ensures TextLe(s, t) || TextLe(t, s)
    ensures TextLe(s, t) && TextLe(t, s) ==> s == t
  {
    if s != "" && t != "" {
      TextTotal(s[1..], t[1..]);
      assert s == [s[0]] + s[1..] && t == [t[0]] + t[1..];
    }
  }

  lemma {:induction false} TextTransitive(s: string, t: string, u: string)
    requires TextLe(s, t) && TextLe(t, u)
    ensures TextLe(s, u)
  {
    if s != "" && t != "" && u != "" && s[0] == t[0] == u[0] {
      TextTransitive(s[1..], t[1..], u[1..]);
    }
  }

  lemma TextOrders()
    ensures Orders(TextLe)
  {
    forall s, t ensures TextLe(s, t) || TextLe(t, s) { TextTotal(s, t); }
    forall s, t, u | TextLe(s, t) && TextLe(t, u) ensures TextLe(s, u) { TextTransitive(s, t, u); }
  }

  lemma TextTells(texts: seq<string>)
    ensures Tells(texts, TextLe)
  {
    forall s, t | TextLe(s, t) && TextLe(t, s) ensures s == t { TextTotal(s, t); }
  }
}
