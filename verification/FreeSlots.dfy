/** The free time between 08:00 and 22:00, around sorted busy intervals. Times are minutes of the day;
    the code's zero-padded "HH:MM" texts compare and subtract the same way (see ClockOrder). */
module FreeSlots {
  import opened Prelude
  import opened Sorting

  const DAY_START: int := 480
  const DAY_END: int := 1320
  const MIN_SLOT: int := 15

  datatype Interval = Interval(start: int, end: int) {
    function Length(): int { end - start }
    predicate Has(m: int) { start <= m < end }
  }

  /** How pairs of clock texts are sorted. */
  predicate Before(a: Interval, b: Interval) { a.start < b.start || (a.start == b.start && a.end <= b.end) }

  // ---- the scan ----

  /** The gaps before the busy intervals seen so far, and the end of what they cover. */
  function Scan(busy: seq<Interval>): (seq<Interval>, int) {
    if busy == [] then ([], DAY_START) else
    var n := |busy| - 1;
    var (free, cursor) := Scan(busy[..n]);
    (if cursor < busy[n].start then free + [Interval(cursor, busy[n].start)] else free, Max(cursor, busy[n].end))
  }

  /** All gaps, before the short ones are dropped. */
  function Gaps(busy: seq<Interval>): seq<Interval> {
    var (free, cursor) := Scan(busy);
    if cursor < DAY_END then free + [Interval(cursor, DAY_END)] else free
  }

  function LongEnough(gaps: seq<Interval>): seq<Interval> {
    if gaps == [] then [] else
    var n := |gaps| - 1;
    if gaps[n].Length() >= MIN_SLOT then LongEnough(gaps[..n]) + [gaps[n]] else LongEnough(gaps[..n])
  }

  method GetFreeSlots(timetable: seq<Interval>, studySlots: seq<Interval>) returns (slots: seq<Interval>)
    ensures slots == LongEnough(Gaps(Sort(timetable + studySlots, Before)))
  {
    var free := FindGaps(Sort(timetable + studySlots, Before));
    slots := [];
    for i := 0 to |free|
      invariant slots == LongEnough(free[..i])
    {
      assert free[..i + 1][..i] == free[..i];
      if free[i].Length() >= MIN_SLOT {
        slots := slots + [free[i]];
      }
    }
    assert free[..|free|] == free;
  }

  method FindGaps(busy: seq<Interval>) returns (free: seq<Interval>)
    ensures free == Gaps(busy)
  {
    var cursor := DAY_START;
    free := [];
    for i := 0 to |busy|
      invariant (free, cursor) == Scan(busy[..i])
    {
      assert busy[..i + 1][..i] == busy[..i];
      if cursor < busy[i].start {
        free := free + [Interval(cursor, busy[i].start)];
      }
      cursor := Max(cursor, busy[i].end);
    }
    assert busy[..|busy|] == busy;
    if cursor < DAY_END {
      free := free + [Interval(cursor, DAY_END)];
    }
  }

  // ---- coverage ----

  predicate Covers(s: seq<Interval>, m: int) {
    exists i :: 0 <= i < |s| && s[i].Has(m)
  }

  lemma CoversSnoc(s: seq<Interval>, x: Interval, m: int)
    ensures Covers(s + [x], m) <==> Covers(s, m) || x.Has(m)
  {
    var t := s + [x];
    assert t[|s|] == x;
    if Covers(s, m) {
      var i :| 0 <= i < |s| && s[i].Has(m);
      assert t[i].Has(m);
    }
  }

  lemma CoverWithin(s: seq<Interval>, t: seq<Interval>, m: int)
    requires multiset(s) == multiset(t) && Covers(s, m)
    ensures Covers(t, m)
  {
    var i :| 0 <= i < |s| && s[i].Has(m);
    assert s[i] in multiset(s);
    assert s[i] in t;
  }

  lemma SameCover(s: seq<Interval>, t: seq<Interval>, m: int)
    requires multiset(s) == multiset(t)
    ensures Covers(s, m) <==> Covers(t, m)
  {
    if Covers(s, m) { CoverWithin(s, t, m); }
    if Covers(t, m) { CoverWithin(t, s, m); }
  }

  /** Non-empty, from 08:00 on, and up to `bound`. */
  predicate Bounded(gaps: seq<Interval>, bound: int) {
    forall i :: 0 <= i < |gaps| ==> DAY_START <= gaps[i].start < gaps[i].end <= bound
  }

  /** Disjoint and in order. */
  predicate Apart(gaps: seq<Interval>) {
    forall i, j :: 0 <= i < j < |gaps| ==> gaps[i].end <= gaps[j].start
  }

  predicate Stepped(gaps: seq<Interval>) {
    forall i, j :: 0 <= i < j < |gaps| ==> gaps[i].start <= gaps[j].start
  }

  /** Every gap ends where a busy interval starts, so no later interval can reach into it. */
  predicate EndsAtStarts(gaps: seq<Interval>, busy: seq<Interval>) {
    forall i :: 0 <= i < |gaps| ==> exists j :: 0 <= j < |busy| && gaps[i].end == busy[j].start
  }

  lemma EndsSnoc(gaps: seq<Interval>, busy: seq<Interval>, from: int, b: Interval)
    requires EndsAtStarts(gaps, busy)
    ensures EndsAtStarts(gaps, busy + [b]) && EndsAtStarts(gaps + [Interval(from, b.start)], busy + [b])
  {
    var more := busy + [b];
    assert more[|busy|] == b;
    forall i | 0 <= i < |gaps|
      ensures exists j :: 0 <= j < |more| && gaps[i].end == more[j].start
    {
      var j :| 0 <= j < |busy| && gaps[i].end == busy[j].start;
      assert more[j] == busy[j];
    }
  }

  /** 08:00 or the latest time at which anything starts or ends. */
  function Reach(busy: seq<Interval>): int {
    if busy == [] then DAY_START else
    var b := busy[|busy| - 1];
    Max(Reach(busy[..|busy| - 1]), Max(b.start, b.end))
  }

  lemma {:induction false} ReachAtLeast(busy: seq<Interval>)
    ensures Reach(busy) >= DAY_START
    ensures forall i :: 0 <= i < |busy| ==> busy[i].start <= Reach(busy) && busy[i].end <= Reach(busy)
  {
    if busy != [] {
      ReachAtLeast(busy[..|busy| - 1]);
    }
  }

  lemma {:induction false} ReachWithin(s: seq<Interval>, t: seq<Interval>)
    requires forall x :: x in s ==> x in t
    ensures Reach(s) <= Reach(t)
  {
    ReachAtLeast(t);
    if s != [] {
      var n := |s| - 1;
      ReachWithin(s[..n], t);
      assert s[n] in t;
    }
  }

  lemma SameMembers(s: seq<Interval>, t: seq<Interval>)
    requires multiset(s) == multiset(t)
    ensures forall x :: x in s <==> x in t
  {
    forall x
      ensures x in s <==> x in t
    {
      assert x in s <==> x in multiset(s);
      assert x in t <==> x in multiset(t);
    }
  }

  /** Time x is past 08:00 only if some interval lasts until then. */
  predicate Passed(busy: seq<Interval>, x: int) {
    x <= DAY_START || exists j :: 0 <= j < |busy| && x <= busy[j].end
  }

  lemma PassedSnoc(busy: seq<Interval>, b: Interval, x: int)
    ensures Passed(busy + [b], x) <==> Passed(busy, x) || x <= b.end
  {
    var all := busy + [b];
    assert all[|busy|] == b && forall j :: 0 <= j < |busy| ==> all[j] == busy[j];
  }

  /** The cursor has come as far as the latest end. */
  lemma {:induction false} CursorIs(busy: seq<Interval>, x: int)
    ensures x <= Scan(busy).1 <==> Passed(busy, x)
  {
    if busy != [] {
      var n := |busy| - 1;
      assert busy == busy[..n] + [busy[n]];
      CursorIs(busy[..n], x);
      PassedSnoc(busy[..n], busy[n], x);
    }
  }

  lemma CursorBounds(busy: seq<Interval>)
    ensures DAY_START <= Scan(busy).1
    ensures forall i :: 0 <= i < |busy| ==> busy[i].end <= Scan(busy).1
  {
    CursorIs(busy, DAY_START);
    forall i | 0 <= i < |busy| { CursorIs(busy, busy[i].end); }
  }

  lemma {:induction false} FreeEnds(busy: seq<Interval>)
    ensures EndsAtStarts(Scan(busy).0, busy)
  {
    if busy != [] {
      var n := |busy| - 1;
      assert busy == busy[..n] + [busy[n]];
      FreeEnds(busy[..n]);
      EndsSnoc(Scan(busy[..n]).0, busy[..n], Scan(busy[..n]).1, busy[n]);
    }
  }

  /** What the scan keeps, for busy intervals of any shape. */
  lemma {:induction false} ScanShape(busy: seq<Interval>)
    ensures var (free, cursor) := Scan(busy);
      && DAY_START <= cursor <= Reach(busy)
      && Bounded(free, Reach(busy)) && Stepped(free)
      && (forall i :: 0 <= i < |free| ==> free[i].start <= cursor)
  {
    if busy != [] {
      ScanShape(busy[..|busy| - 1]);
    }
  }

  /** A gap minute is out of reach of a busy interval that starts no earlier than those before it. */
  lemma OutOfReach(free: seq<Interval>, before: seq<Interval>, b: Interval, m: int)
    requires EndsAtStarts(free, before) && Covers(free, m)
    requires forall j :: 0 <= j < |before| ==> before[j].start <= b.start
    ensures !b.Has(m)
  {
    var i :| 0 <= i < |free| && free[i].Has(m);
    var j :| 0 <= j < |before| && free[i].end == before[j].start;
  }

  /** A minute the scan has passed is in a gap exactly when nothing covers it. */
  lemma {:induction false} ScanCovers(busy: seq<Interval>, m: int)
    requires Sorted(busy, Before)
    ensures Covers(Scan(busy).0, m) <==> DAY_START <= m < Reach(busy) && !Covers(busy, m)
    ensures Covers(busy, m) ==> m < Scan(busy).1
  {
    CursorBounds(busy);
    if busy != [] {
      var n := |busy| - 1;
      var b, before := busy[n], busy[..n];
      assert busy == before + [b];
      assert forall j :: 0 <= j < n ==> Before(before[j], b);
      ScanCovers(before, m);
      var (free, cursor) := Scan(before);
      CursorBounds(before);
      ReachBy(before, b, cursor);
      ScanShape(before);
      FreeEnds(before);
      if Covers(free, m) {
        OutOfReach(free, before, b, m);
      }
      CoversStep(free, before, b, cursor, Reach(before), m);
    }
  }

  lemma CoversStep(free: seq<Interval>, before: seq<Interval>, b: Interval, cursor: int, reach: int, m: int)
    requires Covers(free, m) <==> DAY_START <= m < reach && !Covers(before, m)
    requires Covers(before, m) ==> m < cursor
    requires Covers(free, m) ==> !b.Has(m)
    requires DAY_START <= cursor <= reach <= Max(cursor, b.start)
    ensures var more := if cursor < b.start then free + [Interval(cursor, b.start)] else free;
      Covers(more, m) <==> DAY_START <= m < Max(reach, Max(b.start, b.end)) && !Covers(before + [b], m)
  {
    CoversSnoc(before, b, m);
    CoversSnoc(free, Interval(cursor, b.start), m);
  }

  /** Of intervals that start no later than b, nothing reaches past both the cursor and b's start. */
  lemma {:induction false} ReachBy(before: seq<Interval>, b: Interval, cursor: int)
    requires forall j :: 0 <= j < |before| ==> before[j].start <= b.start && before[j].end <= cursor
    requires DAY_START <= cursor
    ensures Reach(before) <= Max(cursor, b.start)
  {
    if before != [] {
      ReachBy(before[..|before| - 1], b, cursor);
    }
  }

  /** Where the last gap may end: 22:00, or the latest time at which anything starts or ends. */
  function Horizon(busy: seq<Interval>): int { Max(DAY_END, Reach(busy)) }

  lemma SortedGaps(busy: seq<Interval>, m: int)
    requires Sorted(busy, Before)
    ensures Bounded(Gaps(busy), Horizon(busy)) && Stepped(Gaps(busy))
    ensures Covers(Gaps(busy), m) <==> DAY_START <= m < Horizon(busy) && !Covers(busy, m)
  {
    var (free, cursor) := Scan(busy);
    ScanShape(busy);
    ScanCovers(busy, m);
    UncoveredTail(busy);
    CoversSnoc(free, Interval(cursor, DAY_END), m);
  }

  /** What lies past the cursor and within reach is free. */
  lemma UncoveredTail(busy: seq<Interval>)
    ensures forall m :: Covers(busy, m) ==> m < Scan(busy).1
  {
    CursorBounds(busy);
  }

  /** Main result, for any busy intervals, in any order: the gaps hold exactly the minutes from 08:00 to the
      horizon that no busy interval covers. */
  lemma GapsAreTheRest(busy: seq<Interval>, m: int)
    ensures Bounded(Gaps(Sort(busy, Before)), Horizon(busy)) && Stepped(Gaps(Sort(busy, Before)))
    ensures Covers(Gaps(Sort(busy, Before)), m) <==> DAY_START <= m < Horizon(busy) && !Covers(busy, m)
  {
    SortSorts(busy, Before);
    SortedGaps(Sort(busy, Before), m);
    SameCover(busy, Sort(busy, Before), m);
    SameMembers(busy, Sort(busy, Before));
    ReachWithin(busy, Sort(busy, Before));
    ReachWithin(Sort(busy, Before), busy);
  }

  lemma BeforeOrders(busy: seq<Interval>)
    ensures Orders(Before) && Tells(busy, Before)
  {
  }

  /** The slots do not depend on the order in which the busy intervals are read. */
  lemma OrderIrrelevant(busy: seq<Interval>, other: seq<Interval>)
    requires multiset(busy) == multiset(other)
    ensures Gaps(Sort(busy, Before)) == Gaps(Sort(other, Before))
  {
    BeforeOrders(busy);
    SortIsCanonical(busy, other, Before);
  }

  // ---- when the gaps do not overlap ----

  /** Interval i does not end before it starts, or it starts within what those before it have passed. */
  predicate Shielded(busy: seq<Interval>, i: nat)
    requires i < |busy|
  {
    || busy[i].start <= busy[i].end
    || busy[i].start <= DAY_START
    || exists j :: 0 <= j < i && busy[i].start <= busy[j].end
  }

  predicate AllShielded(busy: seq<Interval>, n: nat)
    requires n <= |busy|
  {
    forall i :: 0 <= i < n ==> Shielded(busy, i)
  }

  lemma ShieldedPrefix(busy: seq<Interval>, n: nat)
    requires n <= |busy|
    ensures AllShielded(busy[..n], n) <==> AllShielded(busy, n)
  {
    forall i | 0 <= i < n
      ensures Shielded(busy[..n], i) <==> Shielded(busy, i)
    {
      assert forall j :: 0 <= j <= i ==> busy[..n][j] == busy[j];
    }
  }

  predicate EndedBy(gaps: seq<Interval>, cursor: int) {
    forall i :: 0 <= i < |gaps| ==> gaps[i].end <= cursor
  }

  lemma ApartSnoc(gaps: seq<Interval>, g: Interval)
    ensures Apart(gaps + [g]) <==> Apart(gaps) && EndedBy(gaps, g.start)
  {
    var all := gaps + [g];
    assert all[|gaps|] == g && forall i :: 0 <= i < |gaps| ==> all[i] == gaps[i];
  }

  lemma EndsBefore(free: seq<Interval>, before: seq<Interval>, b: Interval)
    requires EndsAtStarts(free, before) && forall j :: 0 <= j < |before| ==> before[j].start <= b.start
    ensures EndedBy(free, b.start)
  {
  }

  /** The gaps found so far stay apart exactly when all intervals but the last are shielded, and end by the cursor
      exactly when the last one is too. */
  lemma {:induction false} ScanApart(busy: seq<Interval>)
    requires Sorted(busy, Before)
    ensures Apart(Scan(busy).0) && EndedBy(Scan(busy).0, Scan(busy).1) <==> AllShielded(busy, |busy|)
    ensures Apart(Scan(busy).0) <==> busy == [] || AllShielded(busy, |busy| - 1)
  {
    if busy != [] {
      var n := |busy| - 1;
      var b, before := busy[n], busy[..n];
      assert forall j :: 0 <= j < n ==> Before(before[j], b);
      FreeEnds(before);
      EndsBefore(Scan(before).0, before, b);
      ScanApart(before);
      ShieldedNext(busy);
      ApartStep(Scan(before).0, b, Scan(before).1);
    }
  }

  lemma ShieldedNext(busy: seq<Interval>)
    requires busy != []
    ensures var n := |busy| - 1;
      && (AllShielded(busy, n) <==> AllShielded(busy[..n], n))
      && (AllShielded(busy, n + 1) <==>
            AllShielded(busy, n) && (busy[n].start <= busy[n].end || busy[n].start <= Scan(busy[..n]).1))
  {
    ShieldedPrefix(busy, |busy| - 1);
    LastShielded(busy);
  }

  lemma ApartStep(free: seq<Interval>, b: Interval, cursor: int)
    requires EndedBy(free, b.start)
    ensures var more := if cursor < b.start then free + [Interval(cursor, b.start)] else free;
      var clear := Apart(free) && EndedBy(free, cursor);
      && (Apart(more) <==> clear)
      && (Apart(more) && EndedBy(more, Max(cursor, b.end)) <==> clear && (b.start <= b.end || b.start <= cursor))
  {
    if cursor < b.start {
      var more := free + [Interval(cursor, b.start)];
      ApartSnoc(free, Interval(cursor, b.start));
      assert more[|free|] == Interval(cursor, b.start) && forall i :: 0 <= i < |free| ==> more[i] == free[i];
    }
  }

  lemma LastShielded(busy: seq<Interval>)
    requires busy != []
    ensures var n := |busy| - 1;
      Shielded(busy, n) <==> busy[n].start <= busy[n].end || busy[n].start <= Scan(busy[..n]).1
  {
    var n := |busy| - 1;
    CursorIs(busy[..n], busy[n].start);
    assert forall j :: 0 <= j < n ==> busy[..n][j] == busy[j];
  }

  /** Every interval is shielded, or it is the last one and something ends at 22:00 or later. */
  predicate Tidy(busy: seq<Interval>) {
    forall i :: 0 <= i < |busy| ==>
      Shielded(busy, i) || (i == |busy| - 1 && exists j :: 0 <= j < |busy| && DAY_END <= busy[j].end)
  }

  lemma SortedApartIff(busy: seq<Interval>)
    requires Sorted(busy, Before)
    ensures Apart(Gaps(busy)) <==> Tidy(busy)
  {
    ScanApart(busy);
    CursorIs(busy, DAY_END);
    ApartSnoc(Scan(busy).0, Interval(Scan(busy).1, DAY_END));
    TidyIs(busy);
  }

  lemma TidyIs(busy: seq<Interval>)
    ensures Tidy(busy) <==>
            AllShielded(busy, |busy|) || (busy != [] && AllShielded(busy, |busy| - 1) && Passed(busy, DAY_END))
  {
    assert busy != [] && AllShielded(busy, |busy| - 1) && Shielded(busy, |busy| - 1) ==> AllShielded(busy, |busy|);
  }

  /** The gaps are disjoint and in order exactly when the sorted busy intervals are tidy. */
  lemma GapsApartIff(busy: seq<Interval>)
    ensures Apart(Gaps(Sort(busy, Before))) <==> Tidy(Sort(busy, Before))
  {
    SortSorts(busy, Before);
    SortedApartIff(Sort(busy, Before));
  }

  predicate Proper(busy: seq<Interval>) {
    forall i :: 0 <= i < |busy| ==> busy[i].start <= busy[i].end
  }

  /** In particular when none ends before it starts. */
  lemma ProperApart(busy: seq<Interval>)
    requires Proper(busy)
    ensures Tidy(Sort(busy, Before)) && Apart(Gaps(Sort(busy, Before)))
  {
    var s := Sort(busy, Before);
    SortSorts(busy, Before);
    SameMembers(busy, s);
    GapsApartIff(busy);
    forall i | 0 <= i < |s|
      ensures Shielded(s, i)
    {
      assert s[i] in busy;
    }
  }

  lemma ScanOne(b: Interval)
    requires DAY_START < b.start
    ensures Sort([b], Before) == [b] && Scan([b]) == ([Interval(DAY_START, b.start)], Max(DAY_START, b.end))
  {
    assert [b][..|[b]| - 1] == [];
    assert Scan([]) == ([], DAY_START) && Sort([], Before) == [];
    assert [] + [Interval(DAY_START, b.start)] == [Interval(DAY_START, b.start)] && [] + [b] == [b];
  }

  /** One overnight slot, from b.start in the day until b.end in the morning, makes the day's gaps overlap. */
  lemma OvernightOverlaps(b: Interval)
    requires DAY_START < b.start && b.end < b.start && b.end < DAY_END
    ensures Gaps(Sort([b], Before)) == [Interval(DAY_START, b.start), Interval(Max(DAY_START, b.end), DAY_END)]
    ensures !Apart(Gaps(Sort([b], Before)))
  {
    ScanOne(b);
    var gaps := [Interval(DAY_START, b.start), Interval(Max(DAY_START, b.end), DAY_END)];
    assert gaps[0].end > gaps[1].start;
  }

  // ---- staying within the day ----

  /** Every busy time that starts after 22:00 follows on from a busy minute. */
  predicate LateStartsCovered(busy: seq<Interval>) {
    forall i :: 0 <= i < |busy| && busy[i].start > DAY_END ==> Covers(busy, busy[i].start - 1)
  }

  predicate WithinDay(gaps: seq<Interval>) {
    forall i :: 0 <= i < |gaps| ==> gaps[i].end <= DAY_END
  }

  lemma GapEnd(busy: seq<Interval>, i: nat)
    requires i < |Gaps(busy)|
    ensures Gaps(busy)[i].end == DAY_END || exists j :: 0 <= j < |busy| && Gaps(busy)[i].end == busy[j].start
  {
    FreeEnds(busy);
    var (free, cursor) := Scan(busy);
    if i < |free| {
      assert Gaps(busy)[i] == free[i];
    }
  }

  lemma SortedWithinDayIff(busy: seq<Interval>)
    requires Sorted(busy, Before)
    ensures WithinDay(Gaps(busy)) <==> LateStartsCovered(busy)
  {
    var gaps := Gaps(busy);
    if LateStartsCovered(busy) {
      forall i | 0 <= i < |gaps|
        ensures gaps[i].end <= DAY_END
      {
        SortedGaps(busy, gaps[i].end - 1);
        assert gaps[i].Has(gaps[i].end - 1);
        GapEnd(busy, i);
      }
    }
    if WithinDay(gaps) {
      ReachAtLeast(busy);
      forall i | 0 <= i < |busy| && busy[i].start > DAY_END
        ensures Covers(busy, busy[i].start - 1)
      {
        SortedGaps(busy, busy[i].start - 1);
      }
    }
  }

  /** The gaps keep to 08:00-22:00 exactly when no busy time after 22:00 leaves free time before it. */
  lemma WithinDayIff(busy: seq<Interval>)
    ensures WithinDay(Gaps(Sort(busy, Before))) <==> LateStartsCovered(busy)
  {
    var s := Sort(busy, Before);
    SortSorts(busy, Before);
    SortedWithinDayIff(s);
    forall m { SameCover(busy, s, m); }
    SameMembers(busy, s);
    if LateStartsCovered(busy) {
      forall i | 0 <= i < |s| && s[i].start > DAY_END
        ensures Covers(s, s[i].start - 1)
      {
        assert s[i] in busy;
      }
    }
    if LateStartsCovered(s) {
      forall i | 0 <= i < |busy| && busy[i].start > DAY_END
        ensures Covers(busy, busy[i].start - 1)
      {
        assert busy[i] in s;
      }
    }
  }

  /** One busy time that starts after 22:00 stretches the day to its start. */
  lemma LateBusyStretches(b: Interval)
    requires DAY_END < b.start <= b.end
    ensures Gaps(Sort([b], Before)) == [Interval(DAY_START, b.start)] && !WithinDay(Gaps(Sort([b], Before)))
  {
    ScanOne(b);
    assert [Interval(DAY_START, b.start)][0].end > DAY_END;
  }

  // ---- lengths ----

  function Total(gaps: seq<Interval>): int {
    if gaps == [] then 0 else Total(gaps[..|gaps| - 1]) + gaps[|gaps| - 1].Length()
  }

  /** How many minutes of [lo, hi) are covered. */
  function Covered(s: seq<Interval>, lo: int, hi: int): nat
    decreases hi - lo
  {
    if hi <= lo then 0 else Covered(s, lo, hi - 1) + if Covers(s, hi - 1) then 1 else 0
  }

  lemma {:induction false} CoveredConcat(s: seq<Interval>, lo: int, mid: int, hi: int)
    requires lo <= mid <= hi
    ensures Covered(s, lo, hi) == Covered(s, lo, mid) + Covered(s, mid, hi)
    decreases hi - mid
  {
    if mid < hi {
      CoveredConcat(s, lo, mid, hi - 1);
    }
  }

  lemma {:induction false} CoveredSame(s: seq<Interval>, t: seq<Interval>, lo: int, hi: int)
    requires forall m :: lo <= m < hi ==> (Covers(s, m) <==> Covers(t, m))
    ensures Covered(s, lo, hi) == Covered(t, lo, hi)
    decreases hi - lo
  {
    if lo < hi {
      CoveredSame(s, t, lo, hi - 1);
    }
  }

  lemma {:induction false} CoveredAll(s: seq<Interval>, lo: int, hi: int, all: bool)
    requires lo <= hi && forall m :: lo <= m < hi ==> Covers(s, m) == all
    ensures Covered(s, lo, hi) == if all then hi - lo else 0
    decreases hi - lo
  {
    if lo < hi {
      CoveredAll(s, lo, hi - 1, all);
    }
  }

  /** How many minutes of [lo, hi) are in g and covered by s as well. */
  function Shared(s: seq<Interval>, g: Interval, lo: int, hi: int): nat
    decreases hi - lo
  {
    if hi <= lo then 0 else Shared(s, g, lo, hi - 1) + if Covers(s, hi - 1) && g.Has(hi - 1) then 1 else 0
  }

  lemma {:induction false} Inclusion(s: seq<Interval>, g: Interval, lo: int, hi: int)
    ensures Covered(s + [g], lo, hi) + Shared(s, g, lo, hi) == Covered(s, lo, hi) + Covered([g], lo, hi)
    decreases hi - lo
  {
    if lo < hi {
      Inclusion(s, g, lo, hi - 1);
      CoversSnoc(s, g, hi - 1);
      CoversSnoc([], g, hi - 1);
      assert [] + [g] == [g];
    }
  }

  lemma {:induction false} SharedNone(s: seq<Interval>, g: Interval, lo: int, hi: int)
    ensures Shared(s, g, lo, hi) == 0 <==> forall m :: lo <= m < hi && Covers(s, m) ==> !g.Has(m)
    decreases hi - lo
  {
    if lo < hi {
      SharedNone(s, g, lo, hi - 1);
    }
  }

  lemma OneGap(g: Interval, lo: int, hi: int)
    requires lo <= g.start <= g.end <= hi
    ensures Covered([g], lo, hi) == g.Length()
  {
    forall m ensures Covers([g], m) <==> g.Has(m) { assert [g][0] == g; }
    CoveredAll([g], lo, g.start, false);
    CoveredAll([g], g.start, g.end, true);
    CoveredAll([g], g.end, hi, false);
    CoveredConcat([g], lo, g.start, hi);
    CoveredConcat([g], g.start, g.end, hi);
  }

  /** A gap that starts no earlier than others shares a minute with them unless they end before it starts. */
  lemma SharedGap(before: seq<Interval>, g: Interval, lo: int, hi: int)
    requires forall i :: 0 <= i < |before| ==> before[i].start <= g.start
    requires lo <= g.start < g.end <= hi
    ensures Shared(before, g, lo, hi) == 0 <==> EndedBy(before, g.start)
  {
    SharedNone(before, g, lo, hi);
    if !EndedBy(before, g.start) {
      var i :| 0 <= i < |before| && before[i].end > g.start;
      assert before[i].Has(g.start) && g.Has(g.start);
    }
  }

  /** The minutes of the gaps number at most their total length, and exactly that when the gaps are apart. */
  lemma {:induction false} TotalIsCovered(gaps: seq<Interval>, bound: int)
    requires Bounded(gaps, bound) && Stepped(gaps) && bound >= DAY_START
    ensures Covered(gaps, DAY_START, bound) <= Total(gaps)
    ensures Covered(gaps, DAY_START, bound) == Total(gaps) <==> Apart(gaps)
  {
    if gaps == [] {
      CoveredAll(gaps, DAY_START, bound, false);
    } else {
      var n := |gaps| - 1;
      var g, before := gaps[n], gaps[..n];
      assert gaps == before + [g];
      TotalIsCovered(before, bound);
      Inclusion(before, g, DAY_START, bound);
      OneGap(g, DAY_START, bound);
      SharedGap(before, g, DAY_START, bound);
      ApartSnoc(before, g);
    }
  }

  lemma {:induction false} Complement(s: seq<Interval>, t: seq<Interval>, lo: int, hi: int)
    requires lo <= hi && forall m :: lo <= m < hi ==> (Covers(s, m) <==> !Covers(t, m))
    ensures Covered(s, lo, hi) + Covered(t, lo, hi) == hi - lo
    decreases hi - lo
  {
    if lo < hi {
      Complement(s, t, lo, hi - 1);
    }
  }

  /** When no busy time leaves a gap after 22:00, gap lengths and busy minutes add up to the 840 minutes of the day
      exactly when the gaps do not overlap. */
  lemma MinutesAddUp(busy: seq<Interval>)
    requires LateStartsCovered(busy)
    ensures Total(Gaps(Sort(busy, Before))) + Covered(busy, DAY_START, DAY_END) == 840 <==> Tidy(Sort(busy, Before))
  {
    var gaps := Gaps(Sort(busy, Before));
    WithinDayIff(busy);
    GapsAreTheRest(busy, 0);
    GapsApartIff(busy);
    TotalIsCovered(gaps, DAY_END);
    forall m | DAY_START <= m < DAY_END
      ensures Covers(gaps, m) <==> !Covers(busy, m)
    {
      GapsAreTheRest(busy, m);
    }
    Complement(gaps, busy, DAY_START, DAY_END);
  }

  // ---- what is offered ----

  /** Exactly the gaps of at least 15 minutes are offered; if the gaps are apart, in order, so are these. */
  lemma {:induction false} OfferedAreLong(gaps: seq<Interval>)
    ensures forall g :: g in LongEnough(gaps) <==> g in gaps && g.end - g.start >= 15
    ensures Apart(gaps) ==> Apart(LongEnough(gaps))
  {
    if gaps != [] {
      var n := |gaps| - 1;
      var before, g := gaps[..n], gaps[n];
      assert gaps == before + [g];
      OfferedAreLong(before);
      ApartSnoc(before, g);
      ApartSnoc(LongEnough(before), g);
      if EndedBy(before, g.start) {
        assert forall i :: 0 <= i < |LongEnough(before)| ==> LongEnough(before)[i] in before;
      }
    }
  }

  /** The busy intervals in order, closed by the end of the day: the gap before each is what the scan finds. */
  function Closed(busy: seq<Interval>): seq<Interval> { Sort(busy, Before) + [Interval(DAY_END, DAY_END)] }

  lemma GapsOfClosed(busy: seq<Interval>)
    ensures Gaps(Sort(busy, Before)) == Scan(Closed(busy)).0
  {
    var s := Sort(busy, Before);
    assert Closed(busy)[..|s|] == s;
  }

  /** The 15 minutes before interval i begin no earlier than 08:00 and the end of every interval before it. */
  predicate Offers(s: seq<Interval>, i: nat) {
    i < |s| && !Passed(s[..i], s[i].start - MIN_SLOT + 1)
  }

  /** Whether the offered slots end by x can be read off the intervals that have one before them. */
  lemma {:induction false} OfferedEnds(s: seq<Interval>, x: int)
    ensures EndedBy(LongEnough(Scan(s).0), x) <==> forall i: nat :: Offers(s, i) ==> s[i].start <= x
  {
    if s != [] {
      var n := |s| - 1;
      OfferedEnds(s[..n], x);
      OffersPrefix(s);
      OfferedLast(s);
      EndedSnoc(LongEnough(Scan(s[..n]).0), Interval(Scan(s[..n]).1, s[n].start), x);
    }
  }

  lemma EndedSnoc(gaps: seq<Interval>, g: Interval, x: int)
    ensures EndedBy(gaps + [g], x) <==> EndedBy(gaps, x) && g.end <= x
  {
    var all := gaps + [g];
    assert all[|gaps|] == g && forall i :: 0 <= i < |gaps| ==> all[i] == gaps[i];
  }

  lemma OffersPrefix(s: seq<Interval>)
    requires s != []
    ensures forall i: nat :: i < |s| - 1 ==> (Offers(s[..|s| - 1], i) <==> Offers(s, i)) && s[..|s| - 1][i] == s[i]
  {
    forall i: nat | i < |s| - 1
      ensures Offers(s[..|s| - 1], i) <==> Offers(s, i)
    {
      assert s[..|s| - 1][..i] == s[..i];
    }
  }

  /** The last interval adds a slot exactly when it offers one. */
  lemma OfferedLast(s: seq<Interval>)
    requires s != []
    ensures var n := |s| - 1;
      var (free, cursor) := Scan(s[..n]);
      LongEnough(Scan(s).0) ==
      if Offers(s, n) then LongEnough(free) + [Interval(cursor, s[n].start)] else LongEnough(free)
  {
    var n := |s| - 1;
    var (free, cursor) := Scan(s[..n]);
    CursorIs(s[..n], s[n].start - MIN_SLOT + 1);
    assert (free + [Interval(cursor, s[n].start)])[..|free|] == free;
  }

  /** The slots offered before one interval have ended by the time a later one's begins. */
  predicate OffersApart(s: seq<Interval>) {
    forall i: nat, j: nat :: i < j < |s| && Offers(s, i) && Offers(s, j) ==> Passed(s[..j], s[i].start)
  }

  lemma {:induction false} OfferedApart(s: seq<Interval>)
    ensures Apart(LongEnough(Scan(s).0)) <==> OffersApart(s)
  {
    if s != [] {
      var n := |s| - 1;
      var (free, cursor) := Scan(s[..n]);
      OfferedApart(s[..n]);
      OffersApartPrefix(s);
      OfferedLast(s);
      ApartSnoc(LongEnough(free), Interval(cursor, s[n].start));
      OfferedEnds(s[..n], cursor);
      OffersPrefix(s);
      forall i: nat | i < n { CursorIs(s[..n], s[i].start); }
    }
  }

  lemma OffersApartPrefix(s: seq<Interval>)
    requires s != []
    ensures var n := |s| - 1;
      OffersApart(s) <==>
      OffersApart(s[..n]) && (Offers(s, n) ==> forall i: nat :: i < n && Offers(s, i) ==> Passed(s[..n], s[i].start))
  {
    OffersPrefix(s);
    assert forall j: nat :: j < |s| - 1 ==> s[..|s| - 1][..j] == s[..j];
  }

  /** Main result for what is offered: the slots keep to 08:00-22:00 exactly when no interval that starts after 22:00
      has one before it, and they are disjoint and in order exactly when each has ended before the next begins. */
  lemma OfferedIff(busy: seq<Interval>)
    ensures var slots, s := LongEnough(Gaps(Sort(busy, Before))), Closed(busy);
      && (WithinDay(slots) <==> forall i: nat :: Offers(s, i) ==> s[i].start <= DAY_END)
      && (Apart(slots) <==> OffersApart(s))
  {
    GapsOfClosed(busy);
    OfferedEnds(Closed(busy), DAY_END);
    OfferedApart(Closed(busy));
  }

  // ---- clock texts ----

  function Digit(d: int): char
    requires 0 <= d < 10
  {
    '0' + d as char
  }

  /** Minutes as zero-padded "HH:MM". */
  function Clock(m: int): string
    requires 0 <= m < 6000
  {
    [Digit(m / 600), Digit(m / 60 % 10), ':', Digit(m % 60 / 10), Digit(m % 10)]
  }

  /** `_time_diff`, on texts of this form. */
  function TimeDiff(s: string, t: string): int
    requires |s| == |t| == 5
  {
    (Number(t[0], t[1]) - Number(s[0], s[1])) * 60 + (Number(t[3], t[4]) - Number(s[3], s[4]))
  }

  function Number(tens: char, ones: char): int { (tens as int - '0' as int) * 10 + (ones as int - '0' as int) }

  lemma FiveChars(s: string, t: string)
    requires |s| == |t| == 5 && s[2] == t[2]
    ensures TextLe(s, t) <==>
      || s[0] < t[0]
      || (s[0] == t[0] && (s[1] < t[1] || (s[1] == t[1] && (s[3] < t[3] || (s[3] == t[3] && s[4] <= t[4])))))
  {
    var s1, t1 := s[1..], t[1..];
    var s2, t2 := s1[1..], t1[1..];
    var s3, t3 := s2[1..], t2[1..];
    var s4, t4 := s3[1..], t3[1..];
    assert TextLe(s4[1..], t4[1..]);
    assert TextLe(s4, t4) <==> s[4] <= t[4];
    assert TextLe(s3, t3) <==> s[3] < t[3] || (s[3] == t[3] && TextLe(s4, t4));
    assert TextLe(s2, t2) <==> TextLe(s3, t3);
    assert TextLe(s1, t1) <==> s[1] < t[1] || (s[1] == t[1] && TextLe(s2, t2));
  }

  /** Clock texts compare like the minutes they stand for, and differ by as much. */
  lemma ClockOrder(a: int, b: int)
    requires 0 <= a < 6000 && 0 <= b < 6000
    ensures TextLe(Clock(a), Clock(b)) <==> a <= b
    ensures Clock(a) == Clock(b) <==> a == b
    ensures TimeDiff(Clock(a), Clock(b)) == b - a
  {
    FiveChars(Clock(a), Clock(b));
    Digits(a);
    Digits(b);
  }

  /** The day runs from 08:00 to 22:00. */
  lemma DayTexts()
    ensures Clock(DAY_START) == "08:00" && Clock(DAY_END) == "22:00"
  {
  }

  lemma Digits(m: int)
    requires 0 <= m < 6000
    ensures m == (m / 600 * 10 + m / 60 % 10) * 60 + (m % 60 / 10 * 10 + m % 10)
    ensures 0 <= m / 600 < 10 && 0 <= m / 60 % 10 < 10 && 0 <= m % 60 / 10 < 6 && 0 <= m % 10 < 10
  {
    assert m / 60 / 10 == m / 600;
    assert m % 60 % 10 == m % 10;
  }
}
