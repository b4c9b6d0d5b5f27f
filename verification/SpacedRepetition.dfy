/** The two SM-2 variants. Ease is kept in hundredths, so that every update is exact. */
module SpacedRepetition {
  import opened Prelude
  import opened Rounding

  const MIN_EASE := 130

  /** A row of the flashcard table. `nextReview` is a day number. */
  datatype Card = Card(ease: int, interval: int, repetitions: int, mastery: int, nextReview: int)

  /** The interval after a success: 1 day, then 6, then the old one times the ease. */
  function NextInterval(repetitions: int, interval: int, ease: int): int {
    if repetitions == 0 then 1 else if repetitions == 1 then 6 else RoundHalfEven(interval * ease, 100)
  }

  function Mastered(mastery: int, quality: int): int {
    Max(0, Min(100, mastery + if quality >= 4 then 20 else if quality >= 3 then 10 else -15))
  }

  function Review(c: Card, quality: int, today: int): Card {
    var interval := if quality >= 3 then NextInterval(c.repetitions, c.interval, c.ease) else 1;
    Card(
      Max(MIN_EASE, if quality >= 3 then c.ease + 10 - (5 - quality) * 8 else c.ease - 20),
      interval,
      if quality >= 3 then c.repetitions + 1 else 0,
      Mastered(c.mastery, quality),
      today + Min(interval, 365))
  }

  class FlashcardTable {
    var cards: map<int, Card>

    constructor ()
      ensures cards == map[]
    {
      cards := map[];
    }

    /** Reviews a card; an unknown id is ignored. */
    method UpdateReview(id: int, quality: int, today: int)
      modifies this
      ensures cards == if id in old(cards) then old(cards)[id := Review(old(cards)[id], quality, today)] else old(cards)
    {
      if id !in cards {
        return;
      }
      var card := cards[id];
      var ease, reps := card.ease, card.repetitions;
      var interval;
      if quality >= 3 {
        if reps == 0 {
          interval := 1;
        } else if reps == 1 {
          interval := 6;
        } else {
          interval := RoundHalfEven(card.interval * ease, 100);
        }
        ease := Max(MIN_EASE, ease + (10 - (5 - quality) * 8));
        reps := reps + 1;
      } else {
        interval, reps, ease := 1, 0, Max(MIN_EASE, ease - 20);
      }
      var mastery := Max(0, Min(100, card.mastery + (if quality >= 4 then 20 else if quality >= 3 then 10 else -15)));
      cards := cards[id := Card(ease, interval, reps, mastery, today + Min(interval, 365))];
    }
  }

  // ---- reachable cards ----

  /** The table's defaults. */
  function NewCard(today: int): Card { Card(250, 1, 0, 0, today) }

  predicate Valid(c: Card) {
    && c.ease >= MIN_EASE && c.repetitions >= 0 && 0 <= c.mastery <= 100
    && (c.repetitions >= 1 ==> c.interval >= 1)
    && (c.repetitions >= 2 ==> c.interval >= 6)
  }

  /** A review is a quality on a day. */
  datatype Visit = Visit(quality: int, today: int)

  function After(c: Card, visits: seq<Visit>): Card {
    if visits == [] then c else
    var n := |visits| - 1;
    Review(After(c, visits[..n]), visits[n].quality, visits[n].today)
  }

  lemma GrowsBy(interval: int, ease: int)
    requires ease >= MIN_EASE && interval >= 5
    ensures 5 * RoundHalfEven(interval * ease, 100) >= 6 * interval
  {
    Nearest(interval * ease, 100);
    assert interval * ease >= interval * 130;
  }

  lemma ReviewValid(c: Card, quality: int, today: int)
    requires Valid(c)
    ensures Valid(Review(c, quality, today))
    ensures 1 <= Review(c, quality, today).nextReview - today <= 365
  {
    if c.repetitions >= 2 {
      GrowsBy(c.interval, c.ease);
    }
  }

  /** After any history the ease is at least 1.3 and the next review is 1 to 365 days after the last one. */
  lemma {:induction false} AlwaysInBounds(c: Card, visits: seq<Visit>)
    requires Valid(c)
    ensures Valid(After(c, visits))
    ensures visits != [] ==> 1 <= After(c, visits).nextReview - visits[|visits| - 1].today <= 365
  {
    if visits != [] {
      AlwaysInBounds(c, visits[..|visits| - 1]);
      ReviewValid(After(c, visits[..|visits| - 1]), visits[|visits| - 1].quality, visits[|visits| - 1].today);
    }
  }

  // ---- what a review gives ----

  lemma AfterSnoc(c: Card, visits: seq<Visit>, v: Visit)
    ensures After(c, visits + [v]) == Review(After(c, visits), v.quality, v.today)
  {
    assert (visits + [v])[..|visits|] == visits;
  }

  /** After any history, one more visit: the card is due again after its new interval, or after a year if that is
      longer. A failure, or the first success after one, is due the next day, and the second success in 6 days;
      a later success takes the old interval times the old ease, to the nearest day. */
  lemma DueAgain(c: Card, visits: seq<Visit>, v: Visit)
    requires Valid(c)
    ensures var before, after := After(c, visits), After(c, visits + [v]);
      && after.nextReview - v.today == (if after.interval <= 365 then after.interval else 365)
      && after.repetitions == (if v.quality < 3 then 0 else before.repetitions + 1)
      && (v.quality < 3 ==> after.interval == 1)
      && (v.quality >= 3 && before.repetitions == 0 ==> after.interval == 1)
      && (v.quality >= 3 && before.repetitions == 1 ==> after.interval == 6)
      && (v.quality >= 3 && before.repetitions >= 2 ==>
            -50 <= 100 * after.interval - before.interval * before.ease <= 50)
  {
    AfterSnoc(c, visits, v);
    AlwaysInBounds(c, visits);
    Nearest(After(c, visits).interval * After(c, visits).ease, 100);
  }

  predicate AllOf(visits: seq<Visit>, quality: int) {
    forall i :: 0 <= i < |visits| ==> visits[i].quality == quality
  }

  function AtLeast(x: int, floor: int): int { if x < floor then floor else x }
  function AtMost(x: int, ceiling: int): int { if x > ceiling then ceiling else x }

  /** n visits of one quality from 0 to 5: each adds 0.10 or 0.02 to the ease or takes 0.06 or 0.20 from it, down to
      1.30, and adds 20 or 10 to the mastery or takes 15 from it, within 0 to 100. */
  lemma {:induction false} SameQuality(c: Card, visits: seq<Visit>, q: int)
    requires Valid(c) && 0 <= q <= 5 && AllOf(visits, q)
    ensures var d, n := After(c, visits), |visits|;
      && d.ease == (if q == 5 then c.ease + 10 * n else if q == 4 then c.ease + 2 * n
                    else if q == 3 then AtLeast(c.ease - 6 * n, 130) else AtLeast(c.ease - 20 * n, 130))
      && d.mastery == (if q >= 4 then AtMost(c.mastery + 20 * n, 100)
                       else if q == 3 then AtMost(c.mastery + 10 * n, 100) else AtLeast(c.mastery - 15 * n, 0))
      && d.repetitions == if n == 0 then c.repetitions else if q < 3 then 0 else c.repetitions + n
  {
    if visits != [] {
      SameQuality(c, visits[..|visits| - 1], q);
    }
  }

  /** A new card answered perfectly three times is due in 1, 6 and then 16 days. */
  lemma FirstDays(today: int, a: int, b: int, d: int)
    ensures var c := NewCard(today);
      && c.ease == 250 && c.mastery == 0 && c.nextReview == today
      && After(c, [Visit(5, a)]).nextReview == a + 1
      && After(c, [Visit(5, a), Visit(5, b)]).nextReview == b + 6
      && After(c, [Visit(5, a), Visit(5, b), Visit(5, d)]).nextReview == d + 16
  {
    var c := NewCard(today);
    AfterSnoc(c, [], Visit(5, a));
    AfterSnoc(c, [Visit(5, a)], Visit(5, b));
    AfterSnoc(c, [Visit(5, a), Visit(5, b)], Visit(5, d));
    assert [] + [Visit(5, a)] == [Visit(5, a)];
    assert [Visit(5, a)] + [Visit(5, b)] == [Visit(5, a), Visit(5, b)];
    assert [Visit(5, a), Visit(5, b)] + [Visit(5, d)] == [Visit(5, a), Visit(5, b), Visit(5, d)];
  }

  // ---- better answers never hurt ----

  predicate Dominates(a: Card, b: Card) {
    && a.ease >= b.ease && a.interval >= b.interval && a.repetitions >= b.repetitions
    && a.mastery >= b.mastery && a.nextReview >= b.nextReview
  }

  lemma ProductMonotone(a: int, b: int, x: int, y: int)
    requires a >= b >= 0 && x >= y >= 0
    ensures a * x >= b * y
  {
    assert a * x >= b * x >= b * y;
  }

  lemma IntervalMonotone(a: Card, b: Card)
    requires Valid(a) && Valid(b) && Dominates(a, b)
    ensures NextInterval(a.repetitions, a.interval, a.ease) >= NextInterval(b.repetitions, b.interval, b.ease)
  {
    if a.repetitions >= 2 {
      GrowsBy(a.interval, a.ease);
      if b.repetitions >= 2 {
        ProductMonotone(a.interval, b.interval, a.ease, b.ease);
        Monotone(b.interval * b.ease, a.interval * a.ease, 100);
      }
    }
  }

  lemma ReviewMonotone(a: Card, b: Card, p: int, q: int, today: int)
    requires Valid(a) && Valid(b) && Dominates(a, b) && p >= q
    ensures Dominates(Review(a, p, today), Review(b, q, today))
  {
    IntervalMonotone(a, b);
    ReviewValid(a, p, today);
  }

  /** Main result. Two histories on the same days, the first at least as good at every visit, failures included:
      after every number of visits the first leaves the card at least as well off in every respect. */
  lemma {:induction false} BetterHistoryDominates(c: Card, better: seq<Visit>, worse: seq<Visit>)
    requires Valid(c) && |better| == |worse|
    requires forall i :: 0 <= i < |better| ==>
               better[i].today == worse[i].today && better[i].quality >= worse[i].quality
    ensures Dominates(After(c, better), After(c, worse))
  {
    if better != [] {
      var n := |better| - 1;
      BetterHistoryDominates(c, better[..n], worse[..n]);
      AlwaysInBounds(c, better[..n]);
      AlwaysInBounds(c, worse[..n]);
      ReviewMonotone(After(c, better[..n]), After(c, worse[..n]), better[n].quality, worse[n].quality, better[n].today);
    }
  }

  // ---- consecutive successes ----

  function Pow(b: nat, e: nat): nat {
    if e == 0 then 1 else b * Pow(b, e - 1)
  }

  lemma PowerStep(before: int, after: int, n: nat)
    requires 5 * after >= 6 * before >= 0 && before * Pow(5, n) >= 6 * Pow(6, n)
    ensures after * Pow(5, n + 1) >= 6 * Pow(6, n + 1)
  {
    var p := Pow(5, n);
    ProductMonotone(5 * after, 6 * before, p, p);
    assert after * (5 * p) == (5 * after) * p;
    assert (6 * before) * p == 6 * (before * p);
  }

  /** n >= 2 successes in a row from a fresh or failed card: the interval has reached 6 * 1.2^(n-2) days. */
  lemma {:induction false} SuccessesGrow(c: Card, visits: seq<Visit>)
    requires Valid(c) && c.repetitions == 0
    requires forall i :: 0 <= i < |visits| ==> visits[i].quality >= 3
    ensures var d := After(c, visits);
      && d.repetitions == |visits|
      && (|visits| == 1 ==> d.interval == 1)
      && (|visits| >= 2 ==> d.interval >= 6 && d.interval * Pow(5, |visits| - 2) >= 6 * Pow(6, |visits| - 2))
  {
    if visits != [] {
      var n := |visits| - 1;
      SuccessesGrow(c, visits[..n]);
      AlwaysInBounds(c, visits[..n]);
      var before := After(c, visits[..n]);
      if n >= 2 {
        GrowsBy(before.interval, before.ease);
        PowerStep(before.interval, After(c, visits).interval, n - 2);
      }
    }
  }

  /** Each success after the first makes the interval strictly longer, rounding notwithstanding. */
  lemma SuccessLengthens(c: Card, visits: seq<Visit>)
    requires Valid(c) && c.repetitions == 0 && |visits| >= 2
    requires forall i :: 0 <= i < |visits| ==> visits[i].quality >= 3
    ensures After(c, visits).interval > After(c, visits[..|visits| - 1]).interval
  {
    var n := |visits| - 1;
    SuccessesGrow(c, visits[..n]);
    AlwaysInBounds(c, visits[..n]);
    if n >= 2 {
      GrowsBy(After(c, visits[..n]).interval, After(c, visits[..n]).ease);
    }
  }

  // ---- the textbook scheduler ----

  datatype Schedule = Schedule(interval: int, repetitions: int, ease: int, gap: int)

  /** The default arguments. */
  const NEW_SCHEDULE := Schedule(1, 0, 250, 1)

  function Scheduled(quality: int, s: Schedule): Schedule {
    var q := Max(0, Min(5, quality));
    if q >= 3 then
      var interval := NextInterval(s.repetitions, s.interval, s.ease);
      var ease := Max(MIN_EASE, s.ease + (10 - (5 - q) * (8 + (5 - q) * 2)));
      Schedule(interval, s.repetitions + 1, ease, Min(interval, 365))
    else
      Schedule(1, 0, Max(MIN_EASE, s.ease - 20), 1)
  }

  function Threaded(s: Schedule, qualities: seq<int>): Schedule {
    if qualities == [] then s else Scheduled(qualities[|qualities| - 1], Threaded(s, qualities[..|qualities| - 1]))
  }

  lemma ThreadedSnoc(s: Schedule, qualities: seq<int>, q: int)
    ensures Threaded(s, qualities + [q]) == Scheduled(q, Threaded(s, qualities))
  {
    assert (qualities + [q])[..|qualities|] == qualities;
  }

  /** The gap is the new interval, or a year if that is longer; intervals as for a flashcard.
      A quality outside 0 to 5 counts as the nearest one inside. */
  lemma ScheduledAgain(s: Schedule, qualities: seq<int>, q: int)
    ensures var before, after := Threaded(s, qualities), Threaded(s, qualities + [q]);
      && after.gap == (if after.interval <= 365 then after.interval else 365)
      && after.repetitions == (if q < 3 then 0 else before.repetitions + 1)
      && (q < 3 ==> after.interval == 1)
      && (q >= 3 && before.repetitions == 0 ==> after.interval == 1)
      && (q >= 3 && before.repetitions == 1 ==> after.interval == 6)
      && (q >= 3 && before.repetitions != 0 && before.repetitions != 1 ==>
            -50 <= 100 * after.interval - before.interval * before.ease <= 50)
  {
    ThreadedSnoc(s, qualities, q);
    Nearest(Threaded(s, qualities).interval * Threaded(s, qualities).ease, 100);
  }

  /** n answers of one quality: each adds 0.10 to the ease or nothing, or takes 0.14 or 0.20 from it, down to 1.30. */
  lemma {:induction false} SameAnswer(s: Schedule, qualities: seq<int>, q: int)
    requires s.ease >= 130 && forall i :: 0 <= i < |qualities| ==> qualities[i] == q
    ensures var d, n := Threaded(s, qualities), |qualities|;
      d.ease == if q >= 5 then s.ease + 10 * n else if q == 4 then s.ease
                else if q == 3 then AtLeast(s.ease - 14 * n, 130) else AtLeast(s.ease - 20 * n, 130)
  {
    if qualities != [] {
      SameAnswer(s, qualities[..|qualities| - 1], q);
    }
  }

  /** A flashcard and a schedule with the same count of successes, the flashcard at least as far ahead. */
  predicate Ahead(c: Card, s: Schedule) {
    && Valid(c) && c.repetitions == s.repetitions
    && c.ease >= s.ease >= MIN_EASE && c.interval >= s.interval
    && (s.repetitions >= 1 ==> s.interval >= 1) && (s.repetitions >= 2 ==> s.interval >= 6)
  }

  lemma AheadStep(c: Card, s: Schedule, quality: int, today: int)
    requires Ahead(c, s)
    ensures Ahead(Review(c, quality, today), Scheduled(quality, s))
    ensures Review(c, quality, today).nextReview - today >= Scheduled(quality, s).gap
  {
    ReviewValid(c, quality, today);
    if s.repetitions >= 2 {
      GrowsBy(s.interval, s.ease);
      ProductMonotone(c.interval, s.interval, c.ease, s.ease);
      Monotone(s.interval * s.ease, c.interval * c.ease, 100);
    }
  }

  /** Fed the same qualities, the flashcard variant is never behind the textbook one. */
  lemma {:induction false} FlashcardsAhead(c: Card, s: Schedule, visits: seq<Visit>, qualities: seq<int>)
    requires Ahead(c, s) && |visits| == |qualities|
    requires forall i :: 0 <= i < |visits| ==> visits[i].quality == qualities[i]
    ensures Ahead(After(c, visits), Threaded(s, qualities))
  {
    if visits != [] {
      var n := |visits| - 1;
      FlashcardsAhead(c, s, visits[..n], qualities[..n]);
      AheadStep(After(c, visits[..n]), Threaded(s, qualities[..n]), qualities[n], visits[n].today);
    }
  }

  /** A new card and the scheduler's default arguments. */
  lemma DefaultsAhead(today: int)
    ensures Valid(NewCard(today)) && Ahead(NewCard(today), NEW_SCHEDULE)
  {
  }

  /** From the defaults on: whatever the history, the flashcard stays in bounds and is never behind. */
  lemma NewCardAhead(today: int, visits: seq<Visit>, qualities: seq<int>)
    requires |visits| == |qualities| && forall i :: 0 <= i < |visits| ==> visits[i].quality == qualities[i]
    ensures Valid(After(NewCard(today), visits))
    ensures Ahead(After(NewCard(today), visits), Threaded(NEW_SCHEDULE, qualities))
  {
    DefaultsAhead(today);
    AlwaysInBounds(NewCard(today), visits);
    FlashcardsAhead(NewCard(today), NEW_SCHEDULE, visits, qualities);
  }
}
