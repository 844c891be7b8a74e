/** Cutting the simulated window into calendar quarters (src/warehouse/backfill.py,
    all_chunks). Days are proleptic Gregorian ordinals, day 1 being 0001-01-01, and
    years run from 1 to 9999. */
module Chunks {
  import opened Wrappers

  const MAXYEAR: int := 9999

  datatype Date = Date(year: int, month: int, day: int)

  predicate Leap(y: int) {
    y % 4 == 0 && (y % 100 != 0 || y % 400 == 0)
  }

  function DaysInMonth(y: int, m: int): int {
    if m == 2 then (if Leap(y) then 29 else 28)
    else if m == 4 || m == 6 || m == 9 || m == 11 then 30
    else 31
  }

  function DaysBeforeYear(y: int): int {
    365 * (y - 1) + (y - 1) / 4 - (y - 1) / 100 + (y - 1) / 400
  }

  function DaysBeforeMonth(y: int, m: nat): int {
    if m <= 1 then 0 else DaysBeforeMonth(y, m - 1) + DaysInMonth(y, m - 1)
  }

  predicate ValidDate(d: Date) {
    1 <= d.year <= MAXYEAR && 1 <= d.month <= 12 && 1 <= d.day <= DaysInMonth(d.year, d.month)
  }

  function Ordinal(d: Date): int
    requires ValidDate(d)
  {
    DaysBeforeYear(d.year) + DaysBeforeMonth(d.year, d.month) + d.day
  }

  // ----- quarters ---------------------------------------------------------------------

  /** A calendar quarter. */
  datatype Quarter = Quarter(year: int, number: int)

  predicate ValidQuarter(q: Quarter) {
    1 <= q.year <= MAXYEAR && 1 <= q.number <= 4
  }

  function QuarterOf(d: Date): Quarter {
    Quarter(d.year, (d.month - 1) / 3 + 1)
  }

  function NextQuarter(q: Quarter): Quarter {
    if q.number == 4 then Quarter(q.year + 1, 1) else Quarter(q.year, q.number + 1)
  }

  function FirstDay(q: Quarter): int
    requires ValidQuarter(q)
  {
    Ordinal(Date(q.year, 3 * q.number - 2, 1))
  }

  /** How many quarters are left before the calendar ends. */
  function QuartersLeft(q: Quarter): int {
    4 * (MAXYEAR + 1 - q.year) - q.number
  }

  lemma MonthStarts(y: int)
    ensures DaysBeforeMonth(y, 1) == 0 && DaysBeforeMonth(y, 4) == 62 + DaysInMonth(y, 2)
    ensures DaysBeforeMonth(y, 7) == 153 + DaysInMonth(y, 2)
    ensures DaysBeforeMonth(y, 10) == 245 + DaysInMonth(y, 2)
    ensures DaysBeforeMonth(y, 12) == 306 + DaysInMonth(y, 2)
  {
    assert DaysBeforeMonth(y, 2) == 31;
    assert DaysBeforeMonth(y, 3) == 31 + DaysInMonth(y, 2);
    assert DaysBeforeMonth(y, 5) == DaysBeforeMonth(y, 4) + 30;
    assert DaysBeforeMonth(y, 6) == DaysBeforeMonth(y, 5) + 31;
    assert DaysBeforeMonth(y, 8) == DaysBeforeMonth(y, 7) + 31;
    assert DaysBeforeMonth(y, 9) == DaysBeforeMonth(y, 8) + 31;
    assert DaysBeforeMonth(y, 11) == DaysBeforeMonth(y, 10) + 31;
  }

  lemma YearLength(y: int)
    requires 1 <= y
    ensures DaysBeforeYear(y + 1) == DaysBeforeYear(y) + 337 + DaysInMonth(y, 2)
  {
    assert y / 4 == (y - 1) / 4 + (if y % 4 == 0 then 1 else 0);
    assert y / 100 == (y - 1) / 100 + (if y % 100 == 0 then 1 else 0);
    assert y / 400 == (y - 1) / 400 + (if y % 400 == 0 then 1 else 0);
    assert y % 400 == 0 ==> y % 100 == 0;
  }

  /** The year's quarters are made of whole months, and the fourth ends the year. */
  lemma MonthInQuarter(y: int, m: int)
    requires 1 <= m <= 12
    ensures var n := 3 * ((m - 1) / 3) + 1;
      && DaysBeforeMonth(y, n) <= DaysBeforeMonth(y, m)
      && DaysBeforeMonth(y, m) + DaysInMonth(y, m) <= DaysBeforeMonth(y, n + 3)
      && (n + 3 == 13 ==> DaysBeforeMonth(y, n + 3) == 337 + DaysInMonth(y, 2))
  {
    var n := 3 * ((m - 1) / 3) + 1;
    assert n <= m <= n + 2;
    hide DaysInMonth;
    assert DaysBeforeMonth(y, n + 1) == DaysBeforeMonth(y, n) + DaysInMonth(y, n);
    assert DaysBeforeMonth(y, n + 2) == DaysBeforeMonth(y, n + 1) + DaysInMonth(y, n + 1);
    assert DaysBeforeMonth(y, n + 3) == DaysBeforeMonth(y, n + 2) + DaysInMonth(y, n + 2);
    AMonthHasDays(y, n);
    AMonthHasDays(y, n + 1);
    AMonthHasDays(y, n + 2);
    MonthStarts(y);
    Winter(y);
  }

  lemma AMonthHasDays(y: int, m: int)
    ensures 28 <= DaysInMonth(y, m) <= 31
  {
  }

  lemma Winter(y: int)
    ensures DaysInMonth(y, 10) + DaysInMonth(y, 11) + DaysInMonth(y, 12) == 92
  {
  }

  /** A quarter lasts 90 to 92 days: the next one begins that much later. */
  lemma QuarterLength(q: Quarter)
    requires ValidQuarter(q) && ValidQuarter(NextQuarter(q))
    ensures FirstDay(q) + 90 <= FirstDay(NextQuarter(q)) <= FirstDay(q) + 92
  {
    MonthStarts(q.year);
    MonthStarts(q.year + 1);
    YearLength(q.year);
  }

  /** A date lies in its quarter. */
  lemma DateInQuarter(d: Date)
    requires ValidDate(d)
    ensures ValidQuarter(QuarterOf(d)) && FirstDay(QuarterOf(d)) <= Ordinal(d)
    ensures ValidQuarter(NextQuarter(QuarterOf(d))) ==> Ordinal(d) < FirstDay(NextQuarter(QuarterOf(d)))
  {
    hide DaysInMonth, DaysBeforeYear;
    MonthInQuarter(d.year, d.month);
    AMonthHasDays(d.year, 1);
    AMonthHasDays(d.year + 1, 1);
    MonthStarts(d.year + 1);
    YearLength(d.year);
    assert 3 * QuarterOf(d).number - 2 == 3 * ((d.month - 1) / 3) + 1;
    assert QuarterOf(d).number == 4 <==> 3 * ((d.month - 1) / 3) + 1 == 10;
  }

  // ----- the chunks -------------------------------------------------------------------------

  /** One quarter's part of the window, both ends included. */
  datatype Chunk = Chunk(name: Quarter, start: int, end: int)

  /** The calendar has no day after 9999-12-31. */
  datatype CalendarError = YearOutOfRange

  function Later(a: int, b: int): int {
    if a >= b then a else b
  }

  function Earlier(a: int, b: int): int {
    if a <= b then a else b
  }

  /** Consecutive chunks covering `from` to `to` without gap or overlap, each named after
      the quarter its days lie in. */
  ghost predicate Tiles(chunks: seq<Chunk>, from: int, to: int) {
    && (chunks == [] <==> from > to)
    && (chunks != [] ==> chunks[0].start == from && chunks[|chunks| - 1].end == to)
    && (forall i :: 0 <= i < |chunks| ==> InQuarter(chunks[i]))
    && (forall i :: 0 <= i < |chunks| - 1 ==> chunks[i + 1].start == chunks[i].end + 1)
    && (forall i :: 0 <= i < |chunks| - 1 ==> chunks[i + 1].name == NextQuarter(chunks[i].name))
  }

  ghost predicate InQuarter(c: Chunk) {
    && ValidQuarter(c.name) && FirstDay(c.name) <= c.start <= c.end
    && (ValidQuarter(NextQuarter(c.name)) ==> c.end < FirstDay(NextQuarter(c.name)))
  }

  const LAST_QUARTER: Quarter := Quarter(MAXYEAR, 4)

  lemma {:induction false} QuartersAscend(q: Quarter, q': Quarter)
    requires ValidQuarter(q) && ValidQuarter(q') && QuartersLeft(q) >= QuartersLeft(q')
    ensures FirstDay(q) <= FirstDay(q')
    decreases QuartersLeft(q) - QuartersLeft(q')
  {
    if QuartersLeft(q) > QuartersLeft(q') {
      QuarterLength(q);
      QuartersAscend(NextQuarter(q), q');
    } else {
      assert q == q';
    }
  }

  /** The quarter loop ends for every window; its chunks tile the window exactly when the
      window ends before the calendar's last quarter, and otherwise it fails on the day
      after 9999-12-31. */
  method AllChunks(start: Date, end: Date) returns (result: Result<seq<Chunk>, CalendarError>)
    requires ValidDate(start) && ValidDate(end) && Ordinal(start) <= Ordinal(end)
    ensures result.Success? <==> Ordinal(end) < FirstDay(LAST_QUARTER)
    ensures result.Success? ==> Tiles(result.value, Ordinal(start), Ordinal(end))
  {
    hide Ordinal, FirstDay;
    DateInQuarter(start);
    var first, last := Ordinal(start), Ordinal(end);
    var chunks: seq<Chunk> := [];
    var q := QuarterOf(start);
    while true
      invariant ValidQuarter(q)
      invariant chunks == [] ==> q == QuarterOf(start)
      invariant chunks != [] ==> (
        && Tiles(chunks, first, Earlier(last, FirstDay(q) - 1))
        && q == NextQuarter(chunks[|chunks| - 1].name) && first < FirstDay(q))
      decreases QuartersLeft(q)
    {
      QuartersAscend(q, LAST_QUARTER);
      if FirstDay(q) > last {
        return Success(chunks);
      }
      var next := NextQuarter(q);
      if next.year > MAXYEAR {
        assert q == LAST_QUARTER;
        return Failure(YearOutOfRange);
      }
      QuarterLength(q);
      var chunk := Chunk(q, Later(FirstDay(q), first), Earlier(FirstDay(next) - 1, last));
      assert InQuarter(chunk);
      chunks := chunks + [chunk];
      q := next;
    }
  }

  /** Each day of a tiled window lies in exactly one chunk, and no chunk holds another day. */
  lemma {:induction false} EachDayInOneChunk(chunks: seq<Chunk>, from: int, to: int, day: int)
    requires Tiles(chunks, from, to)
    ensures from <= day <= to <==> exists i :: 0 <= i < |chunks| && chunks[i].start <= day <= chunks[i].end
    ensures forall i, j :: 0 <= i < j < |chunks| ==> chunks[i].end < chunks[j].start
  {
    if chunks != [] {
      var n := |chunks| - 1;
      if n == 0 {
        assert chunks[0].start <= day <= chunks[0].end <==> from <= day <= to;
      } else {
        var rest := chunks[..n];
        EndsAscend(chunks);
        assert InQuarter(chunks[0]) && InQuarter(chunks[n - 1]);
        assert n > 1 ==> chunks[0].end < chunks[n - 1].start;
        assert Tiles(rest, from, rest[n - 1].end);
        EachDayInOneChunk(rest, from, rest[n - 1].end, day);
        assert chunks[n].start <= day <= chunks[n].end <==> rest[n - 1].end < day <= to;
        assert forall i :: 0 <= i < n ==> rest[i] == chunks[i];
      }
    }
  }

  lemma {:induction false} EndsAscend(chunks: seq<Chunk>)
    requires forall i :: 0 <= i < |chunks| ==> InQuarter(chunks[i])
    requires forall i :: 0 <= i < |chunks| - 1 ==> chunks[i + 1].start == chunks[i].end + 1
    ensures forall i, j :: 0 <= i < j < |chunks| ==> chunks[i].end < chunks[j].start
  {
    hide FirstDay;
    if chunks != [] {
      var n := |chunks| - 1;
      EndsAscend(chunks[..n]);
      forall i, j | 0 <= i < j < |chunks| ensures chunks[i].end < chunks[j].start {
        if j < n {
          assert chunks[..n][i].end < chunks[..n][j].start;
        } else {
          assert chunks[n - 1].end < chunks[n].start;
          assert InQuarter(chunks[n - 1]);
          assert i < n - 1 ==> chunks[..n][i].end < chunks[..n][n - 1].start;
        }
      }
    }
  }
}
