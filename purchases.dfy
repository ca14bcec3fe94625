/** The purchase record the scoring engine works on, and the calendar
    arithmetic on its timestamps.

    A timestamp is a whole number of minutes since an epoch. The source
    subtracts pandas timestamps and reads `.days` of the difference, and
    `timedelta.days` rounds toward negative infinity; `.date()` is the
    calendar day and `.time()` the time of day. */
module Purchases {
  import opened Frames

  const MinutesPerDay: int := 1440

  type Timestamp = int

  /** `.days` of a time difference of `delta` minutes: the floor of
      delta / 1440, also for negative differences. */
  function Days(delta: int): (d: int)
    ensures MinutesPerDay * d <= delta < MinutesPerDay * (d + 1)
  {
    delta / MinutesPerDay
  }

  /** `(later - earlier).days`. */
  function DaysBetween(earlier: Timestamp, later: Timestamp): int
  {
    Days(later - earlier)
  }

  /** `.date()`: the number of the calendar day a timestamp falls on. */
  function CalendarDay(t: Timestamp): int
  {
    t / MinutesPerDay
  }

  /** `.time()` as minutes after midnight. */
  function MinuteOfDay(t: Timestamp): (m: int)
    ensures 0 <= m < MinutesPerDay
    ensures t == CalendarDay(t) * MinutesPerDay + m
  {
    t % MinutesPerDay
  }

  /** Day and time of day are the unique quotient and remainder. */
  lemma DayAndMinuteUnique(t: Timestamp, day: int, minute: int)
    requires 0 <= minute < MinutesPerDay && t == day * MinutesPerDay + minute
    ensures CalendarDay(t) == day && MinuteOfDay(t) == minute
  {
  }

  /** `.days` of a difference is non-negative exactly when the difference is,
      and at most 3 exactly when the difference is under four whole days. */
  lemma DaysSign(delta: int)
    ensures Days(delta) >= 0 <==> delta >= 0
    ensures Days(delta) <= 3 <==> delta < 4 * MinutesPerDay
  {
  }

  /** One row of the purchase table: `날짜` (date), `카테고리` (category),
      `금액` (amount), `필요도` (necessity) and `사용빈도` (usage frequency). */
  datatype Purchase = Purchase(
    date: Timestamp,
    category: string,
    amount: real,
    necessity: real,
    usage: real)

  /** A row of the processed table: its pandas index label, the purchase, the
      product name `상품명` (any cell) and `경과일수` (elapsed days). */
  datatype Row = Row(indexLabel: int, purchase: Purchase, product: Cell, elapsedDays: int)

  function PurchasesOf(rows: seq<Row>): (ps: seq<Purchase>)
    ensures |ps| == |rows|
    ensures forall i :: 0 <= i < |rows| ==> ps[i] == rows[i].purchase
  {
    if |rows| == 0 then [] else [rows[0].purchase] + PurchasesOf(rows[1..])
  }
}
