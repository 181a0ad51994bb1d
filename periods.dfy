/**
 * `calculatePeriodsFromStartDate`: how many payment periods have passed
 * between the loan's start date and today. Daily, weekly and biweekly loans
 * count whole days, weeks or fortnights of elapsed time in either direction;
 * monthly and yearly loans count calendar months or years, which is negative
 * for a start date in the future. The two dates are parameters: the clock and
 * date parsing are outside the model.
 */
module Periods {

  import opened Wrappers
  import opened Loan

  /** A point in time as the calculator reads it: `getFullYear()`, `getMonth()` (0 to 11) and milliseconds since the epoch. */
  datatype Instant = Instant(year: int, month: int, epochMs: int)

  predicate ValidMonth(d: Instant)
  {
    0 <= d.month < 12
  }

  const MsPerDay: int := 86400000

  /** The length of one period, in days, for the frequencies counted in elapsed time. */
  function BucketDays(f: Frequency): (days: int)
    requires f == Daily || f == Weekly || f == Biweekly
    ensures days == 1 || days == 7 || days == 14
  {
    match f
    case Daily => 1
    case Weekly => 7
    case Biweekly => 14
  }

  /** Milliseconds between the two instants, whichever comes first. */
  function Elapsed(start: Instant, today: Instant): (e: nat)
    ensures e == today.epochMs - start.epochMs || e == start.epochMs - today.epochMs
  {
    if today.epochMs >= start.epochMs then today.epochMs - start.epochMs else start.epochMs - today.epochMs
  }

  /** Months since year 0: the calendar position months are counted from. */
  function MonthIndex(d: Instant): int
  {
    d.year * 12 + d.month
  }

  /** The number of whole periods of `width` that fit in `elapsed`. */
  function WholePeriods(elapsed: nat, width: int): (k: nat)
    requires width > 0
    ensures k * width <= elapsed < (k + 1) * width
  {
    FloorDivision(elapsed, width);
    elapsed / width
  }

  /** The period count the calculator writes into the form. */
  function PeriodCount(start: Instant, today: Instant, f: Frequency): int
  {
    match f
    case Daily => WholePeriods(Elapsed(start, today), MsPerDay)
    case Weekly => WholePeriods(Elapsed(start, today), MsPerDay * 7)
    case Biweekly => WholePeriods(Elapsed(start, today), MsPerDay * 14)
    case Monthly => MonthIndex(today) - MonthIndex(start)
    case Yearly => today.year - start.year
  }

  /**
   * The switch of `calculatePeriodsFromStartDate`. Without a start date
   * nothing is computed; otherwise the count is whole elapsed days, weeks
   * or fortnights, or the difference in calendar months or years.
   */
  method PeriodsFromStartDate(start: Option<Instant>, today: Instant, f: Frequency) returns (periods: Option<int>)
    ensures periods.Some? <==> start.Some?
    ensures start.Some? ==> periods.value == PeriodCount(start.value, today, f)
    ensures start.Some? && (f == Daily || f == Weekly || f == Biweekly) ==>
              var w := MsPerDay * BucketDays(f);
              0 <= periods.value && periods.value * w <= Elapsed(start.value, today) < (periods.value + 1) * w
    ensures start.Some? && f == Monthly ==>
              periods.value == (today.year - start.value.year) * 12 + today.month - start.value.month
    ensures start.Some? && f == Yearly ==> periods.value == today.year - start.value.year
  {
    if start.None? {
      return None;
    }
    var startDate := start.value;
    var diffTime := if today.epochMs >= startDate.epochMs then today.epochMs - startDate.epochMs
                    else startDate.epochMs - today.epochMs;
    var count := 0;
    match f {
      case Daily =>
        count := diffTime / (1000 * 60 * 60 * 24);
      case Weekly =>
        count := diffTime / (1000 * 60 * 60 * 24 * 7);
      case Biweekly =>
        count := diffTime / (1000 * 60 * 60 * 24 * 14);
      case Monthly =>
        count := (today.year - startDate.year) * 12 + today.month - startDate.month;
      case Yearly =>
        count := today.year - startDate.year;
    }
    periods := Some(count);
  }

  /** Integer division of a non-negative number rounds down. */
  lemma FloorDivision(e: nat, w: int)
    requires w > 0
    ensures 0 <= e / w
    ensures (e / w) * w <= e < (e / w + 1) * w
  {
    assert e == (e / w) * w + e % w;
  }

  /** Rounding down is unique: the only `k` with `k·w ≤ e < (k+1)·w` is `e / w`. */
  lemma FloorUnique(e: nat, w: int, k: int)
    requires w > 0 && k * w <= e < (k + 1) * w
    ensures e / w == k
  {
    var q := e / w;
    FloorDivision(e, w);
    assert (q - k - 1) * w == q * w - (k + 1) * w;
    assert (k - q - 1) * w == k * w - (q + 1) * w;
    NegativeFactor(q - k - 1, w);
    NegativeFactor(k - q - 1, w);
  }

  /** A product with a positive factor is negative only if the other factor is. */
  lemma NegativeFactor(a: int, w: int)
    requires w > 0 && a * w < 0
    ensures a < 0
  {
    assert a >= 0 ==> a * w >= 0;
  }

  /** Counting in units of `d·m` is counting in units of `d` and then in groups of `m`. */
  lemma NestedFloor(e: nat, d: int, m: int)
    requires d > 0 && m > 0
    ensures e / (d * m) == (e / d) / m
  {
    var q := e / d;
    var k := q / m;
    FloorDivision(e, d);
    FloorDivision(q, m);
    MultiplyMonotone(k * m, q, d);
    MultiplyMonotone(q + 1, (k + 1) * m, d);
    assert k * (d * m) == (k * m) * d;
    assert (k + 1) * (d * m) == ((k + 1) * m) * d;
    FloorUnique(e, d * m, k);
  }

  /** Multiplying by a non-negative number keeps the order. */
  lemma MultiplyMonotone(a: int, b: int, c: int)
    requires a <= b && c >= 0
    ensures a * c <= b * c
  {
    assert (b - a) * c >= 0;
    assert (b - a) * c == b * c - a * c;
  }

  /** Whole weeks are whole days divided by seven; whole fortnights are whole weeks halved. */
  lemma WeeksFromDays(start: Instant, today: Instant)
    ensures PeriodCount(start, today, Weekly) == PeriodCount(start, today, Daily) / 7
    ensures PeriodCount(start, today, Biweekly) == PeriodCount(start, today, Weekly) / 2
  {
    var e := Elapsed(start, today);
    NestedFloor(e, MsPerDay, 7);
    NestedFloor(e, MsPerDay * 7, 2);
    assert MsPerDay * 7 * 2 == MsPerDay * 14;
  }

  /**
   * Swapping the two dates: the elapsed-time counts do not change, the
   * calendar counts change sign, so a start date in the future gives a
   * negative month count.
   */
  lemma SwappedDates(start: Instant, today: Instant, f: Frequency)
    ensures f == Daily || f == Weekly || f == Biweekly ==>
              PeriodCount(start, today, f) == PeriodCount(today, start, f) >= 0
    ensures f == Monthly || f == Yearly ==> PeriodCount(start, today, f) == -PeriodCount(today, start, f)
    ensures PeriodCount(start, today, Monthly) < 0 <==> MonthIndex(start) > MonthIndex(today)
  {
    assert Elapsed(start, today) == Elapsed(today, start);
  }

  /** With months numbered 0 to 11, the month count is twelve times the year count, give or take eleven. */
  lemma MonthsWithinYears(start: Instant, today: Instant)
    requires ValidMonth(start) && ValidMonth(today)
    ensures 12 * PeriodCount(start, today, Yearly) - 11 <= PeriodCount(start, today, Monthly)
            <= 12 * PeriodCount(start, today, Yearly) + 11
    ensures PeriodCount(start, today, Monthly) >= 0
            <==> (PeriodCount(start, today, Yearly) > 0 || (today.year == start.year && today.month >= start.month))
  {
    var years := today.year - start.year;
    assert MonthIndex(today) - MonthIndex(start) == 12 * years + (today.month - start.month);
  }
}
