/**
 * Enumeration of the business days of a date range
 * (demos/rates_api/business_days.py).
 *
 * A calendar date is its proleptic Gregorian ordinal, as `date.toordinal()`
 * gives it: 0001-01-01 is day 1 and a Monday. Adding `timedelta(k)` to a date
 * adds k to its ordinal, and `(end - start).days` is the difference of the
 * ordinals. The holiday calendar is a set of ordinals supplied by the caller.
 */
module BusinessDays {

  /** A calendar date, as its day ordinal. */
  type Date = int

  /** `date.weekday()`: 0 for Monday up to 6 for Sunday. */
  function Weekday(d: Date): (w: int)
    ensures 0 <= w < 7
  {
    (d + 6) % 7
  }

  /** A day is kept when it falls on Monday to Friday and is not a holiday. */
  predicate IsBusinessDay(d: Date, holidays: set<Date>)
  {
    Weekday(d) < 5 && d !in holidays
  }

  /**
   * The business days from `start` to `end`, both included, in calendar
   * order: the reference definition the loop is proved against.
   */
  function BusinessDaysIn(start: Date, end: Date, holidays: set<Date>): seq<Date>
    decreases end - start
  {
    if end < start then []
    else BusinessDaysIn(start, end - 1, holidays) + (if IsBusinessDay(end, holidays) then [end] else [])
  }

  predicate StrictlyIncreasing(s: seq<Date>)
  {
    forall i, j :: 0 <= i < j < |s| ==> s[i] < s[j]
  }

  /**
   * `business_days(start, end)`: walks every day offset 0 .. (end - start)
   * and appends the days that pass the weekday and holiday filter.
   */
  method ListBusinessDays(start: Date, end: Date, holidays: set<Date>) returns (days: seq<Date>)
    ensures days == BusinessDaysIn(start, end, holidays)
  {
    var dateDiff := end - start;
    days := [];
    var day := 0;
    while day < dateDiff + 1
      invariant 0 <= day && (day <= dateDiff + 1 || day == 0)
      invariant days == BusinessDaysIn(start, start + day - 1, holidays)
    {
      var theDate := start + day;
      if Weekday(theDate) < 5 && theDate !in holidays {
        days := days + [theDate];
      }
      day := day + 1;
    }
  }

  /** Soundness and completeness: a date is listed exactly when it lies in
      the range and is a business day. */
  lemma {:induction false} MemberIff(start: Date, end: Date, holidays: set<Date>, d: Date)
    ensures d in BusinessDaysIn(start, end, holidays) <==> start <= d <= end && IsBusinessDay(d, holidays)
    decreases end - start
  {
    if end >= start {
      MemberIff(start, end - 1, holidays, d);
    }
  }

  /** Every listed date lies in the range and is a weekday that is not a holiday. */
  lemma Sound(start: Date, end: Date, holidays: set<Date>)
    ensures forall i :: 0 <= i < |BusinessDaysIn(start, end, holidays)| ==>
      var d := BusinessDaysIn(start, end, holidays)[i];
      start <= d <= end && Weekday(d) < 5 && d !in holidays
  {
    forall i | 0 <= i < |BusinessDaysIn(start, end, holidays)|
      ensures var d := BusinessDaysIn(start, end, holidays)[i];
        start <= d <= end && Weekday(d) < 5 && d !in holidays
    {
      MemberIff(start, end, holidays, BusinessDaysIn(start, end, holidays)[i]);
    }
  }

  /** Every weekday of the range that is not a holiday is listed. */
  lemma Complete(start: Date, end: Date, holidays: set<Date>, d: Date)
    requires start <= d <= end && Weekday(d) < 5 && d !in holidays
    ensures d in BusinessDaysIn(start, end, holidays)
  {
    MemberIff(start, end, holidays, d);
  }

  /** The dates come out in strictly increasing order, hence without repeats. */
  lemma {:induction false} Increasing(start: Date, end: Date, holidays: set<Date>)
    ensures StrictlyIncreasing(BusinessDaysIn(start, end, holidays))
    decreases end - start
  {
    if end >= start {
      var prefix := BusinessDaysIn(start, end - 1, holidays);
      Increasing(start, end - 1, holidays);
      forall i | 0 <= i < |prefix| ensures prefix[i] < end {
        MemberIff(start, end - 1, holidays, prefix[i]);
      }
    }
  }

  /** A range whose end precedes its start has no business days. */
  lemma EmptyWhenReversed(start: Date, end: Date, holidays: set<Date>)
    requires end < start
    ensures BusinessDaysIn(start, end, holidays) == []
  {
  }

  /** At most one date per day of the range: (end - start).days + 1 at most. */
  lemma {:induction false} LengthBound(start: Date, end: Date, holidays: set<Date>)
    ensures |BusinessDaysIn(start, end, holidays)| <= if end < start then 0 else end - start + 1
    decreases end - start
  {
    if end >= start {
      LengthBound(start, end - 1, holidays);
    }
  }

  /** The module's own demonstration: with no holidays, 2024-05-01 (a
      Wednesday, ordinal 739007) to 2024-05-06 (a Monday, 739012) gives
      May 1, 2, 3 and 6. */
  lemma MayFirstWeek()
    ensures BusinessDaysIn(739007, 739012, {}) == [739007, 739008, 739009, 739012]
  {
  }
}
