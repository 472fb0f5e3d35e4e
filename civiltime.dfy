/**
 * The UTC calendar year of a Unix timestamp: `Controler.UnixTimeStampToDateTime(ts).Year`, which
 * adds `ts` seconds to 1970-01-01T00:00:00Z (a UTC instant, so `ToUniversalTime` changes nothing).
 * The year is found by walking forward one Gregorian year at a time.
 */
module CivilTime {

  const SecondsPerDay: nat := 86400
  const EpochYear: int := 1970

  predicate IsLeapYear(y: int) {
    y % 4 == 0 && (y % 100 != 0 || y % 400 == 0)
  }

  function DaysInYear(y: int): (d: nat)
    ensures d == 365 || d == 366
  {
    if IsLeapYear(y) then 366 else 365
  }

  function SecondsInYear(y: int): (s: nat)
    ensures s > 0
  {
    DaysInYear(y) * SecondsPerDay
  }

  /** Seconds from the epoch to 00:00:00 UTC on January 1st of year `y`. */
  function YearStart(y: int): nat
    requires y >= EpochYear
    decreases y - EpochYear
  {
    if y == EpochYear then 0 else YearStart(y - 1) + SecondsInYear(y - 1)
  }

  /** The year that holds the instant `t` seconds after the start of year `y`. */
  function YearFrom(y: int, t: nat): (r: int)
    requires y >= EpochYear
    ensures r >= y
    decreases t
  {
    if t < SecondsInYear(y) then y else YearFrom(y + 1, t - SecondsInYear(y))
  }

  /** `UnixTimeStampToDateTime(ts).Year`. */
  function UtcYear(ts: nat): (y: int)
    ensures y >= EpochYear
  {
    YearFrom(EpochYear, ts)
  }

  lemma {:induction false} YearFromBounds(y: int, t: nat)
    requires y >= EpochYear
    ensures YearStart(YearFrom(y, t)) <= YearStart(y) + t < YearStart(YearFrom(y, t) + 1)
    decreases t
  {
    if t >= SecondsInYear(y) {
      YearFromBounds(y + 1, t - SecondsInYear(y));
    }
  }

  /** The year of a timestamp is the one whose first second is the last year start at or before it. */
  lemma UtcYearBounds(ts: nat)
    ensures YearStart(UtcYear(ts)) <= ts < YearStart(UtcYear(ts) + 1)
  {
    YearFromBounds(EpochYear, ts);
  }

  lemma {:induction false} YearStartStrictlyIncreasing(y1: int, y2: int)
    requires EpochYear <= y1 < y2
    ensures YearStart(y1) < YearStart(y2)
    decreases y2 - y1
  {
    if y1 + 1 < y2 {
      YearStartStrictlyIncreasing(y1, y2 - 1);
    }
  }

  /** A timestamp between the starts of `y` and `y + 1` lies in year `y`. */
  lemma UtcYearIs(ts: nat, y: int)
    requires y >= EpochYear
    requires YearStart(y) <= ts < YearStart(y + 1)
    ensures UtcYear(ts) == y
  {
    var r := UtcYear(ts);
    UtcYearBounds(ts);
    if r + 1 < y {
      YearStartStrictlyIncreasing(r + 1, y);
    } else if r > y + 1 {
      YearStartStrictlyIncreasing(y + 1, r);
    }
  }

  /** Later timestamps never fall in earlier years. */
  lemma UtcYearMonotonic(t1: nat, t2: nat)
    requires t1 <= t2
    ensures UtcYear(t1) <= UtcYear(t2)
  {
    UtcYearBounds(t1);
    UtcYearBounds(t2);
    if UtcYear(t1) > UtcYear(t2) {
      YearStartStrictlyIncreasing(UtcYear(t2), UtcYear(t1));
      if UtcYear(t2) + 1 < UtcYear(t1) {
        YearStartStrictlyIncreasing(UtcYear(t2) + 1, UtcYear(t1));
      }
    }
  }

  /**
   * An example of the year split: 23:00 on 31 December 1970 and 01:00 on 1 January 1971 (UTC)
   * fall in consecutive years.
   */
  lemma NewYearExample()
    ensures UtcYear(31532400) == 1970 && UtcYear(31539600) == 1971
  {
    assert YearStart(1971) == 31536000;
    assert YearStart(1972) == 63072000;
    UtcYearIs(31532400, 1970);
    UtcYearIs(31539600, 1971);
  }
}
