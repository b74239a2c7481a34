/** Dates kept as whole day numbers (day 0 is 1 January 1970) or as millisecond
  * timestamps, with the year and month that `getFullYear` and `getMonth` read off them.
  * Time zones and daylight saving are not modelled: every day is 86400000 ms long. */
module Calendar {
  const MsPerDay := 86400000

  /** A calendar month; `month` runs from 1 (January) to 12. */
  datatype YearMonth = YearMonth(year: int, month: int)

  /** The proleptic Gregorian year and month of a day number, by the usual
    * days-to-civil conversion over 400-year eras. */
  function MonthOf(day: int): (r: YearMonth)
    ensures 1 <= r.month <= 12
  {
    var z := day + 719468;
    var era := z / 146097;
    var doe := z - era * 146097;
    var yoe := (doe - doe / 1460 + doe / 36524 - doe / 146096) / 365;
    DayOfYearBounds(doe);
    var doy := doe - (365 * yoe + yoe / 4 - yoe / 100);
    var mp := (5 * doy + 2) / 153;
    var m := if mp < 10 then mp + 3 else mp - 9;
    YearMonth(yoe + era * 400 + (if m <= 2 then 1 else 0), m)
  }

  /** Within a 400-year era the day of the (March-based) year runs from 0 to 365. */
  lemma DayOfYearBounds(doe: int)
    requires 0 <= doe < 146097
    ensures var yoe := (doe - doe / 1460 + doe / 36524 - doe / 146096) / 365;
      0 <= doe - (365 * yoe + yoe / 4 - yoe / 100) <= 365
  {
    if doe < 146096 {
      // doe is century b, 4-year cycle k, day d2 of the cycle
      var b := doe / 36524;
      var k := (doe % 36524) / 1461;
      var d2 := (doe % 36524) % 1461;
      assert doe == 36524 * b + 1461 * k + d2 && 0 <= b <= 3 && 1461 * k + d2 < 36524;
      var yoe := YearOfEra(doe, b, k, d2);
      assert k < 25;
      YearParts(b, k, yoe - 100 * b - 4 * k);
    }
  }

  /** The year of the era: 100 per century, 4 per cycle, and at most 3 within the cycle. */
  lemma YearOfEra(doe: int, b: int, k: int, d2: int) returns (yoe: int)
    requires 0 <= b <= 3 && 0 <= k && 0 <= d2 <= 1460 && 1461 * k + d2 < 36524
    requires doe == 36524 * b + 1461 * k + d2
    ensures yoe == (doe - doe / 1460 + doe / 36524 - doe / 146096) / 365
    ensures 0 <= yoe - 100 * b - 4 * k <= 3
    ensures 0 <= d2 - 365 * (yoe - 100 * b - 4 * k) <= 365
  {
    var e := if 24 * b + k + d2 >= 1460 then 1 else 0;
    assert doe / 1460 == 25 * b + k + e by {
      assert 1460 * (25 * b + k + e) <= doe < 1460 * (25 * b + k + e) + 1460;
    }
    assert doe / 36524 == b by {
      assert 36524 * b <= doe < 36524 * b + 36524;
    }
    assert doe / 146096 == 0;
    var j := if d2 - e >= 1095 then 3 else if d2 - e >= 730 then 2 else if d2 - e >= 365 then 1 else 0;
    yoe := 100 * b + 4 * k + j;
    assert doe - doe / 1460 + doe / 36524 - doe / 146096 == 365 * yoe + (d2 - e - 365 * j);
  }

  lemma YearParts(b: int, k: int, j: int)
    requires 0 <= b <= 3 && 0 <= k < 25 && 0 <= j <= 3
    ensures (100 * b + 4 * k + j) / 4 == 25 * b + k && (100 * b + 4 * k + j) / 100 == b
  {
  }

  /** The day a millisecond timestamp falls on (flooring, also before 1970). */
  function DayOf(ms: int): int {
    ms / MsPerDay
  }

  /** Two new years' days a year apart: the epoch and day 365. */
  lemma NewYears()
    ensures MonthOf(0) == YearMonth(1970, 1)
    ensures MonthOf(365) == YearMonth(1971, 1)
  {
    assert 719468 / 146097 == 4 && 719833 / 146097 == 4;
    var doe, doe' := 719468 - 4 * 146097, 719833 - 4 * 146097;
    assert doe == 135080 && doe' == 135445;
    assert doe / 1460 == 92 && doe / 36524 == 3 && doe / 146096 == 0;
    assert doe' / 1460 == 92 && doe' / 36524 == 3 && doe' / 146096 == 0;
    assert (doe - 92 + 3) / 365 == 369 && (doe' - 92 + 3) / 365 == 370;
    assert doe - (365 * 369 + 369 / 4 - 369 / 100) == 306;
    assert doe' - (365 * 370 + 370 / 4 - 370 / 100) == 306;
    assert (5 * 306 + 2) / 153 == 10;
  }
}
