/**
 Session names and seconds are two ways of writing the same: the client prints a name for each time, and the server
 decodes it to that time.
 */
module Calendar {
  import opened Text
  import opened Timestamps

  /** printf("%0*d"), for numbers that fit. */
  function Padded(n: nat, width: nat): (s: string)
    ensures |s| == width && AllDigits(s)
  {
    if width == 0 then "" else Padded(n / 10, width - 1) + [DigitChar(n % 10)]
  }

  lemma {:induction false} PaddedValue(n: nat, width: nat)
    requires n < Power10(width)
    ensures Value(Padded(n, width)) == n
    decreases width
  {
    if width > 0 {
      PaddedValue(n / 10, width - 1);
      assert Padded(n, width)[..width - 1] == Padded(n / 10, width - 1);
    }
  }

  /** strftime("%Y%m%d-%H%M%S") */
  function StampOf(d: Date): string {
    Padded(d.year, 4) + Padded(d.month, 2) + Padded(d.day, 2) + "-"
    + Padded(d.hour, 2) + Padded(d.minute, 2) + Padded(d.second, 2)
  }

  lemma StampParts(d: Date)
    ensures IsStampShaped(StampOf(d))
    ensures var s := StampOf(d);
            && s[0..4] == Padded(d.year, 4) && s[4..6] == Padded(d.month, 2) && s[6..8] == Padded(d.day, 2)
            && s[9..11] == Padded(d.hour, 2) && s[11..13] == Padded(d.minute, 2) && s[13..15] == Padded(d.second, 2)
  {
    hide Padded;
  }

  lemma MonthIsShort(y: nat, m: nat)
    ensures DaysInMonth(y, m) <= 31
  {
  }

  /** The name that is printed for a date is decoded to the time of that date. */
  lemma NameOfDate(d: Date)
    requires IsDate(d) && d.year < 10000
    ensures IsStamp(StampOf(d)) && DateOf(StampOf(d)) == d && StringToTime(StampOf(d)) == Time(d)
  {
    hide Padded, StampOf, Time, DaysInMonth;
    StampParts(d);
    MonthIsShort(d.year, d.month);
    PaddedValue(d.year, 4);
    PaddedValue(d.month, 2);
    PaddedValue(d.day, 2);
    PaddedValue(d.hour, 2);
    PaddedValue(d.minute, 2);
    PaddedValue(d.second, 2);
  }

  lemma {:induction false} YearOfDay(day: nat, last: nat) returns (y: nat)
    requires 1970 <= last && day < YearStart(last)
    ensures 1970 <= y < last && YearStart(y) <= day < YearStart(y) + YearLength(y)
    decreases last
  {
    YearStep(last - 1);
    if YearStart(last - 1) <= day {
      y := last - 1;
    } else {
      y := YearOfDay(day, last - 1);
    }
  }

  lemma {:induction false} MonthOfDay(y: nat, k: nat, last: nat) returns (m: nat)
    requires last <= 13 && k < DaysBefore(y, last)
    ensures 1 <= m < last && DaysBefore(y, m) <= k < DaysBefore(y, m) + DaysInMonth(y, m)
    decreases last
  {
    if DaysBefore(y, last - 1) <= k {
      m := last - 1;
    } else {
      m := MonthOfDay(y, k, last - 1);
    }
  }

  lemma DateOfTime(t: nat) returns (d: Date)
    requires t < YearStart(10000) * 86400
    ensures IsDate(d) && d.year < 10000 && Time(d) == t
  {
    hide DaysInMonth, DaysBefore, YearStart;
    var day, clock := t / 86400, t % 86400;
    var y := YearOfDay(day, 10000);
    YearHasAllDays(y);
    var k := day - YearStart(y);
    var m := MonthOfDay(y, k, 13);
    d := Date(y, m, k - DaysBefore(y, m) + 1, clock / 3600, clock % 3600 / 60, clock % 60);
    ClockOf(clock);
    TimeIsDayAndClock(d);
  }

  lemma ClockOf(clock: nat)
    requires clock < 86400
    ensures clock / 3600 < 24 && clock % 60 + clock % 3600 / 60 * 60 + clock / 3600 * 3600 == clock
  {
  }

  /** Each second from the Epoch to the end of the year 9999 is the time of exactly one name. */
  lemma EverySecondHasItsName(t: nat) returns (name: string)
    requires t < YearStart(10000) * 86400
    ensures IsStamp(name) && StringToTime(name) == t
    ensures forall other :: StringToTime(other) == t ==> other == name
  {
    hide Time, IsDate, DateOf, StampOf, NameLess;
    var d := DateOfTime(t);
    NameOfDate(d);
    name := StampOf(d);
    forall other | StringToTime(other) == t ensures other == name {
      TimeOrderIsNameOrder(name, other);
    }
  }
}
