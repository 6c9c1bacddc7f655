/**
 Directory names are start times, printed as %Y%m%d-%H%M%S. The server picks directories by decoded time; here is that
 this is the same as picking by name.
 */
module Timestamps {
  import opened Text

  datatype Date = Date(year: nat, month: nat, day: nat, hour: nat, minute: nat, second: nat)

  predicate IsLeap(y: nat) {
    y % 4 == 0 && (y % 100 != 0 || y % 400 == 0)
  }

  function DaysInMonth(y: nat, m: nat): nat {
    if m == 2 then (if IsLeap(y) then 29 else 28)
    else if m == 4 || m == 6 || m == 9 || m == 11 then 30
    else 31
  }

  /** The days of year y before the first of month m. */
  function DaysBefore(y: nat, m: nat): nat {
    if m <= 1 then 0 else DaysBefore(y, m - 1) + DaysInMonth(y, m - 1)
  }

  predicate IsDate(d: Date) {
    && 1970 <= d.year && 1 <= d.month <= 12 && 1 <= d.day <= DaysInMonth(d.year, d.month)
    && d.hour < 24 && d.minute < 60 && d.second < 60
  }

  function DayOfYear(d: Date): nat
    requires IsDate(d)
  {
    DaysBefore(d.year, d.month) + d.day - 1
  }

  /** Seconds since the Epoch: the formula of section 4.16 of POSIX.1-2017, Base Definitions. */
  function Time(d: Date): int
    requires IsDate(d)
  {
    var y := d.year - 1900;
    d.second + d.minute * 60 + d.hour * 3600 + DayOfYear(d) * 86400
    + (y - 70) * 31536000 + ((y - 69) / 4) * 86400 - ((y - 1) / 100) * 86400 + ((y + 299) / 400) * 86400
  }

  predicate IsStampShaped(s: string) {
    |s| == 15 && s[8] == '-' && AllDigits(s[0..4]) && AllDigits(s[4..6]) && AllDigits(s[6..8])
    && AllDigits(s[9..11]) && AllDigits(s[11..13]) && AllDigits(s[13..15])
  }

  function DateOf(s: string): Date
    requires IsStampShaped(s)
  {
    Date(Value(s[0..4]), Value(s[4..6]), Value(s[6..8]), Value(s[9..11]), Value(s[11..13]), Value(s[13..15]))
  }

  /** The names that START gives to directories. */
  predicate IsStamp(s: string) {
    IsStampShaped(s) && IsDate(DateOf(s))
  }

  /** -1 stands for a name that is not a date; the code, too, takes it for a very early one. */
  function StringToTime(s: string): int {
    if IsStamp(s) then Time(DateOf(s)) else -1
  }

  // ---------- later dates have greater times ----------

  function YearLength(y: nat): nat {
    if IsLeap(y) then 366 else 365
  }

  /** The days from the Epoch to the first of January. */
  function YearStart(year: nat): int
    requires 1970 <= year
  {
    (year - 1970) * 365 + (year - 1969) / 4 - (year - 1901) / 100 + (year - 1601) / 400
  }

  lemma FourthYears(y: nat)
    requires 1970 <= y
    ensures (y - 1968) / 4 == (y - 1969) / 4 + (if y % 4 == 0 then 1 else 0)
  {
  }

  lemma Centuries(y: nat)
    requires 1970 <= y
    ensures (y - 1900) / 100 == (y - 1901) / 100 + (if y % 100 == 0 then 1 else 0)
  {
  }

  lemma FourCenturies(y: nat)
    requires 1970 <= y
    ensures (y - 1600) / 400 == (y - 1601) / 400 + (if y % 400 == 0 then 1 else 0)
  {
  }

  lemma HundredsAreFours(q: nat)
    ensures (100 * q) % 4 == 0
  {
  }

  lemma FourHundredsAreHundreds(q: nat)
    ensures (400 * q) % 100 == 0
  {
  }

  lemma LeapYears(y: nat)
    ensures y % 100 == 0 ==> y % 4 == 0
    ensures y % 400 == 0 ==> y % 100 == 0
  {
    HundredsAreFours(y / 100);
    FourHundredsAreHundreds(y / 400);
  }

  lemma YearStep(y: nat)
    requires 1970 <= y
    ensures YearStart(y + 1) == YearStart(y) + YearLength(y)
  {
    FourthYears(y);
    Centuries(y);
    FourCenturies(y);
    LeapYears(y);
  }

  lemma {:induction false} YearsGrow(a: nat, b: nat)
    requires 1970 <= a < b
    ensures YearStart(a) + YearLength(a) <= YearStart(b)
  {
    YearStep(b - 1);
    if a < b - 1 {
      YearsGrow(a, b - 1);
    } else {
    }
  }

  lemma {:induction false} MonthsGrow(y: nat, a: nat, b: nat)
    requires 1 <= a < b
    ensures DaysBefore(y, a) + DaysInMonth(y, a) <= DaysBefore(y, b)
  {
    if a < b - 1 {
      MonthsGrow(y, a, b - 1);
    }
  }

  lemma YearHasAllDays(y: nat)
    ensures DaysBefore(y, 13) == YearLength(y)
  {
    assert DaysBefore(y, 2) == DaysInMonth(y, 1);
    assert DaysBefore(y, 3) == DaysInMonth(y, 1) + DaysInMonth(y, 2);
    assert DaysBefore(y, 5) == DaysBefore(y, 3) + 61;
    assert DaysBefore(y, 7) == DaysBefore(y, 5) + 61;
    assert DaysBefore(y, 9) == DaysBefore(y, 7) + 62;
    assert DaysBefore(y, 11) == DaysBefore(y, 9) + 61;
    assert DaysBefore(y, 13) == DaysBefore(y, 11) + 61;
  }

  predicate DateLess(a: Date, b: Date) {
    || a.year < b.year
    || (a.year == b.year &&
        (|| a.month < b.month
         || (a.month == b.month &&
             (|| a.day < b.day
              || (a.day == b.day &&
                  (|| a.hour < b.hour
                   || (a.hour == b.hour &&
                       (|| a.minute < b.minute
                        || (a.minute == b.minute && a.second < b.second)))))))))
  }

  function Day(d: Date): int
    requires IsDate(d)
  {
    YearStart(d.year) + DayOfYear(d)
  }

  function Clock(d: Date): int {
    d.second + d.minute * 60 + d.hour * 3600
  }

  lemma TimeIsDayAndClock(d: Date)
    requires IsDate(d)
    ensures Time(d) == Day(d) * 86400 + Clock(d) && 0 <= Clock(d) < 86400
  {
  }

  lemma DaysGrow(a: Date, b: Date)
    requires IsDate(a) && IsDate(b)
    requires a.year < b.year || (a.year == b.year && (a.month < b.month || (a.month == b.month && a.day < b.day)))
    ensures Day(a) < Day(b)
  {
    if a.year < b.year {
      YearsGrow(a.year, b.year);
      YearHasAllDays(a.year);
      MonthsGrow(a.year, a.month, 13);
    } else if a.month < b.month {
      MonthsGrow(a.year, a.month, b.month);
    }
  }

  /** Time is strictly increasing, through leap years and the ends of months and years. */
  lemma TimeGrows(a: Date, b: Date)
    requires IsDate(a) && IsDate(b) && DateLess(a, b)
    ensures Time(a) < Time(b)
  {
    TimeIsDayAndClock(a);
    TimeIsDayAndClock(b);
    if a.year == b.year && a.month == b.month && a.day == b.day {
      assert Clock(a) < Clock(b);
    } else {
      DaysGrow(a, b);
    }
  }

  lemma DatesCompare(a: Date, b: Date)
    ensures a == b || DateLess(a, b) || DateLess(b, a)
  {
  }

  lemma TimeOrderIsDateOrder(a: Date, b: Date)
    requires IsDate(a) && IsDate(b)
    ensures Time(a) < Time(b) <==> DateLess(a, b)
    ensures Time(a) == Time(b) <==> a == b
  {
    DatesCompare(a, b);
    if DateLess(a, b) {
      TimeGrows(a, b);
    } else if DateLess(b, a) {
      TimeGrows(b, a);
    }
  }

  // ---------- the calendar in closed form ----------

  /** The days of year y before the first of month m, without a table of months. */
  function DaysBeforeMonth(y: nat, m: nat): int {
    (367 * m - 362) / 12 - (if m <= 2 then 0 else if y % 4 == 0 && (y % 100 != 0 || y % 400 == 0) then 1 else 2)
  }

  lemma MonthsInClosedForm(y: nat, m: nat)
    requires 1 <= m <= 13
    ensures DaysBefore(y, m) == DaysBeforeMonth(y, m)
  {
    if m > 1 {
      MonthsInClosedForm(y, m - 1);
    }
  }

  /** -1 is the time of no name. */
  lemma NoTimeIff(s: string)
    ensures StringToTime(s) == -1 <==> !IsStamp(s)
  {
    hide IsStamp, Time, NameLess;
    if IsStamp(s) {
      TimeOrderIsNameOrder(s, s);
    }
  }

  /** The names that are dates: fifteen characters, whose numbers are a month, a day that this month has, and a time of
      the day. */
  lemma StampIff(s: string)
    ensures IsStamp(s) <==>
              && IsStampShaped(s)
              && var d := DateOf(s);
                 && 1970 <= d.year && 1 <= d.month <= 12
                 && 1 <= d.day <= DaysBeforeMonth(d.year, d.month + 1) - DaysBeforeMonth(d.year, d.month)
                 && d.hour <= 23 && d.minute <= 59 && d.second <= 59
  {
    hide DaysBeforeMonth, DaysInMonth;
    if IsStampShaped(s) && 1 <= DateOf(s).month <= 12 {
      var d := DateOf(s);
      MonthsInClosedForm(d.year, d.month);
      MonthsInClosedForm(d.year, d.month + 1);
    }
  }

  // ---------- names are ordered like dates ----------

  /** strcmp(a, b) < 0, for names of the same length. */
  predicate NameLess(a: string, b: string)
    requires |a| == |b|
  {
    a != "" && (a[0] < b[0] || (a[0] == b[0] && NameLess(a[1..], b[1..])))
  }

  lemma {:induction false} NameLessConcat(a: string, b: string, c: string, d: string)
    requires |a| == |b| && |c| == |d|
    ensures NameLess(a + c, b + d) <==> NameLess(a, b) || (a == b && NameLess(c, d))
  {
    if a == "" {
      assert a + c == c && b + d == d;
    } else {
      assert (a + c)[1..] == a[1..] + c && (b + d)[1..] == b[1..] + d;
      NameLessConcat(a[1..], b[1..], c, d);
      assert a == [a[0]] + a[1..] && b == [b[0]] + b[1..];
    }
  }

  /** Numbers of the same width are ordered like their digits. */
  lemma {:induction false} NumbersCompare(a: string, b: string)
    requires |a| == |b| && AllDigits(a) && AllDigits(b)
    ensures NameLess(a, b) <==> Value(a) < Value(b)
    ensures a == b <==> Value(a) == Value(b)
  {
    if a != "" {
      var k := |a| - 1;
      NumbersCompare(a[..k], b[..k]);
      assert a == a[..k] + [a[k]] && b == b[..k] + [b[k]];
      NameLessConcat(a[..k], b[..k], [a[k]], [b[k]]);
      assert NameLess([a[k]], [b[k]]) <==> a[k] < b[k];
      assert a[k] < b[k] <==> DigitValue(a[k]) < DigitValue(b[k]);
    }
  }

  lemma NameLessSplit(a: string, b: string, i: nat)
    requires |a| == |b| && i <= |a|
    ensures NameLess(a, b) <==> NameLess(a[..i], b[..i]) || (a[..i] == b[..i] && NameLess(a[i..], b[i..]))
  {
    NameLessConcat(a[..i], b[..i], a[i..], b[i..]);
    assert a == a[..i] + a[i..] && b == b[..i] + b[i..];
  }

  /** One field: it decides, or the rest of the name does. */
  lemma FieldCompare(a: string, b: string, i: nat, j: nat)
    requires |a| == |b| == 15 && i < j <= 15 && AllDigits(a[i..j]) && AllDigits(b[i..j])
    ensures NameLess(a[i..], b[i..]) <==>
            Value(a[i..j]) < Value(b[i..j]) || (Value(a[i..j]) == Value(b[i..j]) && NameLess(a[j..], b[j..]))
    ensures a[i..j] == b[i..j] <==> Value(a[i..j]) == Value(b[i..j])
  {
    NumbersCompare(a[i..j], b[i..j]);
    NameLessSplit(a[i..], b[i..], j - i);
    assert a[i..][..j - i] == a[i..j] && b[i..][..j - i] == b[i..j];
    assert a[i..][j - i..] == a[j..] && b[i..][j - i..] == b[j..];
  }

  predicate ClockLess(a: Date, b: Date) {
    a.hour < b.hour || (a.hour == b.hour && (a.minute < b.minute || (a.minute == b.minute && a.second < b.second)))
  }

  lemma ClockCompare(a: string, b: string)
    requires IsStampShaped(a) && IsStampShaped(b)
    ensures NameLess(a[9..], b[9..]) <==> ClockLess(DateOf(a), DateOf(b))
  {
    FieldCompare(a, b, 9, 11);
    FieldCompare(a, b, 11, 13);
    FieldCompare(a, b, 13, 15);
  }

  lemma DashCompare(a: string, b: string)
    requires IsStampShaped(a) && IsStampShaped(b)
    ensures NameLess(a[8..], b[8..]) <==> NameLess(a[9..], b[9..])
  {
    assert a[8..][1..] == a[9..] && b[8..][1..] == b[9..];
  }

  lemma DayCompare(a: string, b: string)
    requires IsStampShaped(a) && IsStampShaped(b)
    ensures var x, y := DateOf(a), DateOf(b);
            NameLess(a[4..], b[4..]) <==>
              x.month < y.month || (x.month == y.month
                  && (x.day < y.day || (x.day == y.day && NameLess(a[8..], b[8..]))))
  {
    FieldCompare(a, b, 4, 6);
    FieldCompare(a, b, 6, 8);
  }

  lemma YearCompare(a: string, b: string)
    requires IsStampShaped(a) && IsStampShaped(b)
    ensures var x, y := DateOf(a), DateOf(b);
            NameLess(a, b) <==> x.year < y.year || (x.year == y.year && NameLess(a[4..], b[4..]))
  {
    FieldCompare(a, b, 0, 4);
    assert a[0..] == a && b[0..] == b;
  }

  lemma NamesCompare(a: string, b: string)
    requires IsStampShaped(a) && IsStampShaped(b)
    ensures NameLess(a, b) <==> DateLess(DateOf(a), DateOf(b))
  {
    var x, y := DateOf(a), DateOf(b);
    assert NameLess(a[8..], b[8..]) <==> ClockLess(x, y) by {
      DashCompare(a, b);
      ClockCompare(a, b);
    }
    DayCompare(a, b);
    YearCompare(a, b);
  }

  lemma SameField(a: string, b: string, i: nat, j: nat)
    requires |a| == |b| == 15 && i < j <= 15 && AllDigits(a[i..j]) && AllDigits(b[i..j])
    requires Value(a[i..j]) == Value(b[i..j])
    ensures forall k | i <= k < j :: a[k] == b[k]
  {
    NumbersCompare(a[i..j], b[i..j]);
    forall k | i <= k < j ensures a[k] == b[k] {
      assert a[i..j][k - i] == a[k] && b[i..j][k - i] == b[k];
    }
  }

  lemma SameDateSameName(a: string, b: string)
    requires IsStampShaped(a) && IsStampShaped(b) && DateOf(a) == DateOf(b)
    ensures a == b
  {
    SameField(a, b, 0, 4);
    SameField(a, b, 4, 6);
    SameField(a, b, 6, 8);
    SameField(a, b, 9, 11);
    SameField(a, b, 11, 13);
    SameField(a, b, 13, 15);
  }

  lemma DayNotNegative(d: Date)
    requires IsDate(d)
    ensures Day(d) >= 0
  {
    assert YearStart(1970) == 0;
    if d.year > 1970 {
      YearsGrow(1970, d.year);
    }
  }

  lemma TimeNotNegative(d: Date)
    requires IsDate(d)
    ensures Time(d) >= 0
  {
    DayNotNegative(d);
    TimeIsDayAndClock(d);
  }

  /** Comparing decoded times is comparing names, and no two names have the same time. */
  lemma TimeOrderIsNameOrder(a: string, b: string)
    requires IsStamp(a) && IsStamp(b)
    ensures StringToTime(a) < StringToTime(b) <==> NameLess(a, b)
    ensures StringToTime(a) == StringToTime(b) <==> a == b
    ensures StringToTime(a) >= 0
  {
    var x, y := DateOf(a), DateOf(b);
    TimeOrderIsDateOrder(x, y);
    NamesCompare(a, b);
    if x == y {
      SameDateSameName(a, b);
    }
    TimeNotNegative(x);
  }
}
