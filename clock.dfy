/**
 * Calendar dates and times as the exporters print them into file names
 * (`strftime('%Y%m%d_%H%M%S')`) and as the retention sweep reads them back
 * (`strptime(..., '%Y%m%d')`). The clock itself is never read: every
 * operation that needs "now" takes it as a parameter.
 */
module Clock {
  import opened Common

  datatype Date = Date(year: int, month: int, day: int)

  datatype DateTime = DateTime(date: Date, hour: int, minute: int, second: int)

  predicate IsLeap(y: int)
  {
    y % 4 == 0 && (y % 100 != 0 || y % 400 == 0)
  }

  function DaysInMonth(y: int, m: int): int
    requires 1 <= m <= 12
  {
    if m == 2 then (if IsLeap(y) then 29 else 28)
    else if m == 4 || m == 6 || m == 9 || m == 11 then 30
    else 31
  }

  /** A date Python's `datetime` accepts. */
  predicate ValidDate(d: Date)
  {
    1 <= d.year <= 9999 && 1 <= d.month <= 12 && 1 <= d.day <= DaysInMonth(d.year, d.month)
  }

  /** A wall-clock time whose `%Y` prints as four digits. */
  predicate ValidNow(t: DateTime)
  {
    ValidDate(t.date) && 1000 <= t.date.year
    && 0 <= t.hour < 24 && 0 <= t.minute < 60 && 0 <= t.second < 60
  }

  /** Days since 1970-01-01 in the proleptic Gregorian calendar. */
  function DayNumber(d: Date): int
  {
    var y := if d.month <= 2 then d.year - 1 else d.year;
    var era := y / 400;
    var yoe := y - era * 400;
    var mp := if d.month > 2 then d.month - 3 else d.month + 9;
    var doy := (153 * mp + 2) / 5 + d.day - 1;
    var doe := yoe * 365 + yoe / 4 - yoe / 100 + doy;
    era * 146097 + doe - 719468
  }

  const SecondsPerDay: int := 86400

  /** Seconds since the epoch; a date alone stands for its midnight. */
  function Seconds(t: DateTime): int
  {
    DayNumber(t.date) * SecondsPerDay + t.hour * 3600 + t.minute * 60 + t.second
  }

  function Midnight(d: Date): int
  {
    DayNumber(d) * SecondsPerDay
  }

  lemma MidnightNotAfter(t: DateTime)
    requires ValidNow(t)
    ensures Midnight(t.date) <= Seconds(t) < Midnight(t.date) + SecondsPerDay
  {
  }

  // ------------------------------------------------------------ digits

  function Pow10(n: nat): nat
  {
    if n == 0 then 1 else 10 * Pow10(n - 1)
  }

  /** `n` printed in decimal, zero-padded to `width` digits (the low `width` digits). */
  function Pad(n: nat, width: nat): (s: string)
    ensures |s| == width
    ensures forall i :: 0 <= i < |s| ==> '0' <= s[i] <= '9'
  {
    if width == 0 then [] else Pad(n / 10, width - 1) + [(48 + n % 10) as char]
  }

  /** The value of a string of ASCII digits; None if any character is not a digit. */
  function ReadDigits(s: string): (r: Option<nat>)
    ensures r.Some? <==> forall i :: 0 <= i < |s| ==> '0' <= s[i] <= '9'
  {
    if s == [] then Some(0)
    else
      var c := s[|s| - 1];
      match ReadDigits(s[..|s| - 1])
      case None => None
      case Some(v) => if '0' <= c <= '9' then Some(10 * v + (c as int - 48)) else None
  }

  /** Reading back a padded number gives the number, when it fits the width. */
  lemma {:induction false} ReadPad(n: nat, width: nat)
    requires n < Pow10(width)
    ensures ReadDigits(Pad(n, width)) == Some(n)
  {
    if width > 0 {
      ReadPad(n / 10, width - 1);
      var s := Pad(n, width);
      assert s[..|s| - 1] == Pad(n / 10, width - 1);
    }
  }

  // ------------------------------------------------------------ formats

  /** `%Y%m%d`. */
  function DateDigits(d: Date): (s: string)
    requires ValidDate(d)
    ensures |s| == 8
  {
    Pad(d.year, 4) + Pad(d.month, 2) + Pad(d.day, 2)
  }

  /** `strftime('%Y%m%d_%H%M%S')`. */
  function Stamp(t: DateTime): (s: string)
    requires ValidNow(t)
    ensures |s| == 15 && s[..8] == DateDigits(t.date) && s[8] == '_'
    ensures forall i :: 0 <= i < |s| && i != 8 ==> '0' <= s[i] <= '9'
  {
    DateDigits(t.date) + "_" + Pad(t.hour, 2) + Pad(t.minute, 2) + Pad(t.second, 2)
  }

  /**
   * `datetime.strptime(s, '%Y%m%d')` on an eight-character string: four digits
   * of year, two of month, two of day, and a date that exists; None where
   * strptime raises.
   */
  function ParseYmd(s: string): (r: Option<Date>)
    ensures r.Some? ==> ValidDate(r.value) && |s| == 8
  {
    if |s| != 8 then None
    else
      match (ReadDigits(s[..4]), ReadDigits(s[4..6]), ReadDigits(s[6..]))
      case (Some(y), Some(m), Some(d)) =>
        if ValidDate(Date(y, m, d)) then Some(Date(y, m, d)) else None
      case _ => None
  }

  /** The retention sweep reads back exactly the date the exporter printed. */
  lemma ParseDateDigits(d: Date)
    requires ValidDate(d)
    ensures ParseYmd(DateDigits(d)) == Some(d)
  {
    var s := DateDigits(d);
    assert s[..4] == Pad(d.year, 4) && s[4..6] == Pad(d.month, 2) && s[6..] == Pad(d.day, 2);
    ReadPad(d.year, 4);
    ReadPad(d.month, 2);
    ReadPad(d.day, 2);
  }
}
