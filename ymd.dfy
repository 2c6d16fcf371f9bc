/** Zero-padded date and time formatting (app/src/shared/ymd.ts) over an
    abstract date record: the fields are what the `Date` accessors return. */
module Ymd {
  import opened Strings

  /** What `getFullYear`, `getMonth` (zero-based), `getDate`, `getHours`,
      `getMinutes` and `getSeconds` return for one date. */
  datatype DateTime = DateTime(year: int, month0: nat, day: nat, hours: nat, minutes: nat, seconds: nat)

  const TEN := 10

  /** The shared shape of every pad helper: `0` before a one-digit number. */
  function Pad(n: nat): string {
    if n < TEN then "0" + NatToString(n) else NatToString(n)
  }

  /** Every value below 100 pads to exactly two digits, and reading the
      digits back gives the value. */
  lemma PadSpec(n: nat)
    ensures n < 100 ==> |Pad(n)| == 2
    ensures forall c :: c in Pad(n) ==> IsDigit(c)
    ensures ParseNat(Pad(n)) == n
  {
    NatToStringLength(n);
    ParseNatToString(n);
    if n < TEN {
      ParseNatLeadingZero(NatToString(n));
    }
  }

  function GetMonth(d: DateTime): string { Pad(d.month0 + 1) }
  function GetDay(d: DateTime): string { Pad(d.day) }
  function GetHours(d: DateTime): string { Pad(d.hours) }
  function GetMinutes(d: DateTime): string { Pad(d.minutes) }
  function GetSeconds(d: DateTime): string { Pad(d.seconds) }
  function GetYear(d: DateTime): string { IntToString(d.year) }

  /** `getDatetime`: `year-MM-DD HH:MM:SS`. */
  function GetDatetime(d: DateTime): string {
    GetYear(d) + "-" + GetMonth(d) + "-" + GetDay(d) + " "
      + GetHours(d) + ":" + GetMinutes(d) + ":" + GetSeconds(d)
  }

  /** `getDate`: `year-MM-DD`. */
  function GetDate(d: DateTime): string {
    GetYear(d) + "-" + GetMonth(d) + "-" + GetDay(d)
  }

  /** `getTime`: `HH:MM:SS`. */
  function GetTime(d: DateTime): string {
    GetHours(d) + ":" + GetMinutes(d) + ":" + GetSeconds(d)
  }

  /** The date-time text is the date and the time joined by one space. */
  lemma DatetimeIsDateSpaceTime(d: DateTime)
    ensures GetDatetime(d) == GetDate(d) + " " + GetTime(d)
  {
  }

  lemma PadAvoids(n: nat, c: char)
    requires !IsDigit(c)
    ensures c !in Pad(n)
  {
    PadSpec(n);
  }

  /** Splitting the date on `-` gives the year's digits (after an empty piece
      for a negative year), then the padded month and day. */
  lemma {:induction false} GetDatePieces(d: DateTime)
    ensures Split(GetDate(d), '-') ==
      (if d.year < 0 then ["", NatToString(-d.year)] else [NatToString(d.year)])
        + [GetMonth(d), GetDay(d)]
  {
    var y := NatToString(if d.year < 0 then -d.year else d.year);
    var m := GetMonth(d);
    var dd := GetDay(d);
    PadAvoids(d.month0 + 1, '-');
    PadAvoids(d.day, '-');
    assert !IsDigit('-');
    SplitNoSep(y, '-');
    SplitNoSep(m, '-');
    SplitNoSep(dd, '-');
    SplitAtSep(m, dd, '-');
    assert GetDate(d) == GetYear(d) + ['-'] + (m + ['-'] + dd);
    SplitAtSep(GetYear(d), m + ['-'] + dd, '-');
    if d.year < 0 {
      assert GetYear(d) == [] + ['-'] + y;
      SplitAtSep([], y, '-');
    }
  }

  /** Round trip: for a year that is not negative, splitting `getDate` on
      `-` and reading each piece gives the year, the one-based month and the
      day of the month. */
  lemma GetDateRoundTrip(d: DateTime)
    requires d.year >= 0
    ensures var parts := Split(GetDate(d), '-');
      |parts| == 3
      && ParseNat(parts[0]) == d.year
      && ParseNat(parts[1]) == d.month0 + 1
      && ParseNat(parts[2]) == d.day
  {
    GetDatePieces(d);
    ParseNatToString(d.year);
    PadSpec(d.month0 + 1);
    PadSpec(d.day);
  }

  /** Round trip for `getTime`: splitting on `:` and reading each piece gives
      the hours, minutes and seconds. */
  lemma GetTimeRoundTrip(d: DateTime)
    ensures var parts := Split(GetTime(d), ':');
      |parts| == 3
      && ParseNat(parts[0]) == d.hours
      && ParseNat(parts[1]) == d.minutes
      && ParseNat(parts[2]) == d.seconds
  {
    var h, m, s := GetHours(d), GetMinutes(d), GetSeconds(d);
    PadAvoids(d.hours, ':');
    PadAvoids(d.minutes, ':');
    PadAvoids(d.seconds, ':');
    SplitNoSep(h, ':');
    SplitNoSep(m, ':');
    SplitNoSep(s, ':');
    SplitAtSep(m, s, ':');
    assert GetTime(d) == h + [':'] + (m + [':'] + s);
    SplitAtSep(h, m + [':'] + s, ':');
    PadSpec(d.hours);
    PadSpec(d.minutes);
    PadSpec(d.seconds);
  }

  /** With in-range clock fields, the time is always eight characters. */
  lemma GetTimeLength(d: DateTime)
    requires d.hours < 24 && d.minutes < 60 && d.seconds < 60
    ensures |GetTime(d)| == 8
  {
    PadSpec(d.hours);
    PadSpec(d.minutes);
    PadSpec(d.seconds);
  }
}
