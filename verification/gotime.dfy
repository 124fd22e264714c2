/**
 * The part of Go's `time` package that the astro cache relies on: the proleptic Gregorian
 * calendar, instants, `time.Parse` / `time.ParseInLocation` with the layout "2006-01-02 15:04",
 * `Format("2006-01-02")`, `AddDate(0, 0, 1)`, `time.Date` at midnight, `LoadLocation` and the
 * year range that `MarshalJSON` accepts. A zone is a fixed offset from UTC looked up in an
 * abstract zone database.
 */
module GoTime {
  import opened Wrappers

  const NanosPerSecond: int := 1_000_000_000
  const SecondsPerDay: int := 86400
  const NanosPerDay: int := SecondsPerDay * NanosPerSecond

  // ---------------------------------------------------------------- calendar

  predicate IsLeap(year: nat) {
    year % 4 == 0 && (year % 100 != 0 || year % 400 == 0)
  }

  /** Days before the first of `month` in a common year; entry 12 is the length of the year. */
  function DaysBefore(month: int): int
    requires 0 <= month <= 12
  {
    [0, 31, 59, 90, 120, 151, 181, 212, 243, 273, 304, 334, 365][month]
  }

  function DaysIn(year: nat, month: int): (n: int)
    requires 1 <= month <= 12
    ensures 28 <= n <= 31
    ensures n == 29 <==> month == 2 && IsLeap(year)
  {
    if month == 2 && IsLeap(year) then 29 else DaysBefore(month) - DaysBefore(month - 1)
  }

  datatype Date = Date(year: nat, month: int, day: int) {
    predicate Valid() {
      1 <= month <= 12 && 1 <= day <= DaysIn(year, month)
    }
  }

  function YearLength(year: nat): int {
    if IsLeap(year) then 366 else 365
  }

  /** Days from 0000-01-01 to the first of January of `year`. */
  function DaysBeforeYear(year: nat): nat {
    if year == 0 then 0 else DaysBeforeYear(year - 1) + YearLength(year - 1)
  }

  /** Days from the first of January of `year` to the first of `month`; month 13 stands for the next January. */
  function FirstOfMonth(year: nat, month: int): int
    requires 1 <= month <= 13
  {
    DaysBefore(month - 1) + (if month > 2 && IsLeap(year) then 1 else 0)
  }

  /** The number of days from 0000-01-01 to `d`. */
  function DayNumber(d: Date): nat
    requires d.Valid()
  {
    DaysBeforeYear(d.year) + FirstOfMonth(d.year, d.month) + d.day - 1
  }

  /** `a` comes before `b` on the calendar. */
  predicate Precedes(a: Date, b: Date) {
    a.year < b.year
    || (a.year == b.year && a.month < b.month)
    || (a.year == b.year && a.month == b.month && a.day < b.day)
  }

  /**
   * The calendar day after `d`, as Go's `AddDate(0, 0, 1)` normalises it: the day count goes up
   * by exactly one, across month and year ends and February 29.
   */
  function NextDay(d: Date): (r: Date)
    requires d.Valid()
    ensures r.Valid() && Precedes(d, r)
    ensures DayNumber(r) == DayNumber(d) + 1
  {
    if d.day < DaysIn(d.year, d.month) then Date(d.year, d.month, d.day + 1)
    else if d.month < 12 then Date(d.year, d.month + 1, 1)
    else Date(d.year + 1, 1, 1)
  }

  lemma {:induction false} DaysBeforeYearGrows(a: nat, b: nat)
    requires a < b
    ensures DaysBeforeYear(a) + YearLength(a) <= DaysBeforeYear(b)
  {
    if a + 1 < b {
      DaysBeforeYearGrows(a, b - 1);
    }
  }

  lemma FirstOfMonthGrows(year: nat, m: int, n: int)
    requires 1 <= m <= n <= 13
    ensures FirstOfMonth(year, m) <= FirstOfMonth(year, n)
  {
  }

  /** Later calendar days have larger day numbers, so a day number names exactly one date. */
  lemma {:induction false} DayNumberOrder(a: Date, b: Date)
    requires a.Valid() && b.Valid()
    ensures Precedes(a, b) ==> DayNumber(a) < DayNumber(b)
    ensures DayNumber(a) == DayNumber(b) <==> a == b
  {
    if a.year < b.year {
      DaysBeforeYearGrows(a.year, b.year);
      FirstOfMonthGrows(a.year, a.month + 1, 13);
    } else if b.year < a.year {
      DaysBeforeYearGrows(b.year, a.year);
      FirstOfMonthGrows(b.year, b.month + 1, 13);
    } else if a.month < b.month {
      FirstOfMonthGrows(a.year, a.month + 1, b.month);
    } else if b.month < a.month {
      FirstOfMonthGrows(a.year, b.month + 1, a.month);
    }
  }

  // ---------------------------------------------------------------- time values

  /** A wall-clock reading: a calendar date and a time of day. */
  datatype Wall = Wall(date: Date, hour: int, minute: int, second: int, nanosecond: int) {
    predicate Valid() {
      && date.Valid()
      && 0 <= hour < 24 && 0 <= minute < 60 && 0 <= second < 60
      && 0 <= nanosecond < NanosPerSecond
    }
  }

  /** A Go `time.Time`: its wall-clock reading in its zone and that zone's offset east of UTC, in seconds. */
  datatype Moment = Moment(wall: Wall, offset: int)

  type Time = t: Moment | t.wall.Valid() witness Moment(Wall(Date(1, 1, 1), 0, 0, 0, 0), 0)

  /** `time.Time{}`: January 1 of year 1, 00:00:00 UTC. */
  const ZeroTime: Time := Moment(Wall(Date(1, 1, 1), 0, 0, 0, 0), 0)

  /** The absolute instant of `t`, in nanoseconds since 0000-01-01T00:00:00Z. */
  function Instant(t: Time): int {
    var w := t.wall;
    (DayNumber(w.date) * SecondsPerDay + w.hour * 3600 + w.minute * 60 + w.second - t.offset) * NanosPerSecond
      + w.nanosecond
  }

  /** `a` is an earlier wall-clock reading than `b`: by date, then hour, minute, second, nanosecond. */
  predicate WallPrecedes(a: Wall, b: Wall) {
    || Precedes(a.date, b.date)
    || (a.date == b.date && a.hour < b.hour)
    || (a.date == b.date && a.hour == b.hour && a.minute < b.minute)
    || (a.date == b.date && a.hour == b.hour && a.minute == b.minute && a.second < b.second)
    || (a.date == b.date && a.hour == b.hour && a.minute == b.minute && a.second == b.second
        && a.nanosecond < b.nanosecond)
  }

  /**
   * `t.Before(u)`: compares instants, whatever the zones of `t` and `u`; within one zone that is
   * the order of the clock readings.
   */
  function Before(t: Time, u: Time): (b: bool)
    ensures t.offset == u.offset ==> (b <==> WallPrecedes(t.wall, u.wall))
  {
    DayNumberOrder(t.wall.date, u.wall.date);
    DayNumberOrder(u.wall.date, t.wall.date);
    Instant(t) < Instant(u)
  }

  predicate IsMidnight(t: Time) {
    t.wall.hour == 0 && t.wall.minute == 0 && t.wall.second == 0 && t.wall.nanosecond == 0
  }

  /** `time.Date(y, m, d, 0, 0, 0, 0, loc)` for a zone with the given offset. */
  function Midnight(d: Date, offset: int): (t: Time)
    requires d.Valid()
    ensures IsMidnight(t) && t.wall.date == d && t.offset == offset
    ensures Instant(t) == (DayNumber(d) * SecondsPerDay - offset) * NanosPerSecond
  {
    Moment(Wall(d, 0, 0, 0, 0), offset)
  }

  /** `t.AddDate(0, 0, 1)` in a fixed-offset zone: the same clock reading on the next calendar day. */
  function AddOneDay(t: Time): (u: Time)
    ensures u.offset == t.offset && u.wall.date == NextDay(t.wall.date)
    ensures Instant(u) == Instant(t) + NanosPerDay
  {
    var w := t.wall;
    Moment(Wall(NextDay(w.date), w.hour, w.minute, w.second, w.nanosecond), t.offset)
  }

  /**
   * `MarshalJSON` writes RFC 3339 and refuses a time it cannot write there: a year outside
   * [0, 9999], or a zone offset whose hours, written as `±hh:mm`, reach 24.
   */
  function MarshalsToJson(t: Time): (ok: bool)
    ensures ok ==> |FormatDate(t.wall.date)| == 10
    ensures ok ==> t.offset / 3600 < 24 && (-t.offset) / 3600 < 24
  {
    t.wall.date.year <= 9999 && -SecondsPerDay < t.offset < SecondsPerDay
  }

  // ---------------------------------------------------------------- zones

  /** The zone database: the process's local offset and the offsets of the named zones it knows. */
  datatype ZoneDb = ZoneDb(localOffset: int, zones: map<string, int>)

  datatype TimeError =
    | InvalidLocationName(name: string)
    | UnknownTimeZone(name: string)
    | ParseError(value: string)

  predicate ContainsDotDot(s: string) {
    exists i :: 0 <= i < |s| - 1 && s[i] == '.' && s[i + 1] == '.'
  }

  /**
   * `time.LoadLocation(name)`: "" and "UTC" are UTC, "Local" is the process's zone, a name with
   * ".." or a leading slash or backslash is refused, any other name is looked up.
   */
  function LoadLocation(db: ZoneDb, name: string): (r: Result<int, TimeError>)
    ensures name == "" || name == "UTC" ==> r == Success(0)
    ensures name == "Local" ==> r == Success(db.localOffset)
    ensures r.Failure? ==> name != "" && (name !in db.zones || ContainsDotDot(name) || name[0] in "/\\")
    ensures r.Failure? ==>
      r.error == if ContainsDotDot(name) || name[0] in "/\\" then InvalidLocationName(name) else UnknownTimeZone(name)
    ensures r.Success? && name !in {"", "UTC", "Local"} ==> name in db.zones && r.value == db.zones[name]
    ensures name !in {"", "UTC", "Local"} && (ContainsDotDot(name) || name[0] in "/\\") ==>
      r == Failure(InvalidLocationName(name))
    ensures name !in {"", "UTC", "Local"} && !ContainsDotDot(name) && name[0] !in "/\\" ==>
      r == if name in db.zones then Success(db.zones[name]) else Failure(UnknownTimeZone(name))
  {
    if name == "" || name == "UTC" then Success(0)
    else if name == "Local" then Success(db.localOffset)
    else if ContainsDotDot(name) || name[0] == '/' || name[0] == '\\' then Failure(InvalidLocationName(name))
    else if name in db.zones then Success(db.zones[name])
    else Failure(UnknownTimeZone(name))
  }

  // ---------------------------------------------------------------- the layout "2006-01-02 15:04"

  predicate IsDigit(c: char) {
    '0' <= c <= '9'
  }

  function DigitValue(c: char): int
    requires IsDigit(c)
  {
    c as int - '0' as int
  }

  function Digit(k: int): (c: char)
    requires 0 <= k <= 9
    ensures IsDigit(c) && DigitValue(c) == k
  {
    ('0' as int + k) as char
  }

  /** The first position at or after `i` that does not hold a space. */
  function SkipSpaces(s: string, i: nat): (j: nat)
    requires i <= |s|
    ensures i <= j <= |s| && (j < |s| ==> s[j] != ' ')
    ensures forall k :: i <= k < j ==> s[k] == ' '
    decreases |s| - i
  {
    if i < |s| && s[i] == ' ' then SkipSpaces(s, i + 1) else i
  }

  /**
   * `time.Parse("2006-01-02 15:04", value)`, reading the wall clock only: a four-digit year, a
   * two-digit month and day, the layout's space matching one or more spaces, an hour of one or
   * two digits, a two-digit minute and nothing after it. The month must lie in 1..12, the day in
   * the month (February 29 only in leap years), the hour below 24 and the minute below 60.
   */
  function ParseWall(value: string): (r: Result<Wall, TimeError>)
    ensures r.Failure? ==> r.error == ParseError(value)
    ensures r.Success? ==> r.value.Valid() && r.value.second == 0 && r.value.nanosecond == 0
    ensures r.Success? ==> r.value.date.year <= 9999
  {
    if !(&& |value| > 10
         && IsDigit(value[0]) && IsDigit(value[1]) && IsDigit(value[2]) && IsDigit(value[3])
         && value[4] == '-' && IsDigit(value[5]) && IsDigit(value[6])
         && value[7] == '-' && IsDigit(value[8]) && IsDigit(value[9])
         && value[10] == ' ')
    then Failure(ParseError(value))
    else
      var year := 1000 * DigitValue(value[0]) + 100 * DigitValue(value[1])
                  + 10 * DigitValue(value[2]) + DigitValue(value[3]);
      var month := 10 * DigitValue(value[5]) + DigitValue(value[6]);
      var day := 10 * DigitValue(value[8]) + DigitValue(value[9]);
      var h := SkipSpaces(value, 10);
      if !(h < |value| && IsDigit(value[h])) then Failure(ParseError(value))
      else
        var twoDigitHour := h + 1 < |value| && IsDigit(value[h + 1]);
        var hour := if twoDigitHour then 10 * DigitValue(value[h]) + DigitValue(value[h + 1])
                    else DigitValue(value[h]);
        var m := if twoDigitHour then h + 2 else h + 1;
        if !(m + 3 == |value| && value[m] == ':' && IsDigit(value[m + 1]) && IsDigit(value[m + 2]))
        then Failure(ParseError(value))
        else
          var minute := 10 * DigitValue(value[m + 1]) + DigitValue(value[m + 2]);
          if 1 <= month <= 12 && 1 <= day <= DaysIn(year, month) && hour < 24 && minute < 60
          then Success(Wall(Date(year, month, day), hour, minute, 0, 0))
          else Failure(ParseError(value))
  }

  /** `time.ParseInLocation(layout, value, loc)`: the parsed wall clock read in the zone `offset`. */
  function ParseInLocation(value: string, offset: int): (r: Result<Time, TimeError>)
    ensures r.Success? <==> ParseWall(value).Success?
    ensures r.Success? ==> r.value.wall == ParseWall(value).value && r.value.offset == offset
  {
    match ParseWall(value)
    case Failure(e) => Failure(e)
    case Success(w) => Success(Moment(w, offset))
  }

  /** `time.Parse(layout, value)`: with no zone in the layout the result is in UTC. */
  function Parse(value: string): (r: Result<Time, TimeError>)
    ensures r.Success? <==> ParseWall(value).Success?
    ensures r.Success? ==> r.value.wall == ParseWall(value).value && r.value.offset == 0
  {
    ParseInLocation(value, 0)
  }

  // ---------------------------------------------------------------- formatting

  predicate AllDigits(s: string) {
    forall i :: 0 <= i < |s| ==> IsDigit(s[i])
  }

  /** The number a string of decimal digits spells, most significant digit first. */
  function ValueOf(s: string): nat
    requires AllDigits(s)
  {
    if s == [] then 0 else 10 * ValueOf(s[..|s| - 1]) + DigitValue(s[|s| - 1])
  }

  /** Appending a digit shifts the value one place and adds the digit. */
  lemma ValueOfSnoc(s: string, c: char)
    requires AllDigits(s) && IsDigit(c)
    ensures AllDigits(s + [c]) && ValueOf(s + [c]) == 10 * ValueOf(s) + DigitValue(c)
  {
    assert (s + [c])[..|s|] == s;
  }

  /** A string of zeros spells 0. */
  lemma {:induction false} ZerosSpellZero(z: string)
    requires forall i :: 0 <= i < |z| ==> z[i] == '0'
    ensures AllDigits(z) && ValueOf(z) == 0
  {
    if z != [] {
      ZerosSpellZero(z[..|z| - 1]);
    }
  }

  /** Leading zeros do not change the value. */
  lemma {:induction false} LeadingZeros(z: string, t: string)
    requires forall i :: 0 <= i < |z| ==> z[i] == '0'
    requires AllDigits(t)
    ensures AllDigits(z + t) && ValueOf(z + t) == ValueOf(t)
    decreases |t|
  {
    if t == [] {
      assert z + t == z;
      ZerosSpellZero(z);
    } else {
      var t' := t[..|t| - 1];
      assert z + t == (z + t') + [t[|t| - 1]];
      assert t == t' + [t[|t| - 1]];
      LeadingZeros(z, t');
      ValueOfSnoc(z + t', t[|t| - 1]);
      ValueOfSnoc(t', t[|t| - 1]);
    }
  }

  /** The decimal digits of `x`, most significant first, with no leading zero. */
  function Decimal(x: nat): (s: string)
    ensures |s| >= 1 && AllDigits(s) && ValueOf(s) == x
    ensures |s| > 1 ==> s[0] != '0'
  {
    if x < 10 then
      assert [Digit(x)][..0] == [];
      [Digit(x)]
    else
      var front := Decimal(x / 10);
      ValueOfSnoc(front, Digit(x % 10));
      front + [Digit(x % 10)]
  }

  /** Two digits spell the number below 100 they are the tens and units of. */
  lemma TwoDigitsValue(x: nat)
    requires x < 100
    ensures var s := [Digit(x / 10), Digit(x % 10)]; AllDigits(s) && ValueOf(s) == x
  {
    var a, b := Digit(x / 10), Digit(x % 10);
    assert [a][..0] == [];
    ValueOfSnoc([a], b);
    assert [a] + [b] == [a, b];
  }

  /** Four digits spell the number below 10000 they are the thousands, hundreds, tens and units of. */
  lemma FourDigitsValue(x: nat)
    requires x < 10000
    ensures
      var s := [Digit(x / 1000), Digit(x / 100 % 10), Digit(x / 10 % 10), Digit(x % 10)];
      AllDigits(s) && ValueOf(s) == x
  {
    var a, b, c, d := Digit(x / 1000), Digit(x / 100 % 10), Digit(x / 10 % 10), Digit(x % 10);
    assert x / 100 == 10 * (x / 1000) + x / 100 % 10;
    assert x / 10 == 10 * (x / 100) + x / 10 % 10;
    TwoDigitsValue(x / 100);
    assert [a, b] == [Digit(x / 100 / 10), Digit(x / 100 % 10)];
    ValueOfSnoc([a, b], c);
    assert [a, b] + [c] == [a, b, c];
    ValueOfSnoc([a, b, c], d);
    assert [a, b, c] + [d] == [a, b, c, d];
  }

  /** Go's `appendInt(x, width)`: `x` in decimal, padded with zeros to at least `width` digits. */
  function AppendInt(x: nat, width: nat): (s: string)
    ensures AllDigits(s) && ValueOf(s) == x && |s| >= width
    ensures (width == 2 && x < 100) || (width == 4 && x < 10000) ==> |s| == width
  {
    if width == 2 && x < 100 then
      TwoDigitsValue(x);
      [Digit(x / 10), Digit(x % 10)]
    else if width == 4 && x < 10000 then
      FourDigitsValue(x);
      [Digit(x / 1000), Digit(x / 100 % 10), Digit(x / 10 % 10), Digit(x % 10)]
    else if |Decimal(x)| < width then
      var zeros := seq(width - |Decimal(x)|, _ => '0');
      LeadingZeros(zeros, Decimal(x));
      zeros + Decimal(x)
    else
      Decimal(x)
  }

  /**
   * `t.Format("2006-01-02")`: for a year up to 9999, ten characters, the year, month and day in
   * four, two and two digits, separated by '-'.
   */
  function FormatDate(d: Date): (s: string)
    requires d.Valid()
    ensures d.year <= 9999 ==> |s| == 10 && s[4] == '-' && s[7] == '-'
    ensures d.year <= 9999 ==>
      && AllDigits(s[..4]) && ValueOf(s[..4]) == d.year
      && AllDigits(s[5..7]) && ValueOf(s[5..7]) == d.month
      && AllDigits(s[8..]) && ValueOf(s[8..]) == d.day
  {
    var year, month, day := AppendInt(d.year, 4), AppendInt(d.month, 2), AppendInt(d.day, 2);
    var s := year + "-" + month + "-" + day;
    assert d.year <= 9999 ==> s[..4] == year && s[5..7] == month && s[8..] == day;
    s
  }

  /** `t.Format("2006-01-02 15:04")`. */
  function FormatWall(w: Wall): string
    requires w.Valid()
  {
    FormatDate(w.date) + " " + AppendInt(w.hour, 2) + ":" + AppendInt(w.minute, 2)
  }

  lemma TwoDigits(x: nat)
    requires x < 100
    ensures var s := AppendInt(x, 2);
      |s| == 2 && IsDigit(s[0]) && IsDigit(s[1]) && 10 * DigitValue(s[0]) + DigitValue(s[1]) == x
  {
  }

  lemma FourDigits(x: nat)
    requires x < 10000
    ensures var s := AppendInt(x, 4);
      && |s| == 4 && IsDigit(s[0]) && IsDigit(s[1]) && IsDigit(s[2]) && IsDigit(s[3])
      && 1000 * DigitValue(s[0]) + 100 * DigitValue(s[1]) + 10 * DigitValue(s[2]) + DigitValue(s[3]) == x
  {
    var a, b, c, d := x / 1000, x / 100 % 10, x / 10 % 10, x % 10;
    assert x / 100 == 10 * a + b;
    assert x / 10 == 10 * (x / 100) + c;
  }

  /** The characters of a formatted date whose year is below 10000, and the numbers they spell. */
  lemma FormatDateChars(d: Date)
    requires d.Valid() && d.year <= 9999
    ensures var s := FormatDate(d);
      && |s| == 10 && s[4] == '-' && s[7] == '-'
      && (forall k :: 0 <= k < 10 && k != 4 && k != 7 ==> IsDigit(s[k]))
      && d.year == 1000 * DigitValue(s[0]) + 100 * DigitValue(s[1]) + 10 * DigitValue(s[2]) + DigitValue(s[3])
      && d.month == 10 * DigitValue(s[5]) + DigitValue(s[6])
      && d.day == 10 * DigitValue(s[8]) + DigitValue(s[9])
  {
    var y, m, dd := AppendInt(d.year, 4), AppendInt(d.month, 2), AppendInt(d.day, 2);
    FourDigits(d.year);
    TwoDigits(d.month);
    TwoDigits(d.day);
    assert FormatDate(d) == [y[0], y[1], y[2], y[3], '-', m[0], m[1], '-', dd[0], dd[1]];
  }

  /**
   * The characters of a formatted wall clock whose year is below 10000: separators at the
   * layout's positions and zero-padded digits spelling each field.
   */
  lemma FormatWallChars(w: Wall)
    requires w.Valid() && w.date.year <= 9999
    ensures var s := FormatWall(w);
      && |s| == 16 && s[4] == '-' && s[7] == '-' && s[10] == ' ' && s[13] == ':'
      && (forall k :: 0 <= k < 16 && k !in {4, 7, 10, 13} ==> IsDigit(s[k]))
      && w.date.year == 1000 * DigitValue(s[0]) + 100 * DigitValue(s[1]) + 10 * DigitValue(s[2]) + DigitValue(s[3])
      && w.date.month == 10 * DigitValue(s[5]) + DigitValue(s[6])
      && w.date.day == 10 * DigitValue(s[8]) + DigitValue(s[9])
      && w.hour == 10 * DigitValue(s[11]) + DigitValue(s[12])
      && w.minute == 10 * DigitValue(s[14]) + DigitValue(s[15])
  {
    var date, h, m := FormatDate(w.date), AppendInt(w.hour, 2), AppendInt(w.minute, 2);
    FormatDateChars(w.date);
    TwoDigits(w.hour);
    TwoDigits(w.minute);
    assert FormatWall(w) == date + [' ', h[0], h[1], ':', m[0], m[1]];
  }

  /** What a sixteen-character value in the canonical shape parses to. */
  lemma ParseCanonical(s: string)
    requires |s| == 16 && s[4] == '-' && s[7] == '-' && s[10] == ' ' && s[13] == ':'
    requires forall k :: 0 <= k < 16 && k !in {4, 7, 10, 13} ==> IsDigit(s[k])
    ensures var year := 1000 * DigitValue(s[0]) + 100 * DigitValue(s[1]) + 10 * DigitValue(s[2]) + DigitValue(s[3]);
      var month, day := 10 * DigitValue(s[5]) + DigitValue(s[6]), 10 * DigitValue(s[8]) + DigitValue(s[9]);
      var hour, minute := 10 * DigitValue(s[11]) + DigitValue(s[12]), 10 * DigitValue(s[14]) + DigitValue(s[15]);
      ParseWall(s) == if 1 <= month <= 12 && 1 <= day <= DaysIn(year, month) && hour < 24 && minute < 60
                      then Success(Wall(Date(year, month, day), hour, minute, 0, 0))
                      else Failure(ParseError(s))
  {
    assert IsDigit(s[11]) && IsDigit(s[12]);
    assert SkipSpaces(s, 10) == 11 by {
      assert SkipSpaces(s, 11) == 11;
    }
  }

  /** Parsing what `Format` wrote with the same layout gives the wall clock back. */
  lemma {:induction false} ParseFormatRoundTrip(w: Wall)
    requires w.Valid() && w.date.year <= 9999 && w.second == 0 && w.nanosecond == 0
    ensures ParseWall(FormatWall(w)) == Success(w)
  {
    FormatWallChars(w);
    ParseCanonical(FormatWall(w));
  }

  /** A digit character is the digit of its own value. */
  lemma DigitOfValue(c: char)
    requires IsDigit(c)
    ensures Digit(DigitValue(c)) == c
  {
  }

  /** Four digits written by `appendInt` are the digits of the number they spell. */
  lemma FourDigitsSpelled(a: int, b: int, c: int, d: int)
    requires 0 <= a <= 9 && 0 <= b <= 9 && 0 <= c <= 9 && 0 <= d <= 9
    ensures AppendInt(1000 * a + 100 * b + 10 * c + d, 4) == [Digit(a), Digit(b), Digit(c), Digit(d)]
  {
    var x := 1000 * a + 100 * b + 10 * c + d;
    assert x / 1000 == a;
    assert x / 100 == 10 * a + b;
    assert x / 10 == 100 * a + 10 * b + c;
  }

  lemma TwoDigitsSpelled(a: int, b: int)
    requires 0 <= a <= 9 && 0 <= b <= 9
    ensures AppendInt(10 * a + b, 2) == [Digit(a), Digit(b)]
  {
  }

  /** A sixteen-character value with a single space that parses has the canonical shape. */
  lemma SixteenIsCanonical(s: string)
    requires |s| == 16 && s[11] != ' ' && ParseWall(s).Success?
    ensures s[4] == '-' && s[7] == '-' && s[10] == ' ' && s[13] == ':'
    ensures forall k :: 0 <= k < 16 && k !in {4, 7, 10, 13} ==> IsDigit(s[k])
  {
    assert SkipSpaces(s, 10) == 11 by {
      assert SkipSpaces(s, 11) == 11;
    }
  }

  /** Formatting the date spelled by a ten-character canonical date writes that text. */
  lemma CanonicalDateFormatted(s: string, d: Date)
    requires |s| == 10 && s[4] == '-' && s[7] == '-'
    requires forall k :: 0 <= k < 10 && k != 4 && k != 7 ==> IsDigit(s[k])
    requires d.Valid()
    requires d.year == 1000 * DigitValue(s[0]) + 100 * DigitValue(s[1]) + 10 * DigitValue(s[2]) + DigitValue(s[3])
    requires d.month == 10 * DigitValue(s[5]) + DigitValue(s[6])
    requires d.day == 10 * DigitValue(s[8]) + DigitValue(s[9])
    ensures FormatDate(d) == s
  {
    FourDigitsSpelled(DigitValue(s[0]), DigitValue(s[1]), DigitValue(s[2]), DigitValue(s[3]));
    TwoDigitsSpelled(DigitValue(s[5]), DigitValue(s[6]));
    TwoDigitsSpelled(DigitValue(s[8]), DigitValue(s[9]));
    forall k | 0 <= k < 10 && k != 4 && k != 7
      ensures Digit(DigitValue(s[k])) == s[k]
    {
      DigitOfValue(s[k]);
    }
    assert FormatDate(d) == [s[0], s[1], s[2], s[3], '-', s[5], s[6], '-', s[8], s[9]];
  }

  /** Formatting the fields spelled by a canonical value writes that value. */
  lemma CanonicalFormatted(s: string, w: Wall)
    requires |s| == 16 && s[4] == '-' && s[7] == '-' && s[10] == ' ' && s[13] == ':'
    requires forall k :: 0 <= k < 16 && k !in {4, 7, 10, 13} ==> IsDigit(s[k])
    requires w.Valid() && w.date.year <= 9999
    requires w.date.year == 1000 * DigitValue(s[0]) + 100 * DigitValue(s[1]) + 10 * DigitValue(s[2]) + DigitValue(s[3])
    requires w.date.month == 10 * DigitValue(s[5]) + DigitValue(s[6])
    requires w.date.day == 10 * DigitValue(s[8]) + DigitValue(s[9])
    requires w.hour == 10 * DigitValue(s[11]) + DigitValue(s[12])
    requires w.minute == 10 * DigitValue(s[14]) + DigitValue(s[15])
    ensures FormatWall(w) == s
  {
    var date := s[..10];
    assert forall k :: 0 <= k < 10 && k != 4 && k != 7 ==> IsDigit(date[k]);
    CanonicalDateFormatted(date, w.date);
    TwoDigitsSpelled(DigitValue(s[11]), DigitValue(s[12]));
    TwoDigitsSpelled(DigitValue(s[14]), DigitValue(s[15]));
    DigitOfValue(s[11]);
    DigitOfValue(s[12]);
    DigitOfValue(s[14]);
    DigitOfValue(s[15]);
    assert FormatWall(w) == date + [' ', s[11], s[12], ':', s[14], s[15]];
    assert s == date + s[10..];
  }

  /**
   * The converse: a sixteen-character value with a single space between date and clock that
   * parses is exactly what `Format` writes for the result. Other accepted spellings (several
   * spaces, a one-digit hour) are the leniency of Go's parser.
   */
  lemma {:induction false} ParsedCanonicalIsFormatted(s: string)
    requires |s| == 16 && s[11] != ' ' && ParseWall(s).Success?
    ensures FormatWall(ParseWall(s).value) == s
  {
    SixteenIsCanonical(s);
    ParseCanonical(s);
    CanonicalFormatted(s, ParseWall(s).value);
  }

  /** Distinct dates of years up to 9999 are written differently by `Format("2006-01-02")`. */
  lemma FormatDateInjective(d: Date, e: Date)
    requires d.Valid() && e.Valid() && d.year <= 9999 && e.year <= 9999
    ensures FormatDate(d) == FormatDate(e) <==> d == e
  {
  }
}
