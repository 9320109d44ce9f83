/** WebhookUtils.colorToInt and WebhookUtils.dateToText: the two scalar encodings of an embed. */
module WebhookUtils {
  import opened Wrappers

  // ----------------------------------------------------------------------------------------
  // colorToInt

  const TwoTo31: int := 0x8000_0000

  /** Java int arithmetic: the 32-bit two's-complement wrap of an exact result. */
  function Int32(x: int): (r: int)
    ensures -TwoTo31 <= r < TwoTo31
    ensures -TwoTo31 <= x < TwoTo31 ==> r == x
  {
    (x + TwoTo31) % 0x1_0000_0000 - TwoTo31
  }

  /** A java.awt.Color channel; the Color constructor rejects anything outside [0, 255]. */
  type Channel = x: int | 0 <= x <= 255

  datatype Color = Color(red: Channel, green: Channel, blue: Channel)

  /** Packs the channels as (red << 8 + green) << 8 + blue in Java int arithmetic; it never wraps. */
  function ColorToInt(color: Color): (rgb: int)
    ensures rgb == color.red * 65536 + color.green * 256 + color.blue
    ensures 0 <= rgb <= 0xFF_FFFF
  {
    var rgb := color.red;
    var rgb := Int32(Int32(rgb * 256) + color.green);
    Int32(Int32(rgb * 256) + color.blue)
  }

  /** The unpacking: red is the top byte, green the middle one, blue the low one. */
  function IntToColor(rgb: int): (color: Color)
    requires 0 <= rgb <= 0xFF_FFFF
    ensures ColorToInt(color) == rgb
  {
    Color(rgb / 65536, (rgb / 256) % 256, rgb % 256)
  }

  /** Packing loses nothing: every colour is recovered from its packed value. */
  lemma ColorRoundTrip(color: Color)
    ensures IntToColor(ColorToInt(color)) == color
  {
    var rgb := ColorToInt(color);
    var low := color.green * 256 + color.blue;
    assert 0 <= low < 65536;
    assert rgb == color.red * 65536 + low;
    assert rgb / 65536 == color.red;
    assert rgb / 256 == color.red * 256 + color.green;
    assert (rgb / 256) % 256 == color.green;
    assert rgb % 256 == color.blue;
  }

  /** The colour every embed of the repository's tests uses. */
  lemma TestColorPacks()
    ensures ColorToInt(Color(87, 0, 97)) == 5701729
  {
  }

  // ----------------------------------------------------------------------------------------
  // dateToText

  /** A java.util.Calendar reduced to what dateToText reads: the instant and its zone's fixed offset. */
  datatype Calendar = Calendar(timeMillis: int, zoneOffsetMillis: int)

  /** The wall-clock time of the calendar, as milliseconds since 1970-01-01T00:00 on that clock. */
  function LocalMillis(c: Calendar): int
  {
    c.timeMillis + c.zoneOffsetMillis
  }

  /** The calendars the model renders: wall clocks from 1970 on (no Julian dates involved). */
  type Timestamp = c: Calendar | LocalMillis(c) >= 0 witness Calendar(0, 0)

  const MillisPerDay: nat := 86_400_000

  predicate IsLeapYear(y: int)
  {
    y % 4 == 0 && (y % 100 != 0 || y % 400 == 0)
  }

  function DaysInYear(y: int): nat
  {
    if IsLeapYear(y) then 366 else 365
  }

  function DaysInMonth(y: int, m: int): nat
    requires 1 <= m <= 12
  {
    if m == 2 then (if IsLeapYear(y) then 29 else 28)
    else if m == 4 || m == 6 || m == 9 || m == 11 then 30
    else 31
  }

  /** Days of year y before the first of month m; m == 13 gives the whole year. */
  function DaysBeforeMonth(y: int, m: int): (days: nat)
    requires 1 <= m <= 13
    ensures m == 1 ==> days == 0
    ensures m == 13 ==> days == DaysInYear(y)
  {
    var common := [0, 31, 59, 90, 120, 151, 181, 212, 243, 273, 304, 334, 365][m - 1];
    if m > 2 && IsLeapYear(y) then common + 1 else common
  }

  /** Each month's length is the step between the month starts around it. */
  lemma MonthLength(y: int, m: int)
    requires 1 <= m <= 12
    ensures DaysBeforeMonth(y, m) + DaysInMonth(y, m) == DaysBeforeMonth(y, m + 1)
  {
  }

  /** Days from 1970-01-01 to the first of January of year y. */
  function DaysBeforeYear(y: int): nat
    requires y >= 1970
    decreases y
  {
    if y == 1970 then 0 else DaysBeforeYear(y - 1) + DaysInYear(y - 1)
  }

  /** Finds the year holding day number `days` counted from the first of January of year y. */
  function YearOf(y: int, days: nat): (r: (int, nat))
    requires y >= 1970
    ensures r.0 >= y && r.1 < DaysInYear(r.0)
    ensures DaysBeforeYear(r.0) + r.1 == DaysBeforeYear(y) + days
    decreases days
  {
    if days < DaysInYear(y) then (y, days)
    else YearOf(y + 1, days - DaysInYear(y))
  }

  /** Finds the month, at most m, holding day `doy` of year y (counted from 0). */
  function MonthOf(y: int, doy: nat, m: int): (month: int)
    requires 1 <= m <= 12 && doy < DaysBeforeMonth(y, m + 1)
    ensures 1 <= month <= m
    ensures DaysBeforeMonth(y, month) <= doy < DaysBeforeMonth(y, month + 1)
    decreases m
  {
    if m == 1 || DaysBeforeMonth(y, m) <= doy then m else MonthOf(y, doy, m - 1)
  }

  /** The fields SimpleDateFormat prints, read off a wall clock. */
  datatype DateTime = DateTime(year: int, month: int, day: int, hour: int, minute: int, second: int, millis: int)

  predicate ValidDateTime(dt: DateTime)
  {
    && 1970 <= dt.year
    && 1 <= dt.month <= 12
    && 1 <= dt.day <= DaysInMonth(dt.year, dt.month)
    && 0 <= dt.hour < 24
    && 0 <= dt.minute < 60
    && 0 <= dt.second < 60
    && 0 <= dt.millis < 1000
  }

  /** The wall-clock milliseconds a valid date-time denotes: the reverse of WallClock. */
  function ToLocalMillis(dt: DateTime): int
    requires ValidDateTime(dt)
  {
    var days := DaysBeforeYear(dt.year) + DaysBeforeMonth(dt.year, dt.month) + dt.day - 1;
    days * MillisPerDay + dt.hour * 3_600_000 + dt.minute * 60_000 + dt.second * 1000 + dt.millis
  }

  /** Splits milliseconds within a day into hours, minutes, seconds and milliseconds. */
  lemma SplitDay(ms: int)
    requires 0 <= ms < MillisPerDay
    ensures 0 <= ms / 3_600_000 < 24 && 0 <= ms / 60_000 % 60 < 60
    ensures 0 <= ms / 1000 % 60 < 60 && 0 <= ms % 1000 < 1000
    ensures ms == ms / 3_600_000 * 3_600_000 + ms / 60_000 % 60 * 60_000 + ms / 1000 % 60 * 1000 + ms % 1000
  {
    var s := ms / 1000;
    var mins := s / 60;
    assert ms == s * 1000 + ms % 1000;
    assert s == mins * 60 + s % 60;
    assert ms / 60_000 == mins;
    assert mins == mins / 60 * 60 + mins % 60;
    assert ms / 3_600_000 == mins / 60;
  }

  /** The date and time the calendar shows on its own wall clock. */
  function WallClock(c: Timestamp): (dt: DateTime)
    ensures ValidDateTime(dt) && ToLocalMillis(dt) == LocalMillis(c)
  {
    var local := LocalMillis(c);
    var (year, doy) := YearOf(1970, local / MillisPerDay);
    var month := MonthOf(year, doy, 12);
    var ms := local % MillisPerDay;
    MonthLength(year, month);
    SplitDay(ms);
    DateTime(year, month, doy - DaysBeforeMonth(year, month) + 1,
             ms / 3_600_000, ms / 60_000 % 60, ms / 1000 % 60, ms % 1000)
  }

  // Decimal digits, as SimpleDateFormat writes numbers: at least `width` digits, zero-padded.

  function DigitChar(d: int): char
    requires 0 <= d <= 9
  {
    "0123456789"[d]
  }

  predicate IsDigit(ch: char)
  {
    '0' <= ch <= '9'
  }

  predicate AllDigits(s: string)
  {
    forall k :: 0 <= k < |s| ==> IsDigit(s[k])
  }

  function Digits(n: nat): (s: string)
    ensures 1 <= |s| && AllDigits(s)
    decreases n
  {
    if n < 10 then [DigitChar(n)] else Digits(n / 10) + [DigitChar(n % 10)]
  }

  function Zeros(k: nat): (s: string)
    ensures |s| == k && AllDigits(s)
  {
    if k == 0 then "" else Zeros(k - 1) + "0"
  }

  /** A number printed with at least `width` digits. */
  function Pad(n: nat, width: nat): (s: string)
    ensures AllDigits(s) && |s| >= width
  {
    var d := Digits(n);
    if |d| < width then Zeros(width - |d|) + d else d
  }

  /** The number a string of decimal digits denotes: the reverse of Pad. */
  function DigitsValue(s: string): nat
    requires AllDigits(s)
  {
    if s == [] then 0 else 10 * DigitsValue(s[..|s| - 1]) + (s[|s| - 1] as int - '0' as int)
  }

  function Pow10(k: nat): nat
  {
    if k == 0 then 1 else 10 * Pow10(k - 1)
  }

  /** Each digit character stands for its own value. */
  lemma DigitCharValue(d: int)
    requires 0 <= d <= 9
    ensures DigitChar(d) as int - '0' as int == d
  {
    assert "0123456789"[d] as int == '0' as int + d;
  }

  lemma {:induction false} DigitsRoundTrip(n: nat)
    ensures DigitsValue(Digits(n)) == n
    decreases n
  {
    var d := Digits(n);
    if n < 10 {
      DigitCharValue(n);
      assert d[..|d| - 1] == [];
    } else {
      var q, r := n / 10, n % 10;
      assert d == Digits(q) + [DigitChar(r)];
      assert d[..|d| - 1] == Digits(q);
      DigitsRoundTrip(q);
      DigitCharValue(r);
      assert n == 10 * q + r;
    }
  }

  lemma {:induction false} DigitsFit(n: nat, width: nat)
    requires 1 <= width && n < Pow10(width)
    ensures |Digits(n)| <= width
    decreases n
  {
    if n >= 10 {
      DigitsFit(n / 10, width - 1);
    }
  }

  lemma {:induction false} LeadingZeros(k: nat, s: string)
    requires AllDigits(s)
    ensures DigitsValue(Zeros(k) + s) == DigitsValue(s)
    decreases |s|
  {
    if s == [] {
      assert Zeros(k) + s == Zeros(k);
      ZerosValue(k);
    } else {
      var t := Zeros(k) + s;
      assert t[..|t| - 1] == Zeros(k) + s[..|s| - 1];
      LeadingZeros(k, s[..|s| - 1]);
    }
  }

  lemma {:induction false} ZerosValue(k: nat)
    ensures DigitsValue(Zeros(k)) == 0
  {
    if k > 0 {
      assert Zeros(k)[..k - 1] == Zeros(k - 1);
      ZerosValue(k - 1);
    }
  }

  /** A number below 10^width prints in exactly `width` digits that read back as the number. */
  lemma PadRoundTrip(n: nat, width: nat)
    requires 1 <= width && n < Pow10(width)
    ensures |Pad(n, width)| == width && DigitsValue(Pad(n, width)) == n
  {
    var d := Digits(n);
    DigitsFit(n, width);
    DigitsRoundTrip(n);
    if |d| < width {
      assert Pad(n, width) == Zeros(width - |d|) + d;
      LeadingZeros(width - |d|, d);
    } else {
      assert Pad(n, width) == d;
    }
  }

  /** One numeric field of a SimpleDateFormat pattern (minimum digits) and the literal after it. */
  datatype Piece = Piece(width: nat, literal: char)

  /** "yyyy-MM-dd'T'HH:mm:ss.SSS'Z'": the Z is a quoted literal, not a zone designator. */
  const Pattern: seq<Piece> :=
    [Piece(4, '-'), Piece(2, '-'), Piece(2, 'T'), Piece(2, ':'), Piece(2, ':'), Piece(2, '.'), Piece(3, 'Z')]

  /** Prints each value padded to its piece's width, followed by the piece's literal. */
  function Render(values: seq<nat>, pattern: seq<Piece>): string
    requires |values| == |pattern|
  {
    if pattern == [] then ""
    else Pad(values[0], pattern[0].width) + [pattern[0].literal] + Render(values[1..], pattern[1..])
  }

  /** Reads back text in the shape Render writes when every value fits its width; None otherwise. */
  function ParseFields(text: string, pattern: seq<Piece>): (r: Option<seq<nat>>)
    ensures r.Some? ==> |r.value| == |pattern|
  {
    if pattern == [] then (if text == "" then Some([]) else None)
    else
      var w := pattern[0].width;
      if |text| > w && AllDigits(text[..w]) && text[w] == pattern[0].literal then
        match ParseFields(text[w + 1..], pattern[1..])
        case Some(rest) => Some([DigitsValue(text[..w])] + rest)
        case None => None
      else None
  }

  /** The values fit the pattern: every value has at most its piece's width in digits. */
  predicate Fits(values: seq<nat>, pattern: seq<Piece>)
  {
    && |values| == |pattern|
    && forall i :: 0 <= i < |pattern| ==> 1 <= pattern[i].width && values[i] < Pow10(pattern[i].width)
  }

  function FixedLength(pattern: seq<Piece>): nat
  {
    if pattern == [] then 0 else pattern[0].width + 1 + FixedLength(pattern[1..])
  }

  /** Values that fit are rendered in the pattern's fixed length and parsed back unchanged. */
  lemma {:induction false} RenderRoundTrip(values: seq<nat>, pattern: seq<Piece>)
    requires Fits(values, pattern)
    ensures |Render(values, pattern)| == FixedLength(pattern)
    ensures ParseFields(Render(values, pattern), pattern) == Some(values)
  {
    if pattern != [] {
      var head := Pad(values[0], pattern[0].width);
      var rest := Render(values[1..], pattern[1..]);
      FitsTail(values, pattern);
      PadRoundTrip(values[0], pattern[0].width);
      RenderRoundTrip(values[1..], pattern[1..]);
      ParseHead(head, rest, pattern);
      assert [values[0]] + values[1..] == values;
    }
  }

  lemma FitsTail(values: seq<nat>, pattern: seq<Piece>)
    requires Fits(values, pattern) && pattern != []
    ensures 1 <= pattern[0].width && values[0] < Pow10(pattern[0].width)
    ensures Fits(values[1..], pattern[1..])
  {
    forall i | 0 <= i < |pattern| - 1
      ensures 1 <= pattern[1..][i].width && values[1..][i] < Pow10(pattern[1..][i].width)
    {
      assert pattern[1..][i] == pattern[i + 1];
    }
  }

  /** A digit run of the first piece's width, then its literal: parsing reads the run and continues. */
  lemma ParseHead(head: string, rest: string, pattern: seq<Piece>)
    requires pattern != [] && |head| == pattern[0].width && AllDigits(head)
    ensures var r := ParseFields(rest, pattern[1..]);
      ParseFields(head + [pattern[0].literal] + rest, pattern)
      == if r.Some? then Some([DigitsValue(head)] + r.value) else None
  {
    var text := head + [pattern[0].literal] + rest;
    assert text[..|head|] == head;
    assert text[|head| + 1..] == rest;
  }

  function Fields(dt: DateTime): seq<nat>
    requires ValidDateTime(dt)
  {
    [dt.year, dt.month, dt.day, dt.hour, dt.minute, dt.second, dt.millis]
  }

  /** The text SimpleDateFormat produces for the pattern. */
  function Format(dt: DateTime): string
    requires ValidDateTime(dt)
  {
    Render(Fields(dt), Pattern)
  }

  /**
   * dateToText: the calendar's own wall clock, suffixed Z whatever the zone. For years up to 9999
   * it is the 24-character text that reads back as that wall clock.
   */
  function DateToText(c: Timestamp): (s: string)
    ensures |s| > 0 && s[|s| - 1] == 'Z'
    ensures WallClock(c).year <= 9999 ==> |s| == 24 && Parse(s) == Some(WallClock(c))
  {
    var dt := WallClock(c);
    RenderEndsWithLiteral(Fields(dt), Pattern);
    if dt.year <= 9999 then ParseFormat(dt); Format(dt) else Format(dt)
  }

  /** The reverse of Format: reads a date-time from the pattern's text, None for any other text. */
  function Parse(text: string): Option<DateTime>
  {
    match ParseFields(text, Pattern)
    case Some(v) => Some(DateTime(v[0], v[1], v[2], v[3], v[4], v[5], v[6]))
    case None => None
  }

  /** For years up to 9999 the text is 24 characters long and reads back as the date-time. */
  lemma ParseFormat(dt: DateTime)
    requires ValidDateTime(dt) && dt.year <= 9999
    ensures |Format(dt)| == 24
    ensures Parse(Format(dt)) == Some(dt)
  {
    assert Pow10(2) == 100 && Pow10(3) == 1000 && Pow10(4) == 10000;
    assert Fits(Fields(dt), Pattern);
    RenderRoundTrip(Fields(dt), Pattern);
  }

  /** Reading the rendered text back gives the calendar's wall-clock time, not its instant. */
  lemma DateToTextRoundTrip(c: Timestamp)
    requires WallClock(c).year <= 9999
    ensures |DateToText(c)| == 24
    ensures Parse(DateToText(c)).Some?
    ensures ValidDateTime(Parse(DateToText(c)).value)
    ensures ToLocalMillis(Parse(DateToText(c)).value) == LocalMillis(c)
  {
    ParseFormat(WallClock(c));
  }

  /** The ".SSS" field holds the wall clock's milliseconds modulo 1000. */
  lemma MillisField(c: Timestamp)
    requires WallClock(c).year <= 9999
    ensures Parse(DateToText(c)).Some? && Parse(DateToText(c)).value.millis == LocalMillis(c) % 1000
  {
    var dt := WallClock(c);
    ParseFormat(dt);
    assert dt.millis == LocalMillis(c) % MillisPerDay % 1000;
    DayKeepsMillis(LocalMillis(c));
  }

  /** Whole days are whole seconds: dropping them keeps the milliseconds within the second. */
  lemma DayKeepsMillis(x: int)
    ensures x % MillisPerDay % 1000 == x % 1000
  {
    var q := x / MillisPerDay;
    var r := x % MillisPerDay;
    var k := q * 86_400 + r / 1000;
    assert r == r / 1000 * 1000 + r % 1000;
    assert x == k * 1000 + r % 1000;
    MillisOf(x, k, r % 1000);
  }

  /** x % 1000 is the remainder of any split of x into whole thousands and a rest below 1000. */
  lemma MillisOf(x: int, k: int, m: int)
    requires x == k * 1000 + m && 0 <= m < 1000
    ensures x % 1000 == m
  {
  }

  /** Only the wall clock matters: a zone offset of d renders like the instant moved by d in UTC. */
  lemma ZoneShiftsWallClock(c: Timestamp)
    ensures DateToText(c) == DateToText(Calendar(LocalMillis(c), 0))
  {
    var utc: Timestamp := Calendar(LocalMillis(c), 0);
    assert LocalMillis(utc) == LocalMillis(c);
    assert WallClock(utc) == WallClock(c);
  }

  /** Any day of year before day 31 lies in January. */
  lemma {:induction false} JanuaryDays(y: int, doy: nat, m: int)
    requires 1 <= m <= 12 && doy < 31
    ensures MonthOf(y, doy, m) == 1
    decreases m
  {
    if m > 1 {
      assert DaysBeforeMonth(y, m) > doy;
      JanuaryDays(y, doy, m - 1);
    }
  }

  /** The last character Render writes is the last piece's literal. */
  lemma {:induction false} RenderEndsWithLiteral(values: seq<nat>, pattern: seq<Piece>)
    requires |values| == |pattern| && pattern != []
    ensures |Render(values, pattern)| > 0
    ensures Render(values, pattern)[|Render(values, pattern)| - 1] == pattern[|pattern| - 1].literal
  {
    if |pattern| > 1 {
      RenderEndsWithLiteral(values[1..], pattern[1..]);
    }
  }

  /** Whatever the calendar's zone, the text ends in the literal Z. */
  lemma EndsWithZ(c: Timestamp)
    ensures |DateToText(c)| > 0 && DateToText(c)[|DateToText(c)| - 1] == 'Z'
  {
    RenderEndsWithLiteral(Fields(WallClock(c)), Pattern);
  }

  /** A wall clock in the first day of 1970 reads as that day's hour, minute, second and millisecond. */
  lemma FirstDayWallClock(c: Timestamp)
    requires LocalMillis(c) < MillisPerDay
    ensures WallClock(c).year == 1970 && WallClock(c).month == 1 && WallClock(c).day == 1
    ensures WallClock(c).hour == LocalMillis(c) / 3_600_000
  {
    JanuaryDays(1970, 0, 12);
    assert LocalMillis(c) / MillisPerDay == 0;
    assert YearOf(1970, 0) == (1970, 0);
  }

  /** The wall clock of the Unix epoch in UTC, and of the same instant one hour east of it. */
  lemma EpochWallClock()
    ensures WallClock(Calendar(0, 0)) == DateTime(1970, 1, 1, 0, 0, 0, 0)
    ensures WallClock(Calendar(0, 3_600_000)) == DateTime(1970, 1, 1, 1, 0, 0, 0)
  {
    FirstDayWallClock(Calendar(0, 0));
    FirstDayWallClock(Calendar(0, 3_600_000));
  }

  /** The same instant in UTC and in UTC+1 renders differently, although both texts end in Z. */
  lemma ZoneChangesText()
    ensures DateToText(Calendar(0, 0)) != DateToText(Calendar(0, 3_600_000))
  {
    EpochWallClock();
    ParseFormat(DateTime(1970, 1, 1, 0, 0, 0, 0));
    ParseFormat(DateTime(1970, 1, 1, 1, 0, 0, 0));
  }

  /** The Unix epoch in UTC renders as the 24-character text of 1970-01-01T00:00:00.000, then Z. */
  lemma EpochText()
    ensures |DateToText(Calendar(0, 0))| == 24 && DateToText(Calendar(0, 0))[23] == 'Z'
    ensures Parse(DateToText(Calendar(0, 0))) == Some(DateTime(1970, 1, 1, 0, 0, 0, 0))
  {
    EpochWallClock();
  }
}
