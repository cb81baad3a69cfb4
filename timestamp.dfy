/** Rendering of a UTC instant, given in integer milliseconds since the Unix
    epoch, in the pattern `%Y-%m-%d %H:%M:%S` of the chrono crate: the
    proleptic Gregorian calendar, second precision (the milliseconds are
    dropped, rounding toward the past), a four-digit zero-padded year for
    years 0 to 9999 and a signed year of at least four digits otherwise. */
module Timestamp {
  import opened Text

  const MsPerSecond: nat := 1000
  const SecondsPerDay: nat := 86400

  datatype Date = Date(year: int, month: nat, day: nat)

  /** The calendar date of the day `days` days after 1970-01-01 (before it when
      negative). Years are counted from March 1st so that the leap day falls
      at the end: 400-year eras of 146097 days, split into centuries, four-year
      groups and years. */
  function CivilFromDays(days: int): (d: Date)
    ensures 1 <= d.month <= 12 && 1 <= d.day <= 31
  {
    var z := days + 719468;          // days since 0000-03-01
    var era := z / 146097;
    var doe := z % 146097;           // day of the era
    var cent := if doe / 36524 < 3 then doe / 36524 else 3;
    var doc := doe - 36524 * cent;   // day of the century
    var quad := doc / 1461;
    var doq := doc - 1461 * quad;    // day of the four-year group
    var yq := if doq / 365 < 3 then doq / 365 else 3;
    var doy := doq - 365 * yq;       // day of the March-based year, 0..365
    var mp := (5 * doy + 2) / 153;   // month counted from March, 0..11
    var day := doy - (153 * mp + 2) / 5 + 1;
    var month := if mp < 10 then mp + 3 else mp - 9;
    var year := era * 400 + 100 * cent + 4 * quad + yq + (if month <= 2 then 1 else 0);
    Date(year, month, day)
  }

  /** The calendar date of the instant `ms`. */
  function DateOf(ms: int): (d: Date)
    ensures 1 <= d.month <= 12 && 1 <= d.day <= 31
  {
    CivilFromDays((ms / MsPerSecond) / SecondsPerDay)
  }

  /** Second of the day of the instant `ms`. */
  function SecondOfDay(ms: int): (s: nat)
    ensures s < SecondsPerDay
  {
    (ms / MsPerSecond) % SecondsPerDay
  }

  function Pad2(n: nat): (s: string)
    ensures AllDigits(s) && DecimalValue(s) == n
    ensures n < 100 ==> |s| == 2
  {
    NatToStringRoundTrip(n);
    assert n < 100 ==> |NatToString(n)| <= 2 by {
      if n < 100 { assert Pow10(2) == 100; NatToStringWidth(n, 2); }
    }
    ZeroPad(NatToString(n), 2)
  }

  function Pad4(n: nat): (s: string)
    ensures AllDigits(s) && DecimalValue(s) == n
    ensures n < 10000 ==> |s| == 4
  {
    NatToStringRoundTrip(n);
    assert n < 10000 ==> |NatToString(n)| <= 4 by {
      if n < 10000 { assert Pow10(4) == 10000; NatToStringWidth(n, 4); }
    }
    ZeroPad(NatToString(n), 4)
  }

  /** chrono's `%Y`. */
  function YearText(y: int): (s: string)
    ensures 0 <= y <= 9999 ==> |s| == 4 && AllDigits(s) && DecimalValue(s) == y
    ensures AllStampChars(s)
  {
    if 0 <= y <= 9999 then Pad4(y)
    else (if y < 0 then "-" else "+") + Pad4(if y < 0 then -y else y)
  }

  predicate IsStampChar(c: char) {
    IsDigit(c) || c == '-' || c == '+' || c == ' ' || c == ':'
  }

  predicate AllStampChars(s: string) {
    forall j :: 0 <= j < |s| ==> IsStampChar(s[j])
  }

  lemma StampConcat(a: string, b: string)
    requires AllStampChars(a) && AllStampChars(b)
    ensures AllStampChars(a + b)
  {
    forall j | 0 <= j < |a + b| ensures IsStampChar((a + b)[j]) {
      if j >= |a| { assert (a + b)[j] == b[j - |a|]; }
    }
  }

  /** `%Y-%m-%d` for a date. */
  function DateText(date: Date): (s: string)
    requires 1 <= date.month <= 12 && 1 <= date.day <= 31
    ensures AllStampChars(s)
    ensures 0 <= date.year <= 9999 ==> |s| == 10 && s[4] == '-' && s[7] == '-'
  {
    var y, m, d := YearText(date.year), Pad2(date.month), Pad2(date.day);
    StampConcat(y, "-");
    StampConcat(y + "-", m);
    StampConcat(y + "-" + m, "-");
    StampConcat(y + "-" + m + "-", d);
    y + "-" + m + "-" + d
  }

  /** Two characters of `s` that match `f` one by one are `f`. */
  lemma PairAt(s: string, i: nat, f: string)
    requires |f| == 2 && i + 2 <= |s| && s[i] == f[0] && s[i + 1] == f[1]
    ensures s[i..i + 2] == f
  {
    assert s[i..i + 2][0] == f[0] && s[i..i + 2][1] == f[1];
  }

  /** A year of four characters and two two-character fields joined by single
      separators sit at 0, 5 and 8. */
  lemma DateLayout(y: string, m: string, d: string, sep: string)
    requires |y| == 4 && |m| == 2 && |d| == 2 && |sep| == 1
    ensures var s := y + sep + m + sep + d;
      s[0..4] == y && s[5..7] == m && s[8..10] == d
  {
    var s := y + sep + m + sep + d;
    assert s[0..4][0] == y[0] && s[0..4][1] == y[1] && s[0..4][2] == y[2] && s[0..4][3] == y[3];
    PairAt(s, 5, m);
    PairAt(s, 8, d);
  }

  /** The fields of a rendered date read back as that date. */
  lemma DateTextFields(date: Date)
    requires 1 <= date.month <= 12 && 1 <= date.day <= 31 && 0 <= date.year <= 9999
    ensures var s := DateText(date);
      && AllDigits(s[0..4]) && AllDigits(s[5..7]) && AllDigits(s[8..10])
      && DecimalValue(s[0..4]) == date.year
      && DecimalValue(s[5..7]) == date.month
      && DecimalValue(s[8..10]) == date.day
  {
    DateLayout(YearText(date.year), Pad2(date.month), Pad2(date.day), "-");
  }

  /** `%H:%M:%S` for a second of the day. */
  function TimeText(sod: nat): (s: string)
    requires sod < SecondsPerDay
    ensures AllStampChars(s)
    ensures |s| == 8 && s[2] == ':' && s[5] == ':'
  {
    var h, m, x := Pad2(sod / 3600), Pad2(sod / 60 % 60), Pad2(sod % 60);
    StampConcat(h, ":");
    StampConcat(h + ":", m);
    StampConcat(h + ":" + m, ":");
    StampConcat(h + ":" + m + ":", x);
    h + ":" + m + ":" + x
  }

  /** Three two-character fields joined by single separators sit at 0, 3 and 6. */
  lemma ThreePairs(a: string, b: string, c: string, sep: string)
    requires |a| == 2 && |b| == 2 && |c| == 2 && |sep| == 1
    ensures var s := a + sep + b + sep + c;
      s[0..2] == a && s[3..5] == b && s[6..8] == c
  {
    var s := a + sep + b + sep + c;
    PairAt(s, 0, a);
    PairAt(s, 3, b);
    PairAt(s, 6, c);
  }

  /** The fields of a rendered time of day read back as its hours, minutes
      and seconds. */
  lemma TimeTextFields(sod: nat)
    requires sod < SecondsPerDay
    ensures var s := TimeText(sod);
      && AllDigits(s[0..2]) && AllDigits(s[3..5]) && AllDigits(s[6..8])
      && DecimalValue(s[0..2]) == sod / 3600
      && DecimalValue(s[3..5]) == sod / 60 % 60
      && DecimalValue(s[6..8]) == sod % 60
  {
    ThreePairs(Pad2(sod / 3600), Pad2(sod / 60 % 60), Pad2(sod % 60), ":");
  }

  /** `%Y-%m-%d %H:%M:%S` for a date and a second of the day. */
  function StampText(date: Date, sod: nat): (s: string)
    requires 1 <= date.month <= 12 && 1 <= date.day <= 31 && sod < SecondsPerDay
    ensures AllStampChars(s)
    ensures 0 <= date.year <= 9999 ==>
      |s| == 19 && s[4] == '-' && s[7] == '-' && s[10] == ' ' && s[13] == ':' && s[16] == ':'
  {
    var d, t := DateText(date), TimeText(sod);
    StampConcat(d, " ");
    StampConcat(d + " ", t);
    d + " " + t
  }

  /** The fields of a ten-character date and an eight-character time joined
      by one separator keep their places, the time's moved on by 11. */
  lemma StampLayout(d: string, t: string, sep: string)
    requires |d| == 10 && |t| == 8 && |sep| == 1
    ensures var s := d + sep + t;
      && s[0..4] == d[0..4] && s[5..7] == d[5..7] && s[8..10] == d[8..10]
      && s[11..13] == t[0..2] && s[14..16] == t[3..5] && s[17..19] == t[6..8]
  {
    var s := d + sep + t;
    assert s[..10] == d && s[11..] == t;
  }

  /** The fields of a rendered date and time read back as that date and time. */
  lemma StampTextFields(date: Date, sod: nat)
    requires 1 <= date.month <= 12 && 1 <= date.day <= 31 && sod < SecondsPerDay
    requires 0 <= date.year <= 9999
    ensures var s := StampText(date, sod);
      && AllDigits(s[0..4]) && AllDigits(s[5..7]) && AllDigits(s[8..10])
      && AllDigits(s[11..13]) && AllDigits(s[14..16]) && AllDigits(s[17..19])
      && DecimalValue(s[0..4]) == date.year
      && DecimalValue(s[5..7]) == date.month
      && DecimalValue(s[8..10]) == date.day
      && DecimalValue(s[11..13]) == sod / 3600
      && DecimalValue(s[14..16]) == sod / 60 % 60
      && DecimalValue(s[17..19]) == sod % 60
  {
    DateTextFields(date);
    TimeTextFields(sod);
    StampLayout(DateText(date), TimeText(sod), " ");
  }

  /** chrono's rendering of the instant `ms` in the pattern `%Y-%m-%d %H:%M:%S`. */
  function FormatTs(ms: int): (s: string)
    ensures AllStampChars(s)
    ensures '{' !in s
  {
    StampText(DateOf(ms), SecondOfDay(ms))
  }

  /** For years 0 to 9999 the text is `YYYY-MM-DD HH:MM:SS`, 19 characters. */
  lemma FormatTsLayout(ms: int)
    requires 0 <= DateOf(ms).year <= 9999
    ensures var s := FormatTs(ms);
      |s| == 19 && s[4] == '-' && s[7] == '-' && s[10] == ' ' && s[13] == ':' && s[16] == ':'
  {
    assert FormatTs(ms) == StampText(DateOf(ms), SecondOfDay(ms));
  }

  /** The fields of a rendered instant read back as its date and time of day. */
  lemma FormatTsFields(ms: int)
    requires 0 <= DateOf(ms).year <= 9999
    ensures var s := FormatTs(ms);
      && AllDigits(s[0..4]) && AllDigits(s[5..7]) && AllDigits(s[8..10])
      && AllDigits(s[11..13]) && AllDigits(s[14..16]) && AllDigits(s[17..19])
      && DecimalValue(s[0..4]) == DateOf(ms).year
      && DecimalValue(s[5..7]) == DateOf(ms).month
      && DecimalValue(s[8..10]) == DateOf(ms).day
      && DecimalValue(s[11..13]) == SecondOfDay(ms) / 3600
      && DecimalValue(s[14..16]) == SecondOfDay(ms) / 60 % 60
      && DecimalValue(s[17..19]) == SecondOfDay(ms) % 60
  {
    StampTextFields(DateOf(ms), SecondOfDay(ms));
  }
}
