/** Text helpers used by the generator: decimal rendering of integers (Rust's
    `to_string` and `{}` formatting of a non-negative value), its inverse, and
    `str::replace`. */
module Text {

  predicate IsDigit(c: char) {
    '0' <= c <= '9'
  }

  predicate AllDigits(s: string) {
    forall j :: 0 <= j < |s| ==> IsDigit(s[j])
  }

  function DigitChar(d: nat): (c: char)
    requires d < 10
    ensures IsDigit(c) && c as int - '0' as int == d
  {
    ('0' as int + d) as char
  }

  /** Decimal rendering of a natural number: no sign, no leading zero. */
  function NatToString(n: nat): (s: string)
    ensures 1 <= |s|
    ensures AllDigits(s)
    ensures |s| > 1 ==> s[0] != '0'
    ensures n < 10 <==> |s| == 1
    decreases n
  {
    if n < 10 then [DigitChar(n)] else NatToString(n / 10) + [DigitChar(n % 10)]
  }

  /** The number a string of decimal digits denotes (most significant first). */
  function DecimalValue(s: string): nat
    requires AllDigits(s)
  {
    if s == [] then 0
    else DecimalValue(s[..|s| - 1]) * 10 + (s[|s| - 1] as int - '0' as int)
  }

  /** Reading back a rendered number gives the number. */
  lemma {:induction false} NatToStringRoundTrip(n: nat)
    ensures DecimalValue(NatToString(n)) == n
    decreases n
  {
    var s := NatToString(n);
    if n >= 10 {
      NatToStringRoundTrip(n / 10);
      assert s[..|s| - 1] == NatToString(n / 10);
    }
  }

  /** A digit string without a leading zero denotes at least 1. */
  lemma {:induction false} LeadingDigitPositive(s: string)
    requires AllDigits(s) && s != [] && s[0] != '0'
    ensures DecimalValue(s) >= 1
    decreases |s|
  {
    if |s| > 1 {
      LeadingDigitPositive(s[..|s| - 1]);
    }
  }

  /** A canonical digit string (non-empty, no leading zero unless it is "0") is
      the rendering of the number it denotes. */
  lemma {:induction false} DecimalValueRoundTrip(s: string)
    requires AllDigits(s) && s != [] && (|s| > 1 ==> s[0] != '0')
    ensures NatToString(DecimalValue(s)) == s
    decreases |s|
  {
    var p, c := s[..|s| - 1], s[|s| - 1];
    if p == [] {
      assert s == [c];
    } else {
      DecimalValueRoundTrip(p);
      LeadingDigitPositive(p);
      var n := DecimalValue(s);
      assert n / 10 == DecimalValue(p) && n % 10 == c as int - '0' as int;
      assert s == p + [c];
    }
  }

  /** Distinct numbers render to distinct strings. */
  lemma NatToStringInjective(a: nat, b: nat)
    ensures NatToString(a) == NatToString(b) ==> a == b
  {
    NatToStringRoundTrip(a);
    NatToStringRoundTrip(b);
  }

  function Pow10(w: nat): (p: nat)
    ensures p >= 1
  {
    if w == 0 then 1 else 10 * Pow10(w - 1)
  }

  /** A number below 10^w renders in at most w digits (and always in at least one). */
  lemma {:induction false} NatToStringWidth(n: nat, w: nat)
    requires n < Pow10(w)
    ensures |NatToString(n)| <= if w == 0 then 1 else w
    decreases w
  {
    if n >= 10 {
      assert w >= 2;
      NatToStringWidth(n / 10, w - 1);
    }
  }

  /** `s` left-padded with '0' to at least `w` characters, as `{:0w}` does. */
  function ZeroPad(s: string, w: nat): (r: string)
    ensures |r| == if |s| >= w then |s| else w
    ensures AllDigits(s) ==> AllDigits(r) && DecimalValue(r) == DecimalValue(s)
    decreases w - |s|
  {
    if |s| >= w then s
    else
      var t := "0" + s;
      assert AllDigits(s) ==> DecimalValue(t) == DecimalValue(s) by {
        if AllDigits(s) { LeadingZero(s); }
      }
      ZeroPad(t, w)
  }

  /** A leading zero does not change the value of a digit string. */
  lemma {:induction false} LeadingZero(s: string)
    requires AllDigits(s)
    ensures AllDigits("0" + s) && DecimalValue("0" + s) == DecimalValue(s)
    decreases |s|
  {
    var t := "0" + s;
    if s != [] {
      assert t[..|t| - 1] == "0" + s[..|s| - 1];
      LeadingZero(s[..|s| - 1]);
    } else {
      assert t[..|t| - 1] == [];
    }
  }

  /** All non-overlapping occurrences of `pat`, scanned left to right, replaced
      by `rep`, as Rust's `str::replace` does for a non-empty pattern. */
  function Replace(s: string, pat: string, rep: string): (r: string)
    requires |pat| > 0
    ensures pat[0] !in s ==> r == s
    decreases |s|
  {
    if |s| < |pat| then s
    else if s[..|pat|] == pat then rep + Replace(s[|pat|..], pat, rep)
    else [s[0]] + Replace(s[1..], pat, rep)
  }

  /** A character that cannot start an occurrence is copied unchanged. */
  lemma ReplaceStep(s: string, pat: string, rep: string)
    requires |pat| > 0 && |s| > 0 && s[0] != pat[0]
    ensures Replace(s, pat, rep) == [s[0]] + Replace(s[1..], pat, rep)
  {
    if |s| < |pat| {
      assert Replace(s[1..], pat, rep) == s[1..];
      assert [s[0]] + s[1..] == s;
    } else {
      assert s[..|pat|][0] == s[0];
    }
  }

  /** A prefix that cannot start an occurrence is copied unchanged. */
  lemma {:induction false} ReplaceSkip(a: string, b: string, pat: string, rep: string)
    requires |pat| > 0 && pat[0] !in a
    ensures Replace(a + b, pat, rep) == a + Replace(b, pat, rep)
    decreases |a|
  {
    if a == [] {
      assert a + b == b;
    } else {
      var s := a + b;
      ReplaceStep(s, pat, rep);
      assert s[0] == a[0] && s[1..] == a[1..] + b;
      ReplaceSkip(a[1..], b, pat, rep);
      var tail := Replace(b, pat, rep);
      assert [a[0]] + (a[1..] + tail) == ([a[0]] + a[1..]) + tail;
      assert [a[0]] + a[1..] == a;
    }
  }

  /** An occurrence at the head is replaced and the scan resumes after it. */
  lemma ReplaceAtHead(pat: string, b: string, rep: string)
    requires |pat| > 0
    ensures Replace(pat + b, pat, rep) == rep + Replace(b, pat, rep)
  {
    var s := pat + b;
    assert s[..|pat|] == pat;
    assert s[|pat|..] == b;
  }
}
