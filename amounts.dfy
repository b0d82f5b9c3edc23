/**
 * Money amounts as integer cents.
 *
 * Every statement parser turns a printed literal into a number with Python's
 * `float()`, after rewriting the literal's separators. Here `float()` on a plain
 * decimal literal is `ParseDecimal`, which yields cents, and the two printed
 * formats the statements use are recognised explicitly:
 *   - Argentine: `1.234.567,89` (dots group thousands, comma before the cents);
 *   - US: `100,000.00` (commas group thousands, dot before the cents).
 * `Spans` is Python's `re.finditer` over a hand-written matcher: the leftmost
 * match, and the next search resumes where that match ended.
 */
module Amounts {
  import opened Text
  import opened Optional

  // ---------------------------------------------------------------------------
  // Digits

  function DigitValue(c: char): nat
    requires IsDigit(c)
  {
    c as int - '0' as int
  }

  function DigitChar(d: nat): (c: char)
    requires d < 10
    ensures IsDigit(c) && DigitValue(c) == d
  {
    ('0' as int + d) as char
  }

  /** The number a string of digits denotes, most significant digit first. */
  function DigitsValue(s: string): nat
    requires AllDigits(s)
  {
    if s == [] then 0 else DigitsValue(s[..|s| - 1]) * 10 + DigitValue(s[|s| - 1])
  }

  function Pow10(n: nat): nat {
    if n == 0 then 1 else 10 * Pow10(n - 1)
  }

  lemma DigitsValueSnoc(a: string, d: char)
    requires AllDigits(a) && IsDigit(d)
    ensures AllDigits(a + [d]) && DigitsValue(a + [d]) == DigitsValue(a) * 10 + DigitValue(d)
  {
    assert (a + [d])[..|a|] == a;
  }

  lemma ShiftDigit(x: int, p: int, y: int, d: int)
    ensures (x * p + y) * 10 + d == x * (10 * p) + (y * 10 + d)
  {
  }

  lemma {:induction false} DigitsValueAppend(a: string, b: string)
    requires AllDigits(a) && AllDigits(b)
    ensures AllDigits(a + b)
    ensures DigitsValue(a + b) == DigitsValue(a) * Pow10(|b|) + DigitsValue(b)
  {
    if b == [] {
      assert a + b == a;
    } else {
      var b', last := b[..|b| - 1], b[|b| - 1];
      assert b == b' + [last];
      assert a + b == (a + b') + [last];
      DigitsValueAppend(a, b');
      DigitsValueSnoc(a + b', last);
      ShiftDigit(DigitsValue(a), Pow10(|b'|), DigitsValue(b'), DigitValue(last));
    }
  }

  /** The decimal numeral of `n`, without leading zeros. */
  function Numeral(n: nat): (r: string)
    ensures r != [] && AllDigits(r) && DigitsValue(r) == n
    ensures |r| > 1 ==> r[0] != '0'
    ensures n < 10 ==> |r| == 1
    ensures n < 100 ==> |r| <= 2
    ensures n < 1000 ==> |r| <= 3
  {
    if n < 10 then
      DigitsValueSnoc([], DigitChar(n));
      assert [] + [DigitChar(n)] == [DigitChar(n)];
      [DigitChar(n)]
    else
      var hi := Numeral(n / 10);
      DigitsValueSnoc(hi, DigitChar(n % 10));
      hi + [DigitChar(n % 10)]
  }

  /** Two digits for `n < 100`, with a leading zero when needed. */
  function Pad2(n: nat): (r: string)
    requires n < 100
    ensures |r| == 2 && AllDigits(r) && DigitsValue(r) == n
  {
    var hi := [DigitChar(n / 10)];
    DigitsValueSnoc([], DigitChar(n / 10));
    assert [] + hi == hi;
    DigitsValueSnoc(hi, DigitChar(n % 10));
    hi + [DigitChar(n % 10)]
  }

  /** Three digits for `n < 1000`, with leading zeros when needed. */
  function Pad3(n: nat): (r: string)
    requires n < 1000
    ensures |r| == 3 && AllDigits(r) && DigitsValue(r) == n
  {
    var hi := Pad2(n / 10);
    DigitsValueSnoc(hi, DigitChar(n % 10));
    hi + [DigitChar(n % 10)]
  }

  // ---------------------------------------------------------------------------
  // Python's float() on a plain decimal literal, in cents

  /** An unsigned literal split at its first dot: the digits before it and the digits after it. */
  function DecimalParts(body: string): (string, string) {
    var p := IndexOf(body, '.');
    if p < 0 then (body, "") else (body[..p], body[p + 1..])
  }

  /**
   * The cents that integer digits `ip` and fraction digits `fp` denote, when both are digits,
   * at least one is non-empty and there are at most two decimals.
   */
  function PartsCents(ip: string, fp: string): Option<int> {
    if AllDigits(ip) && AllDigits(fp) && |ip| + |fp| > 0 && |fp| <= 2 then
      Some(DigitsValue(ip) * 100 + (if |fp| == 1 then DigitsValue(fp) * 10 else DigitsValue(fp)))
    else None
  }

  /** An unsigned `digits[.digits]` with at most two decimals, in cents. */
  function UnsignedCents(body: string): Option<int> {
    var parts := DecimalParts(body);
    PartsCents(parts.0, parts.1)
  }

  /** What Python's `float()` makes of a plain decimal literal `[+-]?digits[.digits]`, in cents. */
  function ParseDecimal(s: string): Option<int> {
    if s != [] && s[0] == '-' then Negate(UnsignedCents(s[1..]))
    else if s != [] && s[0] == '+' then UnsignedCents(s[1..])
    else UnsignedCents(s)
  }

  /** The canonical plain decimal literal of an amount: `-1234.50`. */
  function FormatDecimal(c: int): string {
    var m := if c < 0 then -c else c;
    var body := Numeral(m / 100) + "." + Pad2(m % 100);
    if c < 0 then "-" + body else body
  }

  /** The shape of a plain decimal literal: an optional minus, digits, a point and two digits. */
  lemma DecimalShape(c: int)
    ensures var l, k := FormatDecimal(c), if c < 0 then 1 else 0;
      k + 4 <= |l| && (c < 0 ==> l[0] == '-') && l[|l| - 3] == '.' && IsDigit(l[|l| - 2]) && IsDigit(l[|l| - 1])
      && forall i :: k <= i < |l| - 3 ==> IsDigit(l[i])
  {
    var m := if c < 0 then -c else c;
    var n, f := Numeral(m / 100), Pad2(m % 100);
    var body := n + "." + f;
    assert body[|n|] == '.' && body[|n| + 1] == f[0] && body[|n| + 2] == f[1];
    assert forall i :: 0 <= i < |n| ==> body[i] == n[i];
    if c < 0 {
      assert forall i :: 1 <= i < |body| + 1 ==> ("-" + body)[i] == body[i - 1];
    }
  }

  lemma SplitCents(c: nat)
    ensures (c / 100) * 100 + c % 100 == c
  {
  }

  /** A literal with a digit part and exactly two decimals reads as those digits in cents. */
  lemma UnsignedCentsLiteral(d: string, f: string)
    requires d != [] && AllDigits(d) && |f| == 2 && AllDigits(f)
    ensures UnsignedCents(d + "." + f) == Some(DigitsValue(d) * 100 + DigitsValue(f))
  {
    DecimalPartsSplit(d, f);
    TwoDecimalsCents(d, f);
  }

  /** The integer part of `d.f` ends at the point when `d` is all digits. */
  lemma DecimalPartsSplit(d: string, f: string)
    requires AllDigits(d)
    ensures DecimalParts(d + "." + f) == (d, f)
  {
    var body := d + "." + f;
    assert body == d + ['.'] + f;
    IndexOfAfter(d, '.', f);
    assert body[..|d|] == d && body[|d| + 1..] == f;
  }

  lemma TwoDecimalsCents(d: string, f: string)
    requires d != [] && AllDigits(d) && |f| == 2 && AllDigits(f)
    ensures PartsCents(d, f) == Some(DigitsValue(d) * 100 + DigitsValue(f))
  {
  }

  lemma ParseUnsigned(body: string)
    requires body != [] && IsDigit(body[0])
    ensures ParseDecimal(body) == UnsignedCents(body)
  {
  }

  lemma ParseNegative(body: string)
    ensures ParseDecimal("-" + body) == Negate(UnsignedCents(body))
  {
    assert ("-" + body)[1..] == body;
  }

  /** An unsigned literal with exactly two decimals reads as its digits in cents. */
  lemma ParseTwoDecimals(d: string, f: string, units: nat, cents: nat)
    requires d != [] && AllDigits(d) && |f| == 2 && AllDigits(f)
    requires DigitsValue(d) == units && DigitsValue(f) == cents
    ensures ParseDecimal(d + "." + f) == Some(units * 100 + cents)
  {
    var body := d + "." + f;
    UnsignedCentsLiteral(d, f);
    assert body[0] == d[0];
    ParseUnsigned(body);
  }

  /** Reading the canonical literal back gives the amount. */
  lemma ParseFormatDecimal(c: int)
    ensures ParseDecimal(FormatDecimal(c)) == Some(c)
  {
    var m := if c < 0 then -c else c;
    var d, f := Numeral(m / 100), Pad2(m % 100);
    var body := d + "." + f;
    UnsignedCentsLiteral(d, f);
    assert UnsignedCents(body) == Some(m);
    if c < 0 {
      ParseNegative(body);
      assert Negate(Some(m)) == Some(c);
    } else {
      ParseUnsigned(body);
    }
  }

  // ---------------------------------------------------------------------------
  // Grouped literals: 1.234.567,89 and 1,234,567.89

  /** `\d{1,3}(?:<sep>\d{3})*`: one to three digits, then groups of a separator and three digits. */
  predicate IsGrouped(s: string, sep: char)
    decreases |s|
  {
    (1 <= |s| <= 3 && AllDigits(s))
    || (|s| >= 5 && s[|s| - 4] == sep && AllDigits(s[|s| - 3..]) && IsGrouped(s[..|s| - 4], sep))
  }

  /** `\d{1,3}(?:<sep>\d{3})*<dec>\d{2}`: a grouped integer part and exactly two decimals. */
  predicate IsGroupedLiteral(s: string, sep: char, dec: char) {
    |s| >= 4 && s[|s| - 3] == dec && AllDigits(s[|s| - 2..]) && IsGrouped(s[..|s| - 3], sep)
  }

  /** The Argentine literal `d{1,3}(.ddd)*,dd`. */
  predicate IsArLiteral(s: string) {
    IsGroupedLiteral(s, '.', ',')
  }

  /** The US literal `d{1,3}(,ddd)*.dd`. */
  predicate IsUsLiteral(s: string) {
    IsGroupedLiteral(s, ',', '.')
  }

  lemma GroupedSnoc(hi: string, lo: string, sep: char)
    requires IsGrouped(hi, sep) && |lo| == 3 && AllDigits(lo)
    ensures IsGrouped(hi + [sep] + lo, sep)
  {
    var r := hi + [sep] + lo;
    assert r[..|r| - 4] == hi && r[|r| - 4] == sep && r[|r| - 3..] == lo;
  }

  lemma Pow10Three()
    ensures Pow10(3) == 1000
  {
    assert Pow10(3) == 10 * Pow10(2) == 100 * Pow10(1) == 1000;
  }

  lemma GroupStep(hi: string, lo: string, sep: char)
    requires !IsDigit(sep) && IsGrouped(hi, sep) && |lo| == 3 && AllDigits(lo)
    requires AllDigits(RemoveChar(hi, sep))
    ensures IsGrouped(hi + [sep] + lo, sep)
    ensures RemoveChar(hi + [sep] + lo, sep) == RemoveChar(hi, sep) + lo
    ensures AllDigits(RemoveChar(hi, sep) + lo)
    ensures DigitsValue(RemoveChar(hi, sep) + lo) == DigitsValue(RemoveChar(hi, sep)) * 1000 + DigitsValue(lo)
  {
    GroupedSnoc(hi, lo, sep);
    RemoveCharAround(hi, sep, lo, sep) by {
      assert forall i :: 0 <= i < |lo| ==> lo[i] != sep;
    }
    DigitsValueAppend(RemoveChar(hi, sep), lo);
    Pow10Three();
  }

  /** `n` written with a separator every three digits from the right. */
  function Group(n: nat, sep: char): (r: string)
    requires !IsDigit(sep)
    ensures IsGrouped(r, sep)
    ensures RemoveChar(r, sep) != [] && AllDigits(RemoveChar(r, sep)) && DigitsValue(RemoveChar(r, sep)) == n
  {
    if n < 1000 then
      var r := Numeral(n);
      RemoveCharNoop(r, sep);
      r
    else
      var hi := Group(n / 1000, sep);
      var lo := Pad3(n % 1000);
      GroupStep(hi, lo, sep);
      hi + [sep] + lo
  }

  /** The canonical Argentine literal of a non-negative amount: `1.234,50`. */
  function FormatAr(c: nat): string {
    Group(c / 100, '.') + "," + Pad2(c % 100)
  }

  /** The canonical US literal of a non-negative amount: `1,234.50`. */
  function FormatUs(c: nat): string {
    Group(c / 100, ',') + "." + Pad2(c % 100)
  }

  /** `float(s.replace(".", "").replace(",", "."))`: the Argentine reading used by most statements. */
  function ParseArPlain(s: string): Option<int> {
    ParseDecimal(ReplaceChar(RemoveChar(s, '.'), ',', '.'))
  }

  /** `float(s.replace(",", ""))`: the US reading. */
  function ParseUsPlain(s: string): Option<int> {
    ParseDecimal(RemoveChar(s, ','))
  }

  lemma GroupedDigitsOnly(s: string, sep: char)
    requires IsGrouped(s, sep)
    ensures forall i :: 0 <= i < |s| ==> IsDigit(s[i]) || s[i] == sep
    decreases |s|
  {
    if !(1 <= |s| <= 3 && AllDigits(s)) {
      GroupedDigitsOnly(s[..|s| - 4], sep);
    }
  }

  lemma ArRewrite(g: string, f: string)
    requires forall i :: 0 <= i < |g| ==> g[i] != ','
    requires AllDigits(f)
    ensures ParseArPlain(g + "," + f) == ParseDecimal(RemoveChar(g, '.') + "." + f)
  {
    RemoveCharAround(g, ',', f, '.');
    RemoveCharKeeps(g, '.', ',');
    ReplaceCharSingle(RemoveChar(g, '.'), f, ',', '.');
  }

  lemma UsRewrite(g: string, f: string)
    requires AllDigits(f)
    ensures RemoveChar(g + "." + f, ',') == RemoveChar(g, ',') + "." + f
  {
    RemoveCharAround(g, '.', f, ',');
  }

  /** The canonical Argentine literal has the Argentine shape. */
  lemma ArFormatShape(c: nat)
    ensures IsArLiteral(FormatAr(c))
  {
    var g, f := Group(c / 100, '.'), Pad2(c % 100);
    var s := g + "," + f;
    assert s[..|s| - 3] == g && s[|s| - 2..] == f;
  }

  lemma ArFormatEndsInDigit(c: nat)
    ensures FormatAr(c) != [] && IsDigit(FormatAr(c)[|FormatAr(c)| - 1])
  {
    var g, f := Group(c / 100, '.'), Pad2(c % 100);
    assert (g + "," + f)[|g| + 2] == f[1];
  }

  /** The canonical Argentine literal reads back as the same amount. */
  lemma ArRoundTrip(c: nat)
    ensures ParseArPlain(FormatAr(c)) == Some(c)
  {
    var g, f := Group(c / 100, '.'), Pad2(c % 100);
    var d := RemoveChar(g, '.');
    assert ParseArPlain(FormatAr(c)) == ParseDecimal(d + "." + f) by {
      GroupedDigitsOnly(g, '.');
      ArRewrite(g, f);
    }
    assert ParseDecimal(d + "." + f) == Some(c) by {
      ParseTwoDecimals(d, f, c / 100, c % 100);
      SplitCents(c);
    }
  }

  /** A grouped integer starts and ends with a digit. */
  lemma {:induction false} GroupedEnds(g: string, sep: char)
    requires IsGrouped(g, sep)
    ensures g != [] && IsDigit(g[0]) && IsDigit(g[|g| - 1])
    decreases |g|
  {
    if !(1 <= |g| <= 3 && AllDigits(g)) {
      GroupedEnds(g[..|g| - 4], sep);
    }
  }

  /** A minus in front of a text that starts with a digit negates its Argentine reading. */
  lemma ArPlainNegative(t: string)
    requires t != [] && IsDigit(t[0])
    ensures ParseArPlain("-" + t) == Negate(ParseArPlain(t))
  {
    var r := RemoveChar(t, '.');
    assert RemoveChar("-" + t, '.') == "-" + r by {
      assert ("-" + t)[1..] == t;
    }
    assert r == [t[0]] + RemoveChar(t[1..], '.');
    var b := ReplaceChar(r, ',', '.');
    assert ReplaceChar("-" + r, ',', '.') == "-" + b;
    assert b != [] && b[0] == t[0];
    ParseNegative(b);
    ParseUnsigned(b);
  }

  /** The canonical Argentine literal reads back as its amount, and with a leading minus as the opposite. */
  lemma ArSignedRoundTrip(c: nat)
    ensures ParseArPlain(FormatAr(c)) == Some(c)
    ensures ParseArPlain("-" + FormatAr(c)) == Some(-(c as int))
  {
    ArRoundTrip(c);
    ArFormatStartsWithDigit(c);
    ArPlainNegative(FormatAr(c));
  }

  lemma ArFormatStartsWithDigit(c: nat)
    ensures FormatAr(c) != [] && IsDigit(FormatAr(c)[0])
  {
    var g := Group(c / 100, '.');
    GroupedEnds(g, '.');
    assert FormatAr(c)[0] == g[0];
  }

  /** The canonical US literal has the US shape. */
  lemma UsFormatShape(c: nat)
    ensures IsUsLiteral(FormatUs(c))
  {
    var g, f := Group(c / 100, ','), Pad2(c % 100);
    var s := g + "." + f;
    assert s[..|s| - 3] == g && s[|s| - 2..] == f;
  }

  /** The canonical US literal reads back as the same amount. */
  lemma UsRoundTrip(c: nat)
    ensures ParseUsPlain(FormatUs(c)) == Some(c)
  {
    var g, f := Group(c / 100, ','), Pad2(c % 100);
    var d := RemoveChar(g, ',');
    assert ParseUsPlain(FormatUs(c)) == ParseDecimal(d + "." + f) by {
      UsRewrite(g, f);
    }
    assert ParseDecimal(d + "." + f) == Some(c) by {
      ParseTwoDecimals(d, f, c / 100, c % 100);
      SplitCents(c);
    }
  }

  /** Dropping the separators of a grouped integer leaves its digits. */
  lemma {:induction false} GroupedRemoved(g: string, sep: char)
    requires IsGrouped(g, sep) && !IsDigit(sep)
    ensures RemoveChar(g, sep) != [] && AllDigits(RemoveChar(g, sep))
    decreases |g|
  {
    if 1 <= |g| <= 3 && AllDigits(g) {
      RemoveCharNoop(g, sep);
    } else {
      var hi, lo := g[..|g| - 4], g[|g| - 3..];
      assert g == hi + [sep] + lo;
      GroupedRemoved(hi, sep);
      RemoveCharAround(hi, sep, lo, sep) by {
        assert forall i :: 0 <= i < |lo| ==> lo[i] != sep;
      }
    }
  }

  /**
   * Every Argentine literal reads as a number: its integer part with the thousands points
   * dropped, and its two decimals after the comma.
   */
  lemma ArLiteralValue(t: string)
    requires IsArLiteral(t)
    ensures RemoveChar(t[..|t| - 3], '.') != [] && AllDigits(RemoveChar(t[..|t| - 3], '.'))
    ensures ParseArPlain(t)
      == Some(DigitsValue(RemoveChar(t[..|t| - 3], '.')) * 100 + DigitsValue(t[|t| - 2..]))
  {
    var g, f := t[..|t| - 3], t[|t| - 2..];
    assert t == g + "," + f;
    GroupedRemoved(g, '.');
    GroupedDigitsOnly(g, '.');
    ArRewrite(g, f);
    var d := RemoveChar(g, '.');
    ParseTwoDecimals(d, f, DigitsValue(d), DigitsValue(f));
  }

  /**
   * Every US literal reads as a number: its integer part with the thousands commas
   * dropped, and its two decimals after the point.
   */
  lemma UsLiteralValue(t: string)
    requires IsUsLiteral(t)
    ensures RemoveChar(t[..|t| - 3], ',') != [] && AllDigits(RemoveChar(t[..|t| - 3], ','))
    ensures ParseUsPlain(t)
      == Some(DigitsValue(RemoveChar(t[..|t| - 3], ',')) * 100 + DigitsValue(t[|t| - 2..]))
  {
    var g, f := t[..|t| - 3], t[|t| - 2..];
    assert t == g + "." + f;
    GroupedRemoved(g, ',');
    UsRewrite(g, f);
    var d := RemoveChar(g, ',');
    ParseTwoDecimals(d, f, DigitsValue(d), DigitsValue(f));
  }

  // ---------------------------------------------------------------------------
  // Tokens with a minus anywhere

  /**
   * `float(t.replace(".", "").replace(",", ".").replace("-", "")) * (-1 if "-" in t else 1)`:
   * a token read the Argentine way with every minus dropped, then negated if it had one.
   */
  function SignedAr(t: string): (r: Option<int>) {
    var v := ParseDecimal(RemoveChar(ReplaceChar(RemoveChar(t, '.'), ',', '.'), '-'));
    if '-' in t then Negate(v) else v
  }

  /** A token reads as the Argentine reading of the token without its minus signs, negated when it had one, wherever the minus stands. */
  lemma SignedArReading(t: string)
    ensures SignedAr(t) == if '-' in t then Negate(ParseArPlain(RemoveChar(t, '-'))) else ParseArPlain(RemoveChar(t, '-'))
    ensures '-' !in t ==> SignedAr(t) == ParseArPlain(t)
  {
    RemoveReplaceCommute(RemoveChar(t, '.'), '-', ',', '.');
    RemoveRemoveCommute(t, '.', '-');
    if '-' !in t {
      RemoveCharNoop(t, '-');
    }
  }

  /** An Argentine literal has no minus sign. */
  lemma NoMinusInArLiteral(t: string)
    requires IsArLiteral(t)
    ensures '-' !in t
  {
    var g, f := t[..|t| - 3], t[|t| - 2..];
    GroupedDigitsOnly(g, '.');
    assert forall i :: 0 <= i < |t| ==> t[i] != '-' by {
      forall i | 0 <= i < |t|
        ensures t[i] != '-'
      {
        if i < |g| {
          assert t[i] == g[i];
        } else if i > |g| {
          assert t[i] == f[i - |g| - 1];
        }
      }
    }
  }

  /** The printed amount `1.234,56` reads back as itself, and with a minus before or after it as its opposite. */
  lemma SignedArRoundTrip(c: nat)
    ensures SignedAr(FormatAr(c)) == Some(c)
    ensures SignedAr(FormatAr(c) + "-") == Some(-(c as int))
    ensures SignedAr("-" + FormatAr(c)) == Some(-(c as int))
  {
    ArFormatShape(c);
    NoMinusInArLiteral(FormatAr(c));
    ArRoundTrip(c);
    SignedArPlain(FormatAr(c));
    SignedArTrailing(FormatAr(c));
    SignedArLeading(FormatAr(c));
  }

  lemma SignedArPlain(t: string)
    requires '-' !in t
    ensures SignedAr(t) == ParseArPlain(t)
  {
    SignedArReading(t);
  }

  /** A minus after a token without one negates its reading. */
  lemma SignedArTrailing(t: string)
    requires '-' !in t
    ensures SignedAr(t + "-") == Negate(ParseArPlain(t))
  {
    var u := t + "-";
    assert u[|t|] == '-';
    SignedArReading(u);
    RemoveCharAppend(t, "-", '-');
    RemoveCharNoop(t, '-');
    assert RemoveChar("-", '-') == [];
    assert RemoveChar(u, '-') == t;
  }

  /** A minus before a token without one negates its reading. */
  lemma SignedArLeading(t: string)
    requires '-' !in t
    ensures SignedAr("-" + t) == Negate(ParseArPlain(t))
  {
    var u := "-" + t;
    assert u[0] == '-';
    SignedArReading(u);
    assert u[1..] == t;
    RemoveCharNoop(t, '-');
    assert RemoveChar(u, '-') == t;
  }

  // ---------------------------------------------------------------------------
  // Literals whose groups are marked by either a point or a comma

  /** A mark that some patterns accept between digit groups and before the decimals. */
  predicate IsMark(c: char) {
    c == '.' || c == ','
  }

  /** `\d{1,3}(?:[\.,]\d{3})*`: one to three digits, then groups of a mark and three digits. */
  predicate IsMixedGrouped(s: string)
    decreases |s|
  {
    (1 <= |s| <= 3 && AllDigits(s))
    || (|s| >= 5 && IsMark(s[|s| - 4]) && AllDigits(s[|s| - 3..]) && IsMixedGrouped(s[..|s| - 4]))
  }

  /** Where the longest run of `[\.,]\d{3}` groups starting at `q` ends. */
  function MarkGroupsEnd(s: string, q: nat): (e: nat)
    requires q <= |s|
    decreases |s| - q
    ensures q <= e <= |s|
  {
    if q + 4 <= |s| && IsMark(s[q]) && DigitsAt(s, q + 1, 3) then MarkGroupsEnd(s, q + 4) else q
  }

  lemma {:induction false} MarkGroupsGrouped(s: string, p: nat, q: nat)
    requires p <= q <= |s| && IsMixedGrouped(s[p..q])
    ensures IsMixedGrouped(s[p..MarkGroupsEnd(s, q)])
    decreases |s| - q
  {
    if q + 4 <= |s| && IsMark(s[q]) && DigitsAt(s, q + 1, 3) {
      var t := s[p..q + 4];
      assert t[..|t| - 4] == s[p..q] && t[|t| - 4] == s[q];
      assert t[|t| - 3..] == s[q + 1..q + 4];
      MarkGroupsGrouped(s, p, q + 4);
    }
  }

  // ---------------------------------------------------------------------------
  // Matching at a position, and finding every match

  /** Where the longest run of `<sep>ddd` groups starting at `q` ends. */
  function GroupsEnd(s: string, q: nat, sep: char): (e: nat)
    requires q <= |s|
    decreases |s| - q
    ensures q <= e <= |s|
  {
    if q + 4 <= |s| && s[q] == sep && AllDigits(s[q + 1..q + 4]) then GroupsEnd(s, q + 4, sep) else q
  }

  lemma {:induction false} GroupsEndGrouped(s: string, p: nat, q: nat, sep: char)
    requires p <= q <= |s| && IsGrouped(s[p..q], sep)
    ensures IsGrouped(s[p..GroupsEnd(s, q, sep)], sep)
    decreases |s| - q
  {
    if q + 4 <= |s| && s[q] == sep && AllDigits(s[q + 1..q + 4]) {
      var t := s[p..q + 4];
      assert t[..|t| - 4] == s[p..q] && t[|t| - 4] == sep && t[|t| - 3..] == s[q + 1..q + 4];
      GroupsEndGrouped(s, p, q + 4, sep);
    }
  }

  /**
   * The match of `\d{1,3}(?:<sep>\d{3})*<dec>\d{2}` when the regex engine tries position `p`,
   * as its end index. The digits at `p` must be the whole run (at most three), the separator
   * groups are taken as far as they go, and then the decimal mark and two digits must follow:
   * backtracking to fewer digits or fewer groups always leaves a digit or a separator where the
   * decimal mark is needed, so no other way of matching exists.
   */
  function GroupedAt(s: string, p: nat, sep: char, dec: char): (r: Option<nat>)
    ensures r.Some? ==> p < r.value <= |s| && IsGroupedLiteral(s[p..(r.value)], sep, dec)
  {
    if p >= |s| then None
    else
      var k := DigitEnd(s, p);
      assert AllDigits(s[p..k]);
      if k == p || k - p > 3 then None
      else
        var q := GroupsEnd(s, k, sep);
        if q + 3 <= |s| && s[q] == dec && IsDigit(s[q + 1]) && IsDigit(s[q + 2]) then
          GroupedLiteralAt(s, p, k, q, sep, dec);
          Some(q + 3)
        else None
  }

  lemma GroupedLiteralAt(s: string, p: nat, k: nat, q: nat, sep: char, dec: char)
    requires p < k <= p + 3 && k <= |s| && AllDigits(s[p..k]) && q == GroupsEnd(s, k, sep)
    requires q + 3 <= |s| && s[q] == dec && IsDigit(s[q + 1]) && IsDigit(s[q + 2])
    ensures IsGroupedLiteral(s[p..q + 3], sep, dec)
  {
    GroupsEndGrouped(s, p, k, sep);
    var t := s[p..q + 3];
    assert t[..|t| - 3] == s[p..q] && t[|t| - 3] == dec && t[|t| - 2..] == s[q + 1..q + 3];
  }

  /** `s` holds, from `q` to `e`, nothing but groups of a separator and three digits. */
  predicate GroupsFrom(s: string, q: nat, e: nat, sep: char)
    decreases e - q
  {
    q == e || (q + 4 <= e <= |s| && s[q] == sep && AllDigits(s[q + 1..q + 4]) && GroupsFrom(s, q + 4, e, sep))
  }

  /** One more group at the end of a run of groups. */
  lemma {:induction false} GroupsFromSnoc(s: string, q: nat, e: nat, sep: char)
    requires q <= e && GroupsFrom(s, q, e, sep)
    requires e + 4 <= |s| && s[e] == sep && AllDigits(s[e + 1..e + 4])
    ensures GroupsFrom(s, q, e + 4, sep)
    decreases e - q
  {
    if q < e {
      GroupsFromSnoc(s, q + 4, e, sep);
    }
  }

  /** A grouped integer read from the left: one to three digits up to `k`, then groups up to its end. */
  lemma {:induction false} GroupedStart(s: string, p: nat, e: nat, sep: char) returns (k: nat)
    requires p <= e <= |s| && IsGrouped(s[p..e], sep)
    ensures p < k <= p + 3 && k <= e && AllDigits(s[p..k]) && GroupsFrom(s, k, e, sep)
    decreases e - p
  {
    var g := s[p..e];
    if 1 <= |g| <= 3 && AllDigits(g) {
      k := e;
    } else {
      assert s[p..e - 4] == g[..|g| - 4];
      k := GroupedStart(s, p, e - 4, sep);
      assert s[e - 4] == g[|g| - 4] && s[e - 3..e] == g[|g| - 3..];
      GroupsFromSnoc(s, k, e - 4, sep);
    }
  }

  /** The greedy group scan stops where the groups stop, when no separator follows them. */
  lemma {:induction false} GroupsEndAt(s: string, q: nat, e: nat, sep: char)
    requires q <= e < |s| && GroupsFrom(s, q, e, sep) && s[e] != sep
    ensures GroupsEnd(s, q, sep) == e
    decreases e - q
  {
    if q < e {
      GroupsEndAt(s, q + 4, e, sep);
    }
  }

  /** The greedy digit scan stops at the first non-digit. */
  lemma {:induction false} DigitEndAt(s: string, p: nat, k: nat)
    requires p <= k < |s| && AllDigits(s[p..k]) && !IsDigit(s[k])
    ensures DigitEnd(s, p) == k
    decreases k - p
  {
    if p < k {
      assert s[p] == s[p..k][0];
      assert s[p + 1..k] == s[p..k][1..];
      DigitEndAt(s, p + 1, k);
    }
  }

  /** A grouped literal written at `p` is matched there, whole, whatever follows it. */
  lemma GroupedAtLiteral(s: string, p: nat, t: string, sep: char, dec: char)
    requires IsGroupedLiteral(t, sep, dec) && p + |t| <= |s| && s[p..p + |t|] == t
    requires sep != dec && !IsDigit(sep) && !IsDigit(dec)
    ensures GroupedAt(s, p, sep, dec) == Some(p + |t|)
  {
    var e := p + |t| - 3;
    assert s[p..e] == t[..|t| - 3];
    var k := GroupedStart(s, p, e, sep);
    assert s[e] == t[|t| - 3];
    assert s[e + 1] == t[|t| - 2] && s[e + 2] == t[|t| - 1];
    if k < e {
      assert s[k] == sep;
    }
    DigitEndAt(s, p, k);
    GroupsEndAt(s, k, e, sep);
  }

  /** A matcher: where a match tried at each position ends, if it matches there. */
  ghost predicate IsMatcher(s: string, at: nat -> Option<nat>) {
    forall q: nat :: at(q).Some? ==> q < at(q).value <= |s|
  }

  /**
   * Python's `re.finditer` from position `p`: the spans `(start, end)` of the leftmost
   * match, then of the leftmost match from its end, and so on.
   */
  function Spans(s: string, at: nat -> Option<nat>, p: nat): (r: seq<(nat, nat)>)
    requires IsMatcher(s, at)
    decreases |s| - p
    ensures forall k :: 0 <= k < |r| ==> p <= r[k].0 < r[k].1 <= |s| && at(r[k].0) == Some(r[k].1)
    ensures forall k :: 0 <= k < |r| - 1 ==> r[k].1 <= r[k + 1].0
    ensures forall q: nat :: p <= q && (r == [] || q < r[0].0) ==> at(q).None?
  {
    if p >= |s| then []
    else match at(p)
      case Some(e) => [(p, e)] + Spans(s, at, e)
      case None => Spans(s, at, p + 1)
  }

  /** The matched texts of a list of spans. */
  function Texts(s: string, spans: seq<(nat, nat)>): (r: seq<string>)
    requires forall k :: 0 <= k < |spans| ==> spans[k].0 <= spans[k].1 <= |s|
    ensures |r| == |spans| && forall k :: 0 <= k < |r| ==> r[k] == s[spans[k].0..spans[k].1]
  {
    if spans == [] then [] else [s[spans[0].0..spans[0].1]] + Texts(s, spans[1..])
  }

  /** Python's `re.findall` for a pattern without groups. */
  function FindAll(s: string, at: nat -> Option<nat>): (r: seq<string>)
    requires IsMatcher(s, at)
  {
    Texts(s, Spans(s, at, 0))
  }

  /** Python's `re.search`: the leftmost match, if any. */
  function Search(s: string, at: nat -> Option<nat>): (r: Option<(nat, nat)>)
    requires IsMatcher(s, at)
    ensures r.Some? ==> r.value.0 < r.value.1 <= |s| && at(r.value.0) == Some(r.value.1)
    ensures r.Some? ==> forall q: nat :: q < r.value.0 ==> at(q).None?
    ensures r.None? ==> forall q: nat :: at(q).None?
  {
    var sp := Spans(s, at, 0);
    if sp == [] then
      assert forall q: nat :: q >= |s| ==> at(q).None?;
      None
    else Some(sp[0])
  }

  /** Python's `re.search(r"\d{1,3}(?:\.\d{3})*,\d{2}", s)`: the first Argentine literal of a text. */
  function FirstAr(s: string): (r: Option<string>)
    ensures r.Some? ==> IsArLiteral(r.value)
    ensures r.Some? <==> exists q: nat :: GroupedAt(s, q, '.', ',').Some?
  {
    var at := (q: nat) => GroupedAt(s, q, '.', ',');
    assert IsMatcher(s, at);
    match Search(s, at)
    case None =>
      assert forall q: nat :: GroupedAt(s, q, '.', ',').None? by {
        forall q: nat
          ensures GroupedAt(s, q, '.', ',').None?
        {
          assert at(q).None?;
        }
      }
      None
    case Some(span) =>
      assert at(span.0).Some?;
      Some(s[span.0..span.1])
  }

  /** Python's `re.sub(pattern, "", s)` from position `p`: the text with every match removed. */
  function RemoveMatches(s: string, at: nat -> Option<nat>, p: nat): (r: string)
    requires IsMatcher(s, at) && p <= |s|
    decreases |s| - p
    ensures |r| <= |s| - p
  {
    if p == |s| then []
    else match at(p)
      case Some(e) => RemoveMatches(s, at, e)
      case None => [s[p]] + RemoveMatches(s, at, p + 1)
  }

  /** Where nothing matches, removing the matches changes nothing. */
  lemma {:induction false} RemoveNoMatches(s: string, at: nat -> Option<nat>, p: nat)
    requires IsMatcher(s, at) && p <= |s| && forall q: nat :: at(q).None?
    ensures RemoveMatches(s, at, p) == s[p..]
    decreases |s| - p
  {
    if p < |s| {
      RemoveNoMatches(s, at, p + 1);
      assert s[p..] == [s[p]] + s[p + 1..];
    }
  }

  /** When no position matches, `finditer` finds nothing. */
  lemma {:induction false} NoMatchNoSpans(s: string, at: nat -> Option<nat>, p: nat)
    requires IsMatcher(s, at) && forall q: nat :: at(q).None?
    ensures Spans(s, at, p) == []
    decreases |s| - p
  {
    if p < |s| {
      NoMatchNoSpans(s, at, p + 1);
    }
  }

  /** When the first match from `q` on is the one from `p` to `e`, `finditer` finds it, then resumes at `e`. */
  lemma {:induction false} FirstSpan(s: string, at: nat -> Option<nat>, q: nat, p: nat, e: nat)
    requires IsMatcher(s, at) && q <= p
    requires forall j: nat :: q <= j < p ==> at(j).None?
    requires at(p) == Some(e)
    ensures Spans(s, at, q) == [(p, e)] + Spans(s, at, e)
    decreases p - q
  {
    if q < p {
      SpanSkip(s, at, q);
      FirstSpan(s, at, q + 1, p, e);
    } else {
      SpanAt(s, at, p, e);
    }
  }

  /** No match at `q`: `finditer` moves on to the next position. */
  lemma SpanSkip(s: string, at: nat -> Option<nat>, q: nat)
    requires IsMatcher(s, at) && at(q).None?
    ensures Spans(s, at, q) == Spans(s, at, q + 1)
  {
    if q >= |s| {
      assert Spans(s, at, q + 1) == [];
    }
  }

  /** A match at `p` is the first span from `p`. */
  lemma SpanAt(s: string, at: nat -> Option<nat>, p: nat, e: nat)
    requires IsMatcher(s, at) && at(p) == Some(e)
    ensures Spans(s, at, p) == [(p, e)] + Spans(s, at, e)
  {
    assert p < |s|;
  }

  /**
   * When the first match runs from `p1` to `e1`, nothing matches at `e1`, and the next
   * position matches to the end of the text, `finditer` finds those two.
   */
  lemma TwoSpansAt(s: string, at: nat -> Option<nat>, p1: nat, e1: nat, p2: nat)
    requires IsMatcher(s, at) && forall j: nat :: j < p1 ==> at(j).None?
    requires at(p1) == Some(e1) && at(e1).None? && p2 == e1 + 1 && at(p2) == Some(|s|)
    ensures Spans(s, at, 0) == [(p1, e1), (p2, |s|)]
  {
    FirstSpan(s, at, 0, p1, e1);
    SpanSkip(s, at, e1);
    SpanAt(s, at, p2, |s|);
    assert Spans(s, at, |s|) == [];
  }

  /** When the only match from `q` on is one from `p` to the end of the text, `finditer` finds just that one. */
  lemma {:induction false} SingleSpan(s: string, at: nat -> Option<nat>, p: nat, q: nat)
    requires IsMatcher(s, at) && q <= p
    requires forall j: nat :: q <= j < p ==> at(j).None?
    requires at(p) == Some(|s|)
    ensures Spans(s, at, q) == [(p, |s|)]
    decreases p - q
  {
    if q < p {
      SingleSpan(s, at, p, q + 1);
    } else {
      assert Spans(s, at, |s|) == [];
    }
  }

  /** Python's `abs` on an amount. */
  function Abs(x: int): (r: int)
    ensures r >= 0 && (r == x || r == -x)
  {
    if x < 0 then -x else x
  }

  /** Negates a parsed amount. */
  function Negate(v: Option<int>): (r: Option<int>)
    ensures r.Some? <==> v.Some?
    ensures r.Some? ==> r.value == -v.value
  {
    match v
    case Some(x) => Some(-x)
    case None => None
  }
}
