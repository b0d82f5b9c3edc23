/**
 * Banco Hipotecario statements.
 *
 * Amounts are US literals (`1,234.56`) with an optional minus sign before or after them.
 * The opening and closing balances come from the first line that shows at least five
 * amounts, or else from five peso amounts in a row anywhere in the text. Every line that
 * starts with a date is a movement: its last word is the amount, the words in between are
 * the description, and the description's keywords decide whether it is a credit or a debit.
 */
module Hipotecario {
  import opened Text
  import opened Optional
  import opened Amounts
  import Ledger

  // ---------------------------------------------------------------------------
  // `parse_amount`

  /** `float(s.replace(",", ""))`, which ignores surrounding blanks; a text it refuses reads as zero. */
  function Float(s: string): int {
    ParseDecimal(Strip(RemoveChar(s, ','))).GetOr(0)
  }

  /**
   * `parse_amount`: the text is stripped; a trailing minus negates, and otherwise a leading
   * minus does; the rest is read with its commas dropped, and a text that does not read is zero.
   */
  function ParseAmount(s: string): int {
    var signed := Signed(Strip(s));
    signed.0 * Float(signed.1)
  }

  /** The sign of a stripped amount text, and what is left of it for `float()`. */
  function Signed(t: string): (int, string) {
    if t != [] && t[|t| - 1] == '-' then (-1, t[..|t| - 1])
    else if t != [] && t[0] == '-' then (-1, t[1..])
    else (1, t)
  }

  /** The canonical US literal starts and ends with a digit. */
  lemma UsEdges(c: nat)
    ensures var f := FormatUs(c); f != [] && IsDigit(f[0]) && IsDigit(f[|f| - 1])
  {
    var g, d := Group(c / 100, ','), Pad2(c % 100);
    GroupedEnds(g, ',');
    var f := g + "." + d;
    assert f[0] == g[0] && f[|f| - 1] == d[1];
  }

  /** The canonical US literal is one word: digits, commas and a point. */
  lemma UsWord(c: nat)
    ensures IsWord(FormatUs(c))
  {
    var g, d := Group(c / 100, ','), Pad2(c % 100);
    GroupedDigitsOnly(g, ',');
    var f := g + "." + d;
    assert forall i :: 0 <= i < |g| ==> f[i] == g[i];
    assert forall i :: |g| < i < |f| ==> f[i] == d[i - |g| - 1];
  }

  /** A US literal without its commas starts and ends with a digit. */
  lemma UsPlainEdges(c: nat)
    ensures RemoveChar(FormatUs(c), ',') != []
    ensures IsDigit(RemoveChar(FormatUs(c), ',')[0]) && IsDigit(RemoveChar(FormatUs(c), ',')[|RemoveChar(FormatUs(c), ',')| - 1])
  {
    var g, f := Group(c / 100, ','), Pad2(c % 100);
    var d := RemoveChar(g, ',');
    UsRewrite(g, f);
    var p := d + "." + f;
    assert p[0] == d[0] && p[|p| - 1] == f[1];
  }

  /** A US literal without its commas reads as the amount, and after a minus as its opposite. */
  lemma UsPlainReads(c: nat)
    ensures ParseDecimal(RemoveChar(FormatUs(c), ',')) == Some(c)
    ensures ParseDecimal("-" + RemoveChar(FormatUs(c), ',')) == Some(-(c as int))
  {
    UsPlainEdges(c);
    UsRoundTrip(c);
    NegativeReads(RemoveChar(FormatUs(c), ','), c);
  }

  /** A minus before an unsigned literal negates what it reads as. */
  lemma NegativeReads(p: string, c: nat)
    requires p != [] && IsDigit(p[0]) && ParseDecimal(p) == Some(c)
    ensures ParseDecimal("-" + p) == Some(-(c as int))
  {
    ParseUnsigned(p);
    ParseNegative(p);
  }

  /** `float()` of a text whose comma-free form is already stripped. */
  lemma FloatStripped(f: string, p: string)
    requires p == RemoveChar(f, ',') && p != [] && !IsSpace(p[0]) && !IsSpace(p[|p| - 1])
    ensures Float(f) == ParseDecimal(p).GetOr(0)
  {
    StripNoop(p);
  }

  /** `float()` of a minus and a text whose comma-free form is already stripped. */
  lemma FloatStrippedMinus(f: string, p: string)
    requires p == RemoveChar(f, ',') && p != [] && !IsSpace(p[|p| - 1])
    ensures Float("-" + f) == ParseDecimal("-" + p).GetOr(0)
  {
    RemoveCharAppend("-", f, ',');
    assert RemoveChar("-", ',') == "-" by {
      assert "-"[1..] == [];
    }
    var q := "-" + p;
    assert q[|q| - 1] == p[|p| - 1];
    StripNoop(q);
  }

  /** `float()` reads a canonical US literal as its amount. */
  lemma FloatUs(c: nat)
    ensures Float(FormatUs(c)) == c
  {
    UsPlainEdges(c);
    UsPlainReads(c);
    FloatStripped(FormatUs(c), RemoveChar(FormatUs(c), ','));
  }

  /** `float()` reads a minus and a canonical US literal as the opposite of the amount. */
  lemma FloatUsMinus(c: nat)
    ensures Float("-" + FormatUs(c)) == -(c as int)
  {
    UsPlainEdges(c);
    UsPlainReads(c);
    FloatStrippedMinus(FormatUs(c), RemoveChar(FormatUs(c), ','));
  }

  /** Every printed amount reads back: plain, with a leading minus, or with a trailing minus. */
  lemma ParseAmountForms(c: nat)
    ensures ParseAmount(FormatUs(c)) == c
    ensures ParseAmount("-" + FormatUs(c)) == -(c as int)
    ensures ParseAmount(FormatUs(c) + "-") == -(c as int)
  {
    PlainForm(c);
    LeadingMinusForm(c);
    TrailingMinusForm(c);
  }

  lemma PlainForm(c: nat)
    ensures ParseAmount(FormatUs(c)) == c
  {
    UsEdges(c);
    FloatUs(c);
    ParsePlain(FormatUs(c));
  }

  lemma LeadingMinusForm(c: nat)
    ensures ParseAmount("-" + FormatUs(c)) == -(c as int)
  {
    UsEdges(c);
    FloatUs(c);
    ParseLeadingMinus(FormatUs(c));
  }

  lemma TrailingMinusForm(c: nat)
    ensures ParseAmount(FormatUs(c) + "-") == -(c as int)
  {
    UsEdges(c);
    FloatUs(c);
    ParseTrailingMinus(FormatUs(c));
  }

  lemma ParsePlain(f: string)
    requires f != [] && IsDigit(f[0]) && IsDigit(f[|f| - 1])
    ensures ParseAmount(f) == Float(f)
  {
    StripNoop(f);
    assert Signed(f) == (1, f);
  }

  lemma ParseLeadingMinus(f: string)
    requires f != [] && IsDigit(f[0]) && IsDigit(f[|f| - 1])
    ensures ParseAmount("-" + f) == -Float(f)
  {
    SignedLeading(f);
  }

  lemma SignedLeading(f: string)
    requires f != [] && IsDigit(f[|f| - 1])
    ensures Strip("-" + f) == "-" + f && Signed("-" + f) == (-1, f)
  {
    var l := "-" + f;
    assert l[|l| - 1] == f[|f| - 1] && l[1..] == f;
    StripNoop(l);
  }

  lemma ParseTrailingMinus(f: string)
    requires f != [] && !IsSpace(f[0])
    ensures ParseAmount(f + "-") == -Float(f)
  {
    SignedTrailing(f);
  }

  lemma SignedTrailing(f: string)
    requires f != [] && !IsSpace(f[0])
    ensures Strip(f + "-") == f + "-" && Signed(f + "-") == (-1, f)
  {
    var r := f + "-";
    assert r[0] == f[0] && r[..|r| - 1] == f;
    StripNoop(r);
  }

  /** Minus signs on both sides cancel: the trailing one is taken off, and `float()` reads the leading one. */
  lemma BothMinusesCancel(c: nat)
    ensures ParseAmount("-" + FormatUs(c) + "-") == c
  {
    ParseTrailingMinus("-" + FormatUs(c));
    FloatUsMinus(c);
  }

  /** No character of `s` is a digit. */
  predicate Digitless(s: string) {
    forall i :: 0 <= i < |s| ==> !IsDigit(s[i])
  }

  lemma DigitlessSlice(s: string, a: nat, b: nat)
    requires Digitless(s) && a <= b <= |s|
    ensures Digitless(s[a..b])
  {
    assert forall i :: 0 <= i < b - a ==> s[a..b][i] == s[a + i];
  }

  lemma StripDigitless(s: string)
    requires Digitless(s)
    ensures Digitless(Strip(s))
  {
    var l := LStrip(s);
    DigitlessSlice(s, |s| - |l|, |s|);
    assert s[|s| - |l|..|s|] == l;
    var t := RStrip(l);
    DigitlessSlice(l, 0, |t|);
    assert l[0..|t|] == t;
  }

  lemma SignedDigitless(t: string)
    requires Digitless(t)
    ensures Digitless(Signed(t).1)
  {
    if t != [] && t[|t| - 1] == '-' {
      DigitlessSlice(t, 0, |t| - 1);
      assert t[0..|t| - 1] == t[..|t| - 1];
    } else if t != [] && t[0] == '-' {
      DigitlessSlice(t, 1, |t|);
      assert t[1..|t|] == t[1..];
    }
  }

  /** A text without a digit reads as zero. */
  lemma NoDigitsZero(s: string)
    requires Digitless(s)
    ensures ParseAmount(s) == 0
  {
    StripDigitless(s);
    SignedDigitless(Strip(s));
    NoDigitsNoFloat(Signed(Strip(s)).1);
  }

  /** `float()` refuses a text without a digit. */
  lemma NoDigitsNoFloat(s: string)
    requires Digitless(s)
    ensures Float(s) == 0
  {
    var p := Strip(RemoveChar(s, ','));
    NoDigitsKept(s, ',');
    assert forall i :: 0 <= i < |p| ==> !IsDigit(p[i]);
    NoDigitsNoDecimal(p);
  }

  /** Removing a character keeps a text free of digits. */
  lemma {:induction false} NoDigitsKept(s: string, a: char)
    requires forall i :: 0 <= i < |s| ==> !IsDigit(s[i])
    ensures forall i :: 0 <= i < |RemoveChar(s, a)| ==> !IsDigit(RemoveChar(s, a)[i])
  {
    if s != [] {
      NoDigitsKept(s[1..], a);
    }
  }

  /** A decimal literal needs a digit. */
  lemma NoDigitsNoDecimal(p: string)
    requires forall i :: 0 <= i < |p| ==> !IsDigit(p[i])
    ensures ParseDecimal(p).None?
  {
    var b := if p != [] && (p[0] == '-' || p[0] == '+') then p[1..] else p;
    assert forall i :: 0 <= i < |b| ==> !IsDigit(b[i]);
    var parts := DecimalParts(b);
    assert parts.0 != [] ==> !IsDigit(parts.0[0]);
    assert parts.1 != [] ==> !IsDigit(parts.1[0]);
  }

  // ---------------------------------------------------------------------------
  // Amounts in a line: `-?[\d,]+\.\d{2}-?`

  predicate IsDigitOrComma(c: char) {
    IsDigit(c) || c == ','
  }

  /** `[\d,]+\.\d{2}`: digits and commas, then a point and two digits. */
  predicate IsAmountBody(b: string) {
    |b| >= 4 && b[|b| - 3] == '.' && DigitsAt(b, |b| - 2, 2)
    && forall i :: 0 <= i < |b| - 3 ==> IsDigitOrComma(b[i])
  }

  /** `-?[\d,]+\.\d{2}-?`: an amount body with an optional minus on either side. */
  predicate IsAmountText(t: string) {
    t != [] &&
    var a, z := if t[0] == '-' then 1 else 0, if t[|t| - 1] == '-' then 1 else 0;
    a + z <= |t| && IsAmountBody(t[a..|t| - z])
  }

  /**
   * The amount pattern tried at `p`, as its end. The digits and commas run as far as they
   * go, since the point that must follow is neither; a leading minus must be followed by
   * them, and a trailing minus is taken when it is there.
   */
  function AmountAt(s: string, p: nat): (r: Option<nat>)
    ensures r.Some? ==> p < r.value <= |s| && IsAmountText(s[p..(r.value)])
  {
    if p >= |s| then None
    else
      var q := if s[p] == '-' then p + 1 else p;
      var e := DropFrom(s, IsDigitOrComma, q);
      if e == q || e + 3 > |s| || s[e] != '.' || !DigitsAt(s, e + 1, 2) then None
      else
        var z := if e + 3 < |s| && s[e + 3] == '-' then e + 4 else e + 3;
        AmountTextAt(s, p, q, e, z);
        Some(z)
  }

  lemma AmountTextAt(s: string, p: nat, q: nat, e: nat, z: nat)
    requires p < |s| && q == (if s[p] == '-' then p + 1 else p) && q < e && e + 3 <= |s|
    requires forall i :: q <= i < e ==> IsDigitOrComma(s[i])
    requires s[e] == '.' && DigitsAt(s, e + 1, 2)
    requires z == (if e + 3 < |s| && s[e + 3] == '-' then e + 4 else e + 3)
    ensures IsAmountText(s[p..z])
  {
    var t := s[p..z];
    BodyAt(s, q, e);
    assert t[q - p..e + 3 - p] == s[q..e + 3];
    assert t[0] == s[p] && t[|t| - 1] == s[z - 1];
    if z == e + 3 {
      assert t[|t| - 1] == s[e + 2];
    }
  }

  lemma BodyAt(s: string, q: nat, e: nat)
    requires q < e && e + 3 <= |s| && forall i :: q <= i < e ==> IsDigitOrComma(s[i])
    requires s[e] == '.' && DigitsAt(s, e + 1, 2)
    ensures IsAmountBody(s[q..e + 3])
  {
    var b := s[q..e + 3];
    assert forall i :: 0 <= i < |b| ==> b[i] == s[q + i];
  }

  /** A canonical US literal written at `q` is one run of digits and commas up to its point. */
  lemma UsLiteralAt(s: string, q: nat, c: nat)
    requires Placed(s, q, FormatUs(c))
    ensures var e := q + |FormatUs(c)| - 3;
      DropFrom(s, IsDigitOrComma, q) == e && e > q && s[e] == '.' && DigitsAt(s, e + 1, 2)
  {
    var g, d := Group(c / 100, ','), Pad2(c % 100);
    GroupedDigitsOnly(g, ',');
    GroupedEnds(g, ',');
    LiteralAt(s, q, g, d);
  }

  /** Digits and commas, a point and two digits written at `q`: the run of digits and commas ends at the point. */
  lemma LiteralAt(s: string, q: nat, g: string, d: string)
    requires Placed(s, q, g + "." + d) && g != [] && |d| == 2 && AllDigits(d)
    requires forall i :: 0 <= i < |g| ==> IsDigitOrComma(g[i])
    ensures DropFrom(s, IsDigitOrComma, q) == q + |g| && s[q + |g|] == '.' && DigitsAt(s, q + |g| + 1, 2)
  {
    var f := g + "." + d;
    var e := q + |g|;
    assert forall i :: q <= i < e ==> s[i] == f[i - q] == g[i - q];
    assert s[e] == f[|g|] && s[e + 1] == f[|g| + 1] && s[e + 2] == f[|g| + 2];
    DropFromIs(s, IsDigitOrComma, q, e);
  }

  /** A printed amount, plain or with a minus on either side, is matched whole. */
  lemma AmountMatchesWhole(c: nat)
    ensures AmountAt(FormatUs(c), 0) == Some(|FormatUs(c)|)
    ensures AmountAt("-" + FormatUs(c), 0) == Some(|FormatUs(c)| + 1)
    ensures AmountAt(FormatUs(c) + "-", 0) == Some(|FormatUs(c)| + 1)
  {
    PlainMatch(c);
    LeadingMinusMatch(c);
    TrailingMinusMatch(c);
  }

  /** The amount pattern at `p`, once the run of digits and commas is known to end at a point and two digits. */
  lemma MatchAt(s: string, p: nat, q: nat, e: nat)
    requires p < |s| && q == (if s[p] == '-' then p + 1 else p)
    requires DropFrom(s, IsDigitOrComma, q) == e && e > q && e + 3 <= |s| && s[e] == '.' && DigitsAt(s, e + 1, 2)
    ensures AmountAt(s, p) == Some(if e + 3 < |s| && s[e + 3] == '-' then e + 4 else e + 3)
  {
  }

  lemma PlainMatch(c: nat)
    ensures AmountAt(FormatUs(c), 0) == Some(|FormatUs(c)|)
  {
    var f := FormatUs(c);
    UsEdges(c);
    assert Placed(f, 0, f);
    UsLiteralAt(f, 0, c);
    MatchAt(f, 0, 0, |f| - 3);
  }

  lemma LeadingMinusMatch(c: nat)
    ensures AmountAt("-" + FormatUs(c), 0) == Some(|FormatUs(c)| + 1)
  {
    var f := FormatUs(c);
    var l := "-" + f;
    assert Placed(l, 1, f) by {
      assert forall i :: 0 <= i < |f| ==> l[1 + i] == f[i];
    }
    UsLiteralAt(l, 1, c);
    MatchAt(l, 0, 1, |f| - 2);
  }

  lemma TrailingMinusMatch(c: nat)
    ensures AmountAt(FormatUs(c) + "-", 0) == Some(|FormatUs(c)| + 1)
  {
    var f := FormatUs(c);
    var r := f + "-";
    UsEdges(c);
    assert Placed(r, 0, f) by {
      assert forall i :: 0 <= i < |f| ==> r[i] == f[i];
    }
    UsLiteralAt(r, 0, c);
    assert r[0] == f[0] && r[|f|] == '-';
    MatchAt(r, 0, 0, |f| - 3);
  }

  /** `re.finditer` of the amount pattern from `p`: where each amount lies, left to right. */
  function AmountSpans(line: string, p: nat): (r: seq<(nat, nat)>)
    decreases |line| - p
    ensures forall k :: 0 <= k < |r| ==> p <= r[k].0 < r[k].1 <= |line| && AmountAt(line, r[k].0) == Some(r[k].1)
  {
    if p >= |line| then []
    else match AmountAt(line, p)
      case Some(e) => [(p, e)] + AmountSpans(line, e)
      case None => AmountSpans(line, p + 1)
  }

  /** Every amount in a line, left to right (`re.findall`). */
  function LineAmounts(line: string): (r: seq<string>)
    ensures forall k :: 0 <= k < |r| ==> IsAmountText(r[k])
  {
    var sp := AmountSpans(line, 0);
    assert forall k :: 0 <= k < |sp| ==> IsAmountText(line[sp[k].0..sp[k].1]) by {
      forall k | 0 <= k < |sp|
        ensures IsAmountText(line[sp[k].0..sp[k].1])
      {
        assert AmountAt(line, sp[k].0) == Some(sp[k].1);
      }
    }
    Texts(line, sp)
  }

  // ---------------------------------------------------------------------------
  // The balance summary

  /** The header line of the summary names both balances; its values are on a later line. */
  predicate IsSummaryHeader(line: string) {
    Contains(line, "SALDO INICIAL") && Contains(line, "SALDO FINAL")
  }

  /** A line that is not the header and shows at least five amounts. */
  predicate IsSummaryLine(line: string) {
    !IsSummaryHeader(line) && |LineAmounts(line)| >= 5
  }

  /** The first summary line from `from` on. */
  function FirstSummary(lines: seq<string>, from: nat): (r: Option<nat>)
    decreases |lines| - from
    ensures r.Some? ==> from <= r.value < |lines| && IsSummaryLine(lines[r.value])
    ensures r.Some? ==> forall j :: from <= j < r.value ==> !IsSummaryLine(lines[j])
    ensures r.None? ==> forall j :: from <= j < |lines| ==> !IsSummaryLine(lines[j])
  {
    if from >= |lines| then None
    else if IsSummaryLine(lines[from]) then Some(from)
    else FirstSummary(lines, from + 1)
  }

  /** The amounts of the first summary line, if there is one. */
  function SummaryAmounts(lines: seq<string>): (r: Option<seq<string>>)
    ensures r.Some? ==> |r.value| >= 5
  {
    match FirstSummary(lines, 0)
    case Some(k) => Some(LineAmounts(lines[k]))
    case None => None
  }

  /** The line loop that looks for the summary: header lines are passed over, and the first line with five amounts ends it. */
  method FindSummary(lines: seq<string>) returns (raw: Option<seq<string>>)
    ensures raw == SummaryAmounts(lines)
  {
    var i := 0;
    while i < |lines|
      invariant i <= |lines|
      invariant forall j :: 0 <= j < i ==> !IsSummaryLine(lines[j])
    {
      if IsSummaryHeader(lines[i]) {
        i := i + 1;
        continue;
      }
      var matches := LineAmounts(lines[i]);
      if |matches| >= 5 {
        FirstSummaryIs(lines, i);
        return Some(matches);
      }
      i := i + 1;
    }
    return None;
  }

  /** A summary line with none before it is the first one. */
  lemma FirstSummaryIs(lines: seq<string>, k: nat)
    requires k < |lines| && IsSummaryLine(lines[k])
    requires forall j :: 0 <= j < k ==> !IsSummaryLine(lines[j])
    ensures FirstSummary(lines, 0) == Some(k)
  {
    var r := FirstSummary(lines, 0);
    assert r.Some?;
    assert !(r.value < k) && !(k < r.value);
  }

  /** `\$\s+` and an amount at `p`: where the amount starts and ends. */
  function PesoAmountAt(s: string, p: nat): (r: Option<(nat, nat)>)
    ensures r.Some? ==> p + 1 < r.value.0 < r.value.1 <= |s| && IsAmountText(s[r.value.0..(r.value.1)])
  {
    if p < |s| && s[p] == '$' then
      var b := SpaceEnd(s, p + 1);
      if b == p + 1 then None
      else match AmountAt(s, b)
        case Some(e) => Some((b, e))
        case None => None
    else None
  }

  /** `n` peso amounts in a row from `p`, separated by blanks: where each amount lies. */
  function RunAt(s: string, p: nat, n: nat): (r: Option<seq<(nat, nat)>>)
    requires n >= 1
    decreases n
    ensures r.Some? ==> |r.value| == n
    ensures r.Some? ==> forall k :: 0 <= k < n ==>
      (r.value[k].0 < r.value[k].1 <= |s| && IsAmountText(s[r.value[k].0..(r.value[k].1)]))
  {
    match PesoAmountAt(s, p)
    case None => None
    case Some(sp) =>
      if n == 1 then Some([sp])
      else
        var b := SpaceEnd(s, sp.1);
        if b == sp.1 then None
        else match RunAt(s, b, n - 1)
          case None => None
          case Some(rest) => Some([sp] + rest)
  }

  /** The first and the last amount of a run of five. */
  datatype Ends = Ends(first: (nat, nat), last: (nat, nat))

  /** `re.search` for five peso amounts in a row, from `p` on: where the first and the last lie. */
  function FiveFrom(s: string, p: nat): (r: Option<Ends>)
    decreases |s| - p
    ensures r.Some? ==> r.value.first.0 < r.value.first.1 <= |s| && IsAmountText(s[r.value.first.0..(r.value.first.1)])
    ensures r.Some? ==> r.value.last.0 < r.value.last.1 <= |s| && IsAmountText(s[r.value.last.0..(r.value.last.1)])
  {
    if p >= |s| then None
    else match RunAt(s, p, 5)
      case Some(run) => Some(Ends(run[0], run[4]))
      case None => FiveFrom(s, p + 1)
  }

  /** The whole extracted text: each line followed by a line break. */
  function TextOf(lines: seq<string>): string {
    if lines == [] then "" else TextOf(lines[..|lines| - 1]) + lines[|lines| - 1] + "\n"
  }

  /** The opening and closing balances. */
  datatype Balances = Balances(opening: int, closing: int)

  /** The two amounts the fallback search finds in the whole text: the first and the last of the run. */
  function FallbackTexts(text: string): (r: Option<(string, string)>)
    ensures r.Some? ==> IsAmountText(r.value.0) && IsAmountText(r.value.1)
  {
    match FiveFrom(text, 0)
    case Some(g) => Some((text[g.first.0..g.first.1], text[g.last.0..g.last.1]))
    case None => None
  }

  /** The texts the balances are read from: the summary line's first and last amount, or else the fallback's. */
  function BalanceTexts(lines: seq<string>): Option<(string, string)> {
    TextsGiven(SummaryAmounts(lines), TextOf(lines))
  }

  /** The summary amounts' first and last, when the summary search found them, or else the fallback's. */
  function TextsGiven(raw: Option<seq<string>>, text: string): Option<(string, string)>
    requires raw.Some? ==> raw.value != []
  {
    match raw
    case Some(ms) => Some((ms[0], ms[|ms| - 1]))
    case None => FallbackTexts(text)
  }

  /** The balances: the two texts read as amounts, or zero when none was found. */
  function BalancesOf(lines: seq<string>): Balances {
    match BalanceTexts(lines)
    case Some(t) => Balances(ParseAmount(t.0), ParseAmount(t.1))
    case None => Balances(0, 0)
  }

  /**
   * The first non-header line with five amounts decides: its amounts are the ones the
   * balances are read from, whatever the text holds elsewhere.
   */
  lemma SummaryDecides(lines: seq<string>, k: nat)
    requires k < |lines| && IsSummaryLine(lines[k])
    requires forall j :: 0 <= j < k ==> !IsSummaryLine(lines[j])
    ensures SummaryAmounts(lines) == Some(LineAmounts(lines[k]))
  {
    FirstSummaryIs(lines, k);
  }

  /** With the summary amounts found, the opening balance is read from the first and the closing balance from the last. */
  lemma TextsOfSummary(ms: seq<string>, text: string)
    requires ms != []
    ensures TextsGiven(Some(ms), text) == Some((ms[0], ms[|ms| - 1]))
  {
  }

  /** Without a summary line and without five peso amounts in a row, both balances are zero. */
  lemma NoSummaryZero(lines: seq<string>)
    requires forall j :: 0 <= j < |lines| ==> !IsSummaryLine(lines[j])
    requires forall p: nat :: p < |TextOf(lines)| ==> RunAt(TextOf(lines), p, 5).None?
    ensures BalanceTexts(lines).None? && BalancesOf(lines) == Balances(0, 0)
  {
    NoRunNoFive(TextOf(lines), 0);
  }

  lemma {:induction false} NoRunNoFive(s: string, p: nat)
    requires forall q: nat :: q < |s| ==> RunAt(s, q, 5).None?
    ensures FiveFrom(s, p).None?
    decreases |s| - p
  {
    if p < |s| {
      NoRunNoFive(s, p + 1);
    }
  }

  // ---------------------------------------------------------------------------
  // Movements

  /** Texts that mark a line as a daily balance rather than a movement. */
  const DailyMarks: seq<string> := ["SALDO FINAL DEL DIA", "SALDO FINAL AL DIA", "SALDO INICIAL"]

  const CreditKeywords: seq<string> := ["N/C", "ACRED", "CREDITO", "DEVOLUCION", "DEPOSITO", "RESCATE", "RECIBISTE"]

  /**
   * Whether a description is a credit: any credit keyword in its upper-cased form makes it
   * one, and so does a cheque description that mentions an accreditation. A debit keyword
   * only sets the flag to its default, a debit.
   */
  function IsCredit(desc: string): bool {
    var u := Upper(desc);
    ContainsAny(u, CreditKeywords) || (Contains(u, "CHEQUE") && Contains(u, "ACREDITACION"))
  }

  /** The cheque rule adds nothing: `ACREDITACION` holds the credit keyword `ACRED`, so a description is a credit exactly when it holds a credit keyword. */
  lemma CreditByKeyword(desc: string)
    ensures IsCredit(desc) <==> ContainsAny(Upper(desc), CreditKeywords)
  {
    var u := Upper(desc);
    if Contains(u, "ACREDITACION") {
      var i :| 0 <= i <= |u| - 12 && OccursAt(u, "ACREDITACION", i);
      assert u[i..i + 5] == u[i..i + 12][..5];
      assert OccursAt(u, CreditKeywords[1], i);
    }
  }

  /** The polarity does not depend on how the description is capitalised. */
  lemma CreditIgnoresCase(desc: string)
    ensures IsCredit(Lower(desc)) == IsCredit(desc) && IsCredit(Upper(desc)) == IsCredit(desc)
  {
    UpperIgnoresCase(desc);
  }

  /** The words between the first and the last (Python's `parts[1:-1]`). */
  function Between(parts: seq<string>): (r: seq<string>)
    ensures |parts| >= 2 ==> r == parts[1..|parts| - 1]
    ensures |parts| < 2 ==> r == []
  {
    if |parts| >= 2 then parts[1..|parts| - 1] else []
  }

  /** A line that starts with a date splits into words, the first of which starts with the date. */
  lemma FirstWordDate(line: string)
    requires DateAt(line, 0, '/', 4)
    ensures Split(line) != [] && DateAt(Split(line)[0], 0, '/', 4)
  {
    DropFromIs(line, IsSpace, 0, 0);
    assert LStrip(line) == line;
    var k := WordLength(line);
    assert !IsSpace(line[9]) && forall i :: 0 <= i < 10 ==> !IsSpace(line[i]);
    assert k >= 10;
    SplitOf(line, line, k);
    var w := line[..k];
    assert forall i :: 0 <= i < 10 ==> w[i] == line[i];
  }

  /**
   * One line of the movement loop: the stripped line must start with `dd/mm/yyyy` and not be
   * a daily balance. Its first word is the date, its last the amount, the words between the
   * description; the amount keeps its sign for a credit and is negated for a debit.
   */
  function LineMovement(raw: string): (r: Option<Ledger.Movement>)
    ensures r.Some? <==> DateAt(Strip(raw), 0, '/', 4) && !ContainsAny(Strip(raw), DailyMarks)
    ensures r.Some? ==> DateAt(r.value.date, 0, '/', 4)
  {
    var line := Strip(raw);
    if !DateAt(line, 0, '/', 4) || ContainsAny(line, DailyMarks) then None
    else
      FirstWordDate(line);
      Some(WordsMovement(Split(line)))
  }

  /** The movement of a line's words: the first is the date, the last the amount, the ones between the description. */
  function WordsMovement(parts: seq<string>): (m: Ledger.Movement)
    requires parts != []
    ensures m.date == parts[0]
  {
    var desc := Join(Between(parts), " ");
    var v := ParseAmount(parts[|parts| - 1]);
    Ledger.Movement(parts[0], CleanForExcel(desc), if IsCredit(desc) then v else -v)
  }

  /** A movement line as printed: the date, the description's words and the amount, separated by blanks. */
  function PrintedLine(date: string, words: seq<string>, c: nat): string {
    Join([date] + words + [FormatUs(c)], " ")
  }

  /**
   * A printed movement line reads back as its movement: the date, the description's words
   * joined by blanks, and the amount, positive exactly when the description holds a credit
   * keyword.
   */
  lemma PrintedRoundTrip(date: string, words: seq<string>, c: nat)
    requires IsWord(date) && DateAt(date, 0, '/', 4) && forall k :: 0 <= k < |words| ==> IsWord(words[k])
    requires !ContainsAny(PrintedLine(date, words, c), DailyMarks)
    ensures LineMovement(PrintedLine(date, words, c)) == Some(Ledger.Movement(date, CleanForExcel(Join(words, " ")),
      if ContainsAny(Upper(Join(words, " ")), CreditKeywords) then c else -(c as int)))
  {
    var parts := [date] + words + [FormatUs(c)];
    UsWord(c);
    AllWords(date, words, FormatUs(c));
    PrintedParts(parts, date);
    LineMovementOf(PrintedLine(date, words, c), parts);
    PrintedWords(date, words, c);
  }

  lemma AllWords(date: string, words: seq<string>, f: string)
    requires IsWord(date) && IsWord(f) && forall k :: 0 <= k < |words| ==> IsWord(words[k])
    ensures forall k :: 0 <= k < |[date] + words + [f]| ==> IsWord(([date] + words + [f])[k])
  {
    var parts := [date] + words + [f];
    forall k | 0 <= k < |parts|
      ensures IsWord(parts[k])
    {
      if 0 < k < |parts| - 1 {
        assert parts[k] == words[k - 1];
      }
    }
  }

  /** The words of a printed line make its movement. */
  lemma PrintedWords(date: string, words: seq<string>, c: nat)
    ensures WordsMovement([date] + words + [FormatUs(c)]) == Ledger.Movement(date, CleanForExcel(Join(words, " ")),
      if ContainsAny(Upper(Join(words, " ")), CreditKeywords) then c else -(c as int))
  {
    var parts := [date] + words + [FormatUs(c)];
    assert Between(parts) == words;
    assert parts[|parts| - 1] == FormatUs(c);
    CreditByKeyword(Join(words, " "));
    ParseAmountForms(c);
  }

  /** Words joined by blanks, the first of them starting with a date: the line is already stripped, starts with the date and splits back into the words. */
  lemma PrintedParts(parts: seq<string>, date: string)
    requires parts != [] && parts[0] == date && DateAt(date, 0, '/', 4)
    requires forall k :: 0 <= k < |parts| ==> IsWord(parts[k])
    ensures Strip(Join(parts, " ")) == Join(parts, " ") && Split(Join(parts, " ")) == parts
    ensures DateAt(Join(parts, " "), 0, '/', 4)
  {
    var l := Join(parts, " ");
    JoinEnds(parts);
    StripNoop(l);
    SplitJoin(parts);
    if |parts| > 1 {
      DateBefore(date, " " + Join(parts[1..], " "));
    }
  }

  /** A text that starts with a date still does with more after it. */
  lemma DateBefore(a: string, b: string)
    requires DateAt(a, 0, '/', 4)
    ensures DateAt(a + b, 0, '/', 4)
  {
    var s := a + b;
    assert forall i :: 0 <= i < 10 ==> s[i] == a[i];
  }

  /** The movement of a stripped, dated line that is not a daily balance, in terms of its words. */
  lemma LineMovementOf(line: string, parts: seq<string>)
    requires Strip(line) == line && DateAt(line, 0, '/', 4) && !ContainsAny(line, DailyMarks) && Split(line) == parts
    ensures parts != [] && LineMovement(line) == Some(WordsMovement(parts))
  {
    FirstWordDate(line);
  }

  /** The movements of the given lines, in order. */
  function ScanAll(lines: seq<string>): seq<Ledger.Movement> {
    if lines == [] then []
    else
      var init := ScanAll(lines[..|lines| - 1]);
      match LineMovement(lines[|lines| - 1])
      case Some(m) => init + [m]
      case None => init
  }

  /** The movement loop: every dated line that is not a daily balance appends its movement. */
  method Scan(lines: seq<string>) returns (ms: seq<Ledger.Movement>)
    ensures ms == ScanAll(lines)
  {
    ms := [];
    for i := 0 to |lines|
      invariant ms == ScanAll(lines[..i])
    {
      assert lines[..i + 1][..i] == lines[..i];
      var m := LineMovement(lines[i]);
      if m.Some? {
        ms := ms + [m.value];
      }
    }
    assert lines[..|lines|] == lines;
  }

  /** The number of lines that are movements. */
  function MovementCount(lines: seq<string>): nat {
    if lines == [] then 0
    else MovementCount(lines[..|lines| - 1]) + if LineMovement(lines[|lines| - 1]).Some? then 1 else 0
  }

  /** There is one movement per dated line that is not a daily balance, and each movement's date starts `dd/mm/yyyy`. */
  lemma {:induction false} MovementsPerLine(lines: seq<string>)
    ensures |ScanAll(lines)| == MovementCount(lines)
    ensures forall k :: 0 <= k < |ScanAll(lines)| ==> DateAt(ScanAll(lines)[k].date, 0, '/', 4)
  {
    if lines != [] {
      MovementsPerLine(lines[..|lines| - 1]);
    }
  }

  // ---------------------------------------------------------------------------
  // The sheet

  /** The sheet: the balances found, and the movements in the order read. */
  function SheetOf(lines: seq<string>): Ledger.Sheet {
    var b := BalancesOf(lines);
    Ledger.ListingSheet("Reporte Hipotecario", b.opening, b.closing, ScanAll(lines))
  }

  /** The balances: the summary line's first and last amount, or else the fallback's. */
  method ReadBalances(lines: seq<string>) returns (balances: Balances)
    ensures balances == BalancesOf(lines)
  {
    var texts := ReadBalanceTexts(lines);
    balances := if texts.Some? then Balances(ParseAmount(texts.value.0), ParseAmount(texts.value.1)) else Balances(0, 0);
  }

  /** The summary line's first and last amount, or else the fallback's. */
  method ReadBalanceTexts(lines: seq<string>) returns (texts: Option<(string, string)>)
    ensures texts == BalanceTexts(lines)
  {
    var raw := FindSummary(lines);
    texts := TextsGiven(raw, TextOf(lines));
  }

  /** The whole statement: no sheet when no line is a movement, otherwise the sheet of the movements and balances read. */
  method Process(lines: seq<string>) returns (sheet: Option<Ledger.Sheet>)
    ensures sheet.None? <==> ScanAll(lines) == []
    ensures sheet.Some? ==> sheet.value == SheetOf(lines)
  {
    var balances := ReadBalances(lines);
    var ms := Scan(lines);
    if ms == [] {
      return None;
    }
    sheet := Some(Ledger.ListingSheet("Reporte Hipotecario", balances.opening, balances.closing, ms));
  }

  /**
   * The credit column holds the positive amounts and the debit column the magnitudes of
   * the negative ones; credits less debits is the net movement, and the control value is
   * zero exactly when the opening balance plus the net movement is the closing balance.
   */
  lemma SheetTotals(lines: seq<string>)
    ensures var s, xs := SheetOf(lines), Ledger.Amounts(ScanAll(lines));
      s.credits == Ledger.Credits(xs) && s.debits == Ledger.Debits(xs)
      && Ledger.Sum(s.credits) - Ledger.Sum(s.debits) == Ledger.Sum(xs)
      && (s.control == Some(0) <==> s.opening + Ledger.Sum(xs) == s.closing)
  {
    Ledger.CreditsMinusDebits(Ledger.Amounts(ScanAll(lines)));
  }
}
