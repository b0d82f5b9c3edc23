/**
 * Banco Santander Río statements, in pesos and in dollars.
 *
 * The pesos listing follows the first "Movimientos en pesos" heading and the dollars
 * listing the first "Movimientos en dólares" heading; a listing ends at the next heading or
 * at the first closing text ("Así usaste tu dinero este mes", "Detalle impositivo"). In
 * each listing a line starting with a `dd/mm/yy` date opens a movement record and the
 * lines that follow continue it. A record's last two money amounts (`$ 1.234,56`,
 * `-$ 100,00`, `U$S 10,00`) are the movement and the balance after it. The opening
 * balance is read from "Saldo Inicial" lines and the closing balance from "Saldo total"
 * lines, which never continue a record.
 */
module Santander {
  import opened Text
  import opened Optional
  import opened Amounts
  import opened Lines
  import Ledger

  // ---------------------------------------------------------------------------
  // The two listings

  const PesosHeading: string := "Movimientos en pesos"
  const DolaresHeading: string := "Movimientos en d\U{f3}lares"
  const EndMarks: seq<string> := ["As\U{ed} usaste tu dinero este mes", "Detalle impositivo"]

  /** The line indices the heading search records: each heading, and the end of each listing. */
  datatype Bounds = Bounds(pesos: Option<nat>, dolares: Option<nat>, endPesos: Option<nat>, endDolares: Option<nat>)

  /**
   * The bounds found among the first `n` lines: the first line with each heading; the first
   * closing text from the dollars heading on; and the first closing text from the pesos
   * heading on that comes before any dollars heading.
   */
  function BoundsUpTo(lines: seq<string>, n: nat): Bounds
    requires n <= |lines|
  {
    var p := FirstIn(lines, [PesosHeading], 0, n);
    var d := FirstIn(lines, [DolaresHeading], 0, n);
    Bounds(p, d,
      if p.Some? then FirstIn(lines, EndMarks, p.value, if d.Some? then d.value else n) else None,
      if d.Some? then FirstIn(lines, EndMarks, d.value, n) else None)
  }

  /** One line of the heading search, as the loop body updates the four indices. */
  function NextBounds(b: Bounds, l: string, i: nat): Bounds {
    var p := if Contains(l, PesosHeading) && b.pesos.None? then Some(i) else b.pesos;
    var d := if Contains(l, DolaresHeading) && b.dolares.None? then Some(i) else b.dolares;
    var closing := ContainsAny(l, EndMarks);
    Bounds(p, d,
      if closing && b.endPesos.None? && p.Some? && d.None? then Some(i) else b.endPesos,
      if closing && b.endDolares.None? && d.Some? then Some(i) else b.endDolares)
  }

  lemma ContainsOne(l: string, key: string)
    ensures ContainsAny(l, [key]) <==> Contains(l, key)
  {
    assert [key][0] == key;
  }

  /** The bounds after one more line are the loop body applied to the bounds before it. */
  lemma BoundsStep(lines: seq<string>, i: nat)
    requires i < |lines|
    ensures BoundsUpTo(lines, i + 1) == NextBounds(BoundsUpTo(lines, i), lines[i], i)
  {
    ContainsOne(lines[i], PesosHeading);
    ContainsOne(lines[i], DolaresHeading);
  }

  /** The heading search: one pass over the lines, keeping the first index of each kind. */
  method FindBounds(lines: seq<string>) returns (b: Bounds)
    ensures b == BoundsUpTo(lines, |lines|)
  {
    var pesos: Option<nat> := None;
    var dolares: Option<nat> := None;
    var endPesos: Option<nat> := None;
    var endDolares: Option<nat> := None;
    for i := 0 to |lines|
      invariant Bounds(pesos, dolares, endPesos, endDolares) == BoundsUpTo(lines, i)
    {
      ghost var before := Bounds(pesos, dolares, endPesos, endDolares);
      var l := lines[i];
      if Contains(l, PesosHeading) && pesos.None? {
        pesos := Some(i);
      }
      if Contains(l, DolaresHeading) && dolares.None? {
        dolares := Some(i);
      }
      var closing := ContainsAny(l, EndMarks);
      if closing && endDolares.None? && dolares.Some? {
        endDolares := Some(i);
      }
      if closing && endPesos.None? && pesos.Some? && dolares.None? {
        endPesos := Some(i);
      }
      assert Bounds(pesos, dolares, endPesos, endDolares) == NextBounds(before, l, i);
      BoundsStep(lines, i);
    }
    b := Bounds(pesos, dolares, endPesos, endDolares);
  }

  /**
   * The pesos listing: the lines after the first pesos heading, up to the dollars heading,
   * else up to the closing text, else to the end.
   */
  function PesosLines(lines: seq<string>): seq<string> {
    var b := BoundsUpTo(lines, |lines|);
    match b.pesos
    case None => []
    case Some(p) =>
      var e := if b.dolares.Some? then b.dolares.value else if b.endPesos.Some? then b.endPesos.value else |lines|;
      Sub(lines, p + 1, e)
  }

  /** The dollars listing: the lines after the first dollars heading, up to the closing text after it, else to the end. */
  function DolaresLines(lines: seq<string>): seq<string> {
    var b := BoundsUpTo(lines, |lines|);
    match b.dolares
    case None => []
    case Some(d) => Sub(lines, d + 1, if b.endDolares.Some? then b.endDolares.value else |lines|)
  }

  /** The pesos listing holds no dollars heading, and, when the statement has no dollars heading, no closing text. */
  lemma PesosLinesClean(lines: seq<string>)
    ensures forall k :: 0 <= k < |PesosLines(lines)| ==> !ContainsAny(PesosLines(lines)[k], [DolaresHeading])
    ensures (forall j :: 0 <= j < |lines| ==> !ContainsAny(lines[j], [DolaresHeading])) ==> forall k :: 0 <= k < |PesosLines(lines)| ==> !ContainsAny(PesosLines(lines)[k], EndMarks)
  {
  }

  /** The dollars listing holds no closing text. */
  lemma DolaresLinesClean(lines: seq<string>)
    ensures forall k :: 0 <= k < |DolaresLines(lines)| ==> !ContainsAny(DolaresLines(lines)[k], EndMarks)
  {
  }

  /**
   * A statement whose first pesos heading is at `p`, whose first dollars heading is at
   * `d > p`, and whose first closing text from `d` on is at `e` (or which has none, `e` being
   * the end): the pesos listing is the lines strictly between `p` and `d`, the dollars
   * listing those strictly between `d` and `e`.
   */
  lemma BothListings(lines: seq<string>, p: nat, d: nat, e: nat)
    requires p < d < |lines| && d <= e <= |lines|
    requires ContainsAny(lines[p], [PesosHeading]) && forall j :: 0 <= j < p ==> !ContainsAny(lines[j], [PesosHeading])
    requires ContainsAny(lines[d], [DolaresHeading]) && forall j :: 0 <= j < d ==> !ContainsAny(lines[j], [DolaresHeading])
    requires forall j :: d <= j < e ==> !ContainsAny(lines[j], EndMarks)
    requires e == |lines| || ContainsAny(lines[e], EndMarks)
    ensures PesosLines(lines) == lines[p + 1..d]
    ensures DolaresLines(lines) == Sub(lines, d + 1, e)
  {
    FirstInAt(lines, [PesosHeading], 0, |lines|, p);
    FirstInAt(lines, [DolaresHeading], 0, |lines|, d);
    if e < |lines| {
      FirstInAt(lines, EndMarks, d, |lines|, e);
    }
  }

  /**
   * A statement with no dollars heading, whose first pesos heading is at `p` and whose
   * first closing text from `p` on is at `e` (or which has none): the pesos listing is the
   * lines strictly between `p` and `e`, and there is no dollars listing.
   */
  lemma PesosOnly(lines: seq<string>, p: nat, e: nat)
    requires p < e <= |lines|
    requires ContainsAny(lines[p], [PesosHeading]) && forall j :: 0 <= j < p ==> !ContainsAny(lines[j], [PesosHeading])
    requires forall j :: 0 <= j < |lines| ==> !ContainsAny(lines[j], [DolaresHeading])
    requires forall j :: p <= j < e ==> !ContainsAny(lines[j], EndMarks)
    requires e == |lines| || ContainsAny(lines[e], EndMarks)
    ensures PesosLines(lines) == lines[p + 1..e]
    ensures DolaresLines(lines) == []
  {
    FirstInAt(lines, [PesosHeading], 0, |lines|, p);
    if e < |lines| {
      FirstInAt(lines, EndMarks, p, |lines|, e);
    }
  }

  // ---------------------------------------------------------------------------
  // Balances: `(-?)\$\s?([\d\.]+,\d{2})|(-?)U\$S\s?([\d\.]+,\d{2})`

  predicate IsDigitOrDot(c: char) {
    IsDigit(c) || c == '.'
  }

  /** `[\d\.]+,\d{2}`: digits and dots, a comma and two digits. */
  predicate IsSaldoLiteral(t: string) {
    |t| >= 4 && (forall i :: 0 <= i < |t| - 3 ==> IsDigitOrDot(t[i]))
    && t[|t| - 3] == ',' && IsDigit(t[|t| - 2]) && IsDigit(t[|t| - 1])
  }

  /** `\$` or `U\$S` at `c`: where the currency sign ends. */
  function CurrencyEnd(s: string, c: nat): (r: Option<nat>)
    ensures r.Some? ==> c < r.value <= |s|
  {
    if c < |s| && s[c] == '$' then Some(c + 1)
    else if c + 3 <= |s| && s[c] == 'U' && s[c + 1] == '$' && s[c + 2] == 'S' then Some(c + 3)
    else None
  }

  /** A balance match: whether a minus came first, and where the captured literal starts and ends. */
  datatype SaldoMatch = SaldoMatch(negative: bool, start: nat, end: nat)

  /**
   * The balance pattern tried at `q`. The minus, the currency and the one optional blank
   * are each taken when present; the digits and dots run as far as they go, and a comma
   * and two digits must follow (backtracking to a shorter run leaves a digit or a dot
   * where the comma is needed).
   */
  function SaldoMatchAt(s: string, q: nat): (r: Option<SaldoMatch>)
    ensures r.Some? ==> q < r.value.start < r.value.end <= |s| && IsSaldoLiteral(s[r.value.start..(r.value.end)])
    ensures r.Some? ==> (r.value.negative <==> s[q] == '-')
  {
    var neg := q < |s| && s[q] == '-';
    var c := if neg then q + 1 else q;
    match CurrencyEnd(s, c)
    case None => None
    case Some(a) =>
      var b := if a < |s| && IsSpace(s[a]) then a + 1 else a;
      var k := DropFrom(s, IsDigitOrDot, b);
      if k > b && k + 3 <= |s| && s[k] == ',' && IsDigit(s[k + 1]) && IsDigit(s[k + 2]) then
        LiteralFound(s, b, k);
        Some(SaldoMatch(neg, b, k + 3))
      else None
  }

  lemma LiteralFound(s: string, b: nat, k: nat)
    requires b < k && k + 3 <= |s| && s[k] == ',' && IsDigit(s[k + 1]) && IsDigit(s[k + 2])
    requires forall i :: b <= i < k ==> IsDigitOrDot(s[i])
    ensures IsSaldoLiteral(s[b..k + 3])
  {
    var t := s[b..k + 3];
    forall i | 0 <= i < |t| - 3
      ensures IsDigitOrDot(t[i])
    {
      assert t[i] == s[b + i];
    }
  }

  function SaldoEnd(s: string, q: nat): (r: Option<nat>)
    ensures r.Some? ==> q < r.value <= |s|
  {
    match SaldoMatchAt(s, q)
    case Some(m) => Some(m.end)
    case None => None
  }

  /** `re.findall` of the balance pattern, as spans. */
  function SaldoSpans(s: string): (r: seq<(nat, nat)>)
    ensures forall k :: 0 <= k < |r| ==> SaldoMatchAt(s, r[k].0).Some? && SaldoMatchAt(s, r[k].0).value.end == r[k].1
  {
    var at := (q: nat) => SaldoEnd(s, q);
    assert IsMatcher(s, at);
    Spans(s, at, 0)
  }

  /** A captured literal always reads as a number: the digits with the dots dropped, and the two decimals. */
  lemma SaldoParses(t: string)
    requires IsSaldoLiteral(t)
    ensures AllDigits(RemoveChar(t[..|t| - 3], '.'))
    ensures ParseArPlain(t) == Some(DigitsValue(RemoveChar(t[..|t| - 3], '.')) * 100 + DigitsValue(t[|t| - 2..]))
  {
    var g, f := t[..|t| - 3], t[|t| - 2..];
    assert t == g + "," + f;
    DotsRemoved(g);
    ArRewrite(g, f);
    var d := RemoveChar(g, '.');
    RemoveCharGone(g, '.');
    IndexOfAfter(d, '.', f);
    var body := d + "." + f;
    assert body[..|d|] == d && body[|d| + 1..] == f;
    assert DecimalParts(body) == (d, f);
    assert body[0] != '-' && body[0] != '+' by {
      if d != [] {
        assert body[0] == d[0];
      }
    }
  }

  /** Dropping the dots of a run of digits and dots leaves only digits. */
  lemma {:induction false} DotsRemoved(g: string)
    requires forall i :: 0 <= i < |g| ==> IsDigitOrDot(g[i])
    ensures AllDigits(RemoveChar(g, '.'))
    ensures forall i :: 0 <= i < |RemoveChar(g, '.')| ==> RemoveChar(g, '.')[i] != ','
  {
    if g != [] {
      DotsRemoved(g[1..]);
    }
  }

  /** The value of a balance match: the literal's reading, negated after a minus. */
  function SaldoValue(s: string, m: SaldoMatch): Option<int>
    requires m.start <= m.end <= |s|
  {
    var v := ParseArPlain(s[m.start..m.end]);
    if m.negative then Negate(v) else v
  }

  /**
   * The balance a line sets: every match is read in turn and each reading replaces the
   * last one, so the last match wins; a line without one leaves `prev`.
   */
  function LastSaldo(l: string, prev: int): int {
    var sp := SaldoSpans(l);
    if sp == [] then prev
    else
      var m := SaldoMatchAt(l, sp[|sp| - 1].0).value;
      SaldoValue(l, m).GetOr(prev)
  }

  /** How a statement prints a balance: an optional minus, the currency, a blank and the Argentine literal. */
  function ShowSaldo(c: int, dollars: bool): string {
    SaldoSign(c < 0, dollars) + FormatAr(Abs(c))
  }

  /** What comes before a printed balance's literal: the minus, the currency and a blank. */
  function SaldoSign(negative: bool, dollars: bool): string {
    (if negative then "-" else "") + (if dollars then "U$S " else "$ ")
  }

  /**
   * A line that ends with a printed balance, with no currency sign before it, sets that
   * balance: the literal is read back and the minus restores its sign.
   */
  lemma SaldoLineRoundTrip(pre: string, c: int, dollars: bool, prev: int)
    requires NoDollar(pre)
    requires pre == [] || IsSpace(pre[|pre| - 1])
    ensures LastSaldo(pre + ShowSaldo(c, dollars), prev) == c
  {
    var lit := FormatAr(Abs(c));
    assert IsSaldoLiteral(lit) && ParseArPlain(lit) == Some(Abs(c)) by {
      ArLiteralShape(Abs(c));
      ArRoundTrip(Abs(c));
    }
    LiteralLine(pre, c < 0, dollars, lit, ShowSaldo(c, dollars), prev);
  }

  /** A line ending in a sign, a currency, a blank and a literal, with no currency sign before them, sets the literal's value. */
  lemma LiteralLine(pre: string, negative: bool, dollars: bool, lit: string, t: string, prev: int)
    requires NoDollar(pre)
    requires pre == [] || IsSpace(pre[|pre| - 1])
    requires IsSaldoLiteral(lit) && t == SaldoSign(negative, dollars) + lit
    ensures ParseArPlain(lit).Some?
    ensures LastSaldo(pre + t, prev) == if negative then -ParseArPlain(lit).value else ParseArPlain(lit).value
  {
    SignedEndsInSaldo(pre, negative, dollars, lit, t);
    EndsInSaldoValue(pre + t, |pre|, negative, dollars, lit, prev);
  }

  /** A line that ends in a printed balance, with no currency sign before it, sets the value of its literal. */
  lemma EndsInSaldoValue(s: string, p: nat, negative: bool, dollars: bool, lit: string, prev: int)
    requires EndsInSaldo(s, p, negative, dollars) && s[p + |SaldoSign(negative, dollars)|..] == lit
    ensures ParseArPlain(lit).Some?
    ensures LastSaldo(s, prev) == if negative then -ParseArPlain(lit).value else ParseArPlain(lit).value
  {
    var b := p + |SaldoSign(negative, dollars)|;
    assert s[b..|s|] == lit;
    SaldoLineValue(s, p, negative, dollars, prev);
    SaldoValueOf(s, SaldoMatch(negative, b, |s|));
  }

  /** A printed balance after a text with no currency sign, ending in a blank, makes a line that ends in a balance. */
  lemma SignedEndsInSaldo(pre: string, negative: bool, dollars: bool, lit: string, t: string)
    requires NoDollar(pre)
    requires pre == [] || IsSpace(pre[|pre| - 1])
    requires IsSaldoLiteral(lit) && t == SaldoSign(negative, dollars) + lit
    ensures EndsInSaldo(pre + t, |pre|, negative, dollars)
    ensures (pre + t)[|pre| + |SaldoSign(negative, dollars)|..] == lit
  {
    ConcatParts(pre, SaldoSign(negative, dollars), lit, t);
    EndsInSaldoIntro(pre + t, |pre|, negative, dollars, pre, lit);
  }

  /** The three parts of `pre + t` where `t` is `mid + post`. */
  lemma ConcatParts(pre: string, mid: string, post: string, t: string)
    requires t == mid + post
    ensures var s := pre + t; var p, n := |pre|, |mid|;
      |s| == p + n + |post| && s[..p] == pre && s[p..p + n] == mid && s[p + n..] == post
      && (p > 0 ==> s[p - 1] == pre[p - 1])
  {
    var s := pre + t;
    assert s == pre + mid + post;
  }

  /** The parts of a line that ends in a printed balance, put together. */
  lemma EndsInSaldoIntro(s: string, p: nat, negative: bool, dollars: bool, pre: string, lit: string)
    requires var n := |SaldoSign(negative, dollars)|;
      |s| == p + n + |lit| && s[..p] == pre && s[p..p + n] == SaldoSign(negative, dollars) && s[p + n..] == lit
    requires p > 0 ==> s[p - 1] == pre[p - 1]
    requires NoDollar(pre) && (pre == [] || IsSpace(pre[|pre| - 1])) && IsSaldoLiteral(lit)
    ensures EndsInSaldo(s, p, negative, dollars)
  {
  }

  /** A text without a currency sign. */
  predicate NoDollar(x: string) {
    forall i :: 0 <= i < |x| ==> x[i] != '$'
  }

  /**
   * `s` ends, from `p` on, in a printed balance: a sign, a currency, a blank and a
   * literal; before `p` there is no currency sign, and a blank comes right before it.
   */
  ghost predicate EndsInSaldo(s: string, p: nat, negative: bool, dollars: bool) {
    var sign := SaldoSign(negative, dollars);
    p + |sign| <= |s| && s[p..p + |sign|] == sign && IsSaldoLiteral(s[p + |sign|..])
    && NoDollar(s[..p]) && (p == 0 || IsSpace(s[p - 1]))
  }

  /** A line that ends in a printed balance, and has no currency sign before it, sets the value of that match. */
  lemma SaldoLineValue(s: string, p: nat, negative: bool, dollars: bool, prev: int)
    requires EndsInSaldo(s, p, negative, dollars)
    ensures LastSaldo(s, prev) == SaldoValue(s, SaldoMatch(negative, p + |SaldoSign(negative, dollars)|, |s|)).GetOr(prev)
  {
    SaldoLineSpans(s, p, negative, dollars);
    MatchFromSign(s, p, negative, dollars);
    LastSaldoIs(s, prev, SaldoMatch(negative, p + |SaldoSign(negative, dollars)|, |s|));
  }

  /** A match's literal always reads as a number, negated after a minus. */
  lemma SaldoValueOf(s: string, m: SaldoMatch)
    requires m.start <= m.end <= |s| && IsSaldoLiteral(s[m.start..m.end])
    ensures ParseArPlain(s[m.start..m.end]).Some?
    ensures SaldoValue(s, m) == Some(if m.negative then -ParseArPlain(s[m.start..m.end]).value else ParseArPlain(s[m.start..m.end]).value)
  {
    SaldoParses(s[m.start..m.end]);
  }

  /** The balance a line sets is the value of its last match. */
  lemma LastSaldoIs(l: string, prev: int, m: SaldoMatch)
    requires SaldoSpans(l) != [] && SaldoMatchAt(l, SaldoSpans(l)[|SaldoSpans(l)| - 1].0) == Some(m)
    requires m.start <= m.end <= |l|
    ensures LastSaldo(l, prev) == SaldoValue(l, m).GetOr(prev)
  {
  }

  /** The printed balance is the one match in a line that ends in it. */
  lemma SaldoLineSpans(s: string, p: nat, negative: bool, dollars: bool)
    requires EndsInSaldo(s, p, negative, dollars)
    ensures SaldoSpans(s) == [(p, |s|)]
  {
    forall j: nat | j < p
      ensures SaldoEnd(s, j).None?
    {
      NoSaldoBefore(s, p, j);
    }
    MatchFromSign(s, p, negative, dollars);
    var at := (q: nat) => SaldoEnd(s, q);
    assert IsMatcher(s, at);
    SingleSpan(s, at, p, 0);
  }

  /** The balance pattern at `p` in a text that holds a sign, a currency, a blank and a literal from `p` to its end. */
  lemma MatchFromSign(s: string, p: nat, negative: bool, dollars: bool)
    requires var sign := SaldoSign(negative, dollars);
      p + |sign| <= |s| && s[p..p + |sign|] == sign && IsSaldoLiteral(s[p + |sign|..])
    ensures SaldoMatchAt(s, p) == Some(SaldoMatch(negative, p + |SaldoSign(negative, dollars)|, |s|))
  {
    SignChars(s, p, negative, dollars);
    MatchParts(s, p, negative, p + |SaldoSign(negative, dollars)| - 1);
  }

  /** A printed sign and currency at `p`: the minus is there exactly when negative, and the currency ends before a blank. */
  lemma SignChars(s: string, p: nat, negative: bool, dollars: bool)
    requires var sign := SaldoSign(negative, dollars); p + |sign| <= |s| && s[p..p + |sign|] == sign
    ensures var n := |SaldoSign(negative, dollars)|;
      (s[p] == '-' <==> negative) && CurrencyEnd(s, if negative then p + 1 else p) == Some(p + n - 1) && s[p + n - 1] == ' '
  {
    var sign := SaldoSign(negative, dollars);
    var lead: string := if negative then "-" else "";
    var w: string := if dollars then "U$S " else "$ ";
    assert sign == lead + w;
    var c := p + |lead|;
    assert s[c..c + |w|] == s[p..p + |sign|][|lead|..];
    Currency(s, c, dollars);
    if negative {
      assert s[p] == s[p..p + |sign|][0];
    } else {
      assert s[p] == s[c..c + |w|][0];
    }
  }

  /** The currency `$` or `U$S` and a blank at `c`. */
  lemma Currency(s: string, c: nat, dollars: bool)
    requires var w: string := if dollars then "U$S " else "$ "; c + |w| <= |s| && s[c..c + |w|] == w
    ensures var n := if dollars then 4 else 2; CurrencyEnd(s, c) == Some(c + n - 1) && s[c + n - 1] == ' '
  {
    var w: string := if dollars then "U$S " else "$ ";
    forall k | 0 <= k < |w|
      ensures s[c + k] == w[k]
    {
      assert s[c..c + |w|][k] == s[c + k];
    }
  }

  /** The balance pattern at `p` once its sign and currency are known to end at `a`, a blank follows and a literal runs to the end. */
  lemma MatchParts(s: string, p: nat, negative: bool, a: nat)
    requires p < |s| && (s[p] == '-' <==> negative)
    requires CurrencyEnd(s, if negative then p + 1 else p) == Some(a)
    requires a < |s| && s[a] == ' ' && IsSaldoLiteral(s[a + 1..])
    ensures SaldoMatchAt(s, p) == Some(SaldoMatch(negative, a + 1, |s|))
  {
    LiteralRun(s, a + 1);
  }

  /** A literal that runs from `b` to the end of the text: its digits and dots end three characters before the end. */
  lemma LiteralRun(s: string, b: nat)
    requires b <= |s| && IsSaldoLiteral(s[b..])
    ensures |s| - b >= 4 && DropFrom(s, IsDigitOrDot, b) == |s| - 3
    ensures s[|s| - 3] == ',' && IsDigit(s[|s| - 2]) && IsDigit(s[|s| - 1])
  {
    var t := s[b..];
    assert s[|s| - 3] == t[|t| - 3] && s[|s| - 2] == t[|t| - 2] && s[|s| - 1] == t[|t| - 1];
    forall i | b <= i < |s| - 3
      ensures IsDigitOrDot(s[i])
    {
      assert s[i] == t[i - b];
    }
    DropFromRun(s, b, |s| - 3);
  }

  /** The canonical Argentine literal is a run of digits and dots, a comma and two digits. */
  lemma ArLiteralShape(c: nat)
    ensures IsSaldoLiteral(FormatAr(c))
  {
    var g := Group(c / 100, '.');
    GroupedDigitsOnly(g, '.');
    var t := FormatAr(c);
    assert t == g + "," + Pad2(c % 100);
    assert forall i :: 0 <= i < |g| ==> t[i] == g[i];
  }

  /** The run of digits and dots from `b` stops at the comma of a literal that starts there. */
  lemma DropFromRun(s: string, b: nat, k: nat)
    requires b <= k < |s| && s[k] == ','
    requires forall i :: b <= i < k ==> IsDigitOrDot(s[i])
    ensures DropFrom(s, IsDigitOrDot, b) == k
    decreases k - b
  {
    if b < k {
      DropFromRun(s, b + 1, k);
    }
  }

  /** No balance match starts before `p` when no currency sign comes before it and a blank comes right before it. */
  lemma NoSaldoBefore(s: string, p: nat, j: nat)
    requires j < p <= |s| && IsSpace(s[p - 1]) && NoDollar(s[..p])
    ensures SaldoEnd(s, j).None?
  {
    assert forall i :: 0 <= i < p ==> s[i] == s[..p][i];
    var q := if s[j] == '-' then j + 1 else j;
    assert q < p;
  }

  // ---------------------------------------------------------------------------
  // Joining the lines of a listing into records

  /** `re.match(r"\d{2}/\d{2}/\d{2}", l)`: the line starts with a `dd/mm/yy` date. */
  predicate Dated(l: string) {
    DateAt(l, 0, '/', 2)
  }

  /** The records finished so far and the record being built. */
  datatype Joiner = Joiner(records: seq<string>, current: string)

  /**
   * One line: a "Saldo total" line is not joined; a dated line finishes the current record
   * and starts a new one; any other line is appended to the current record after a blank.
   */
  function JoinStep(st: Joiner, l: string): Joiner {
    if Contains(l, "Saldo total") then st
    else if Dated(l) then
      Joiner(if st.current != [] then st.records + [Strip(st.current)] else st.records, l)
    else st.(current := st.current + " " + l)
  }

  /** The joining state after the given lines, from no records. */
  function JoinAll(lines: seq<string>): Joiner {
    if lines == [] then Joiner([], "")
    else JoinStep(JoinAll(lines[..|lines| - 1]), lines[|lines| - 1])
  }

  /** The records once the last one is finished. */
  function Records(st: Joiner): seq<string> {
    st.records + if st.current != [] then [Strip(st.current)] else []
  }

  /** The balance that the lines holding `key` set, each replacing the one before; zero when there is none. */
  function BalanceOf(lines: seq<string>, key: string): int {
    if lines == [] then 0
    else
      var prev := BalanceOf(lines[..|lines| - 1], key);
      var l := lines[|lines| - 1];
      if Contains(l, key) then LastSaldo(l, prev) else prev
  }

  /**
   * The joining loop of a listing: its records, the opening balance of its "Saldo Inicial"
   * lines and the closing balance of its "Saldo total" lines.
   */
  method Join(lines: seq<string>) returns (records: seq<string>, opening: int, closing: int)
    ensures records == Records(JoinAll(lines))
    ensures opening == BalanceOf(lines, "Saldo Inicial") && closing == BalanceOf(lines, "Saldo total")
  {
    records, opening, closing := [], 0, 0;
    var current := "";
    for i := 0 to |lines|
      invariant Joiner(records, current) == JoinAll(lines[..i])
      invariant opening == BalanceOf(lines[..i], "Saldo Inicial") && closing == BalanceOf(lines[..i], "Saldo total")
    {
      assert lines[..i + 1][..i] == lines[..i];
      var l := lines[i];
      if Contains(l, "Saldo Inicial") {
        opening := LastSaldo(l, opening);
      }
      if Contains(l, "Saldo total") {
        closing := LastSaldo(l, closing);
      } else if Dated(l) {
        if current != [] {
          records := records + [Strip(current)];
        }
        current := l;
      } else {
        current := current + " " + l;
      }
    }
    assert lines[..|lines|] == lines;
    if current != [] {
      records := records + [Strip(current)];
    }
  }

  /** A line with a balance match sets that balance whatever came before: every match reads as a number. */
  lemma LastSaldoSet(l: string, prev: int, prev2: int)
    requires SaldoSpans(l) != []
    ensures LastSaldo(l, prev) == LastSaldo(l, prev2)
  {
    var sp := SaldoSpans(l);
    var m := SaldoMatchAt(l, sp[|sp| - 1].0).value;
    SaldoParses(l[m.start..m.end]);
  }

  /**
   * The balance is the one the last line holding `key` with a match sets; lines after it
   * that hold `key` and no match change nothing.
   */
  lemma {:induction false} BalanceFromLast(lines: seq<string>, key: string, k: nat)
    requires k < |lines| && Contains(lines[k], key) && SaldoSpans(lines[k]) != []
    requires forall j :: k < j < |lines| && Contains(lines[j], key) ==> SaldoSpans(lines[j]) == []
    ensures BalanceOf(lines, key) == LastSaldo(lines[k], 0)
  {
    var init := lines[..|lines| - 1];
    if k < |lines| - 1 {
      assert init[k] == lines[k];
      BalanceFromLast(init, key, k);
    } else {
      LastSaldoSet(lines[k], BalanceOf(init, key), 0);
    }
  }

  /** Lines without `key` leave the balance at zero. */
  lemma {:induction false} NoBalance(lines: seq<string>, key: string)
    requires forall j :: 0 <= j < |lines| ==> !Contains(lines[j], key)
    ensures BalanceOf(lines, key) == 0
  {
    if lines != [] {
      NoBalance(lines[..|lines| - 1], key);
    }
  }

  /** The lines that take part in joining: all but the "Saldo total" ones. */
  function Joined(lines: seq<string>): (r: seq<string>)
    ensures forall k :: 0 <= k < |r| ==> !Contains(r[k], "Saldo total")
  {
    if lines == [] then []
    else
      var last := lines[|lines| - 1];
      Joined(lines[..|lines| - 1]) + if Contains(last, "Saldo total") then [] else [last]
  }

  /** How many of the lines are dated. */
  function DatedCount(lines: seq<string>): nat {
    if lines == [] then 0 else DatedCount(lines[..|lines| - 1]) + if Dated(lines[|lines| - 1]) then 1 else 0
  }

  /** "Saldo total" lines never take part in the records: the state is that of the other lines alone. */
  lemma {:induction false} SaldoTotalNotJoined(lines: seq<string>)
    ensures JoinAll(lines) == JoinAll(Joined(lines))
  {
    if lines != [] {
      var init, last := lines[..|lines| - 1], lines[|lines| - 1];
      SaldoTotalNotJoined(init);
      if Contains(last, "Saldo total") {
        assert Joined(lines) == Joined(init) + [];
        assert Joined(init) + [] == Joined(init);
      } else {
        var j := Joined(init) + [last];
        assert Joined(lines) == j;
        assert j[..|j| - 1] == Joined(init) && j[|j| - 1] == last;
        assert JoinAll(j) == JoinStep(JoinAll(Joined(init)), last);
      }
    }
  }

  /**
   * One record per dated line, plus one for the lines before the first dated one when the
   * listing does not start with a date ("Saldo total" lines left aside).
   */
  lemma RecordsPerDate(lines: seq<string>)
    ensures var js := Joined(lines);
      |Records(JoinAll(lines))| == DatedCount(js) + if js != [] && !Dated(js[0]) then 1 else 0
  {
    SaldoTotalNotJoined(lines);
    JoinedCount(Joined(lines));
  }

  lemma {:induction false} JoinedCount(js: seq<string>)
    requires forall k :: 0 <= k < |js| ==> !Contains(js[k], "Saldo total")
    ensures var st := JoinAll(js);
      |st.records| + (if st.current != [] then 1 else 0) == DatedCount(js) + if js != [] && !Dated(js[0]) then 1 else 0
    ensures JoinAll(js).current == [] <==> js == []
  {
    if js != [] {
      var init := js[..|js| - 1];
      JoinedCount(init);
      if init != [] {
        assert init[0] == js[0];
      }
    }
  }

  /** A dated text keeps its date when stripped. */
  lemma StripDated(c: string)
    requires Dated(c)
    ensures Dated(Strip(c))
  {
    StripKeepsStart(c, 8);
    assert Strip(c)[..8] == c[..8];
  }

  /** Stripping a text whose first `n` characters are not blanks keeps them. */
  lemma StripKeepsStart(c: string, n: nat)
    requires 0 < n <= |c| && forall i :: 0 <= i < n ==> !IsSpace(c[i])
    ensures n <= |Strip(c)| && Strip(c)[..n] == c[..n]
  {
    assert !IsSpace(c[0]);
    assert DropFrom(c, IsSpace, 0) == 0;
    assert LStrip(c) == c;
    var r := RStrip(c);
    assert |r| >= n by {
      assert !IsSpace(c[n - 1]);
    }
    assert r[..n] == c[..n];
  }

  /** Every record after the first starts with a date. */
  lemma LaterRecordsDated(lines: seq<string>)
    ensures var rs := Records(JoinAll(lines)); forall k :: 1 <= k < |rs| ==> Dated(rs[k])
  {
    JoinInvariant(lines);
    var st := JoinAll(lines);
    if st.current != [] && st.records != [] {
      StripDated(st.current);
    }
  }

  /** After the first record is finished, every finished record and the current one start with a date. */
  lemma {:induction false} JoinInvariant(lines: seq<string>)
    ensures var st := JoinAll(lines); forall k :: 1 <= k < |st.records| ==> Dated(st.records[k])
    ensures var st := JoinAll(lines); st.records != [] ==> Dated(st.current)
  {
    if lines != [] {
      JoinInvariant(lines[..|lines| - 1]);
      JoinStepKeeps(JoinAll(lines[..|lines| - 1]), lines[|lines| - 1]);
    }
  }

  /** The joining invariant of the records read so far. */
  ghost predicate DatedAfterFirst(st: Joiner) {
    (forall k :: 1 <= k < |st.records| ==> Dated(st.records[k])) && (st.records != [] ==> Dated(st.current))
  }

  /** One joining step keeps the invariant. */
  lemma JoinStepKeeps(st: Joiner, l: string)
    requires DatedAfterFirst(st)
    ensures DatedAfterFirst(JoinStep(st, l))
  {
    if Contains(l, "Saldo total") {
    } else if Dated(l) {
      if st.current != [] && st.records != [] {
        StripDated(st.current);
      }
    } else if st.records != [] {
      DatedAppend(st.current, " " + l);
      assert st.current + " " + l == st.current + (" " + l);
    }
  }

  lemma DatedAppend(c: string, t: string)
    requires Dated(c)
    ensures Dated(c + t)
  {
    assert (c + t)[..8] == c[..8];
  }

  // ---------------------------------------------------------------------------
  // Records to movements: `[+-]?\$\s*[\d\.,]+`

  predicate IsMontoChar(c: char) {
    IsDigit(c) || c == '.' || c == ','
  }

  /**
   * The amount pattern tried at `q`: an optional sign, a `$`, any blanks, and the run of
   * digits, dots and commas after them, which must not be empty.
   */
  function MontoAt(s: string, q: nat): (r: Option<nat>)
    ensures r.Some? ==> q < r.value <= |s|
  {
    var c := if q < |s| && (s[q] == '+' || s[q] == '-') then q + 1 else q;
    if c < |s| && s[c] == '$' then
      var b := DropFrom(s, IsSpace, c + 1);
      var e := DropFrom(s, IsMontoChar, b);
      if e > b then Some(e) else None
    else None
  }

  /** `re.findall` of the amount pattern. */
  function Montos(s: string): seq<string> {
    var at := (q: nat) => MontoAt(s, q);
    assert IsMatcher(s, at);
    FindAll(s, at)
  }

  /** The record with the dollar sign rewritten: `U$S` and `U$s` become `$`. */
  function Cleaned(mov: string): string {
    ReplaceAll(ReplaceAll(mov, "U$S", "$"), "U$s", "$")
  }

  /**
   * An amount's value: the text without `$` and `-`, stripped, read the Argentine way,
   * negated when the text holds a `-`; zero when it does not read as a number.
   */
  function ImporteOf(t: string): int {
    var signo := if Contains(t, "-") then -1 else 1;
    match ParseArPlain(Strip(RemoveChar(RemoveChar(t, '$'), '-')))
    case Some(v) => v * signo
    case None => 0
  }

  /** How a statement prints a movement amount: an optional minus, `$`, a blank and the Argentine literal. */
  function ShowImporte(c: int): string {
    ImporteSign(c < 0) + FormatAr(Abs(c))
  }

  /** What comes before a printed amount's literal. */
  function ImporteSign(negative: bool): string {
    (if negative then "-" else "") + "$ "
  }

  /** A printed movement amount reads back as itself. */
  lemma ShownImporteRoundTrip(c: int)
    ensures ImporteOf(ShowImporte(c)) == c
  {
    ArLiteralShape(Abs(c));
    ArRoundTrip(Abs(c));
    LiteralImporte(c < 0, FormatAr(Abs(c)));
  }

  /** A sign, `$`, a blank and a literal read as the literal's value, negated after the minus. */
  lemma LiteralImporte(negative: bool, lit: string)
    requires IsSaldoLiteral(lit)
    ensures ParseArPlain(lit).Some?
    ensures ImporteOf(ImporteSign(negative) + lit) ==
      if negative then -ParseArPlain(lit).value else ParseArPlain(lit).value
  {
    DotsRemovedNoMinus(lit);
    SignsRemoved(negative, lit);
    MinusIffNegative(negative, lit);
    StripLiteral(lit);
    SaldoParses(lit);
  }

  /** Dropping the `$` and the `-` of a printed amount leaves a blank and the literal. */
  lemma SignsRemoved(negative: bool, lit: string)
    requires forall i :: 0 <= i < |lit| ==> lit[i] != '-' && lit[i] != '$'
    ensures RemoveChar(RemoveChar(ImporteSign(negative) + lit, '$'), '-') == " " + lit
  {
    var x := ImporteSign(negative);
    var y := RemoveChar(x, '$');
    SignCharsRemoved(negative);
    calc {
      RemoveChar(RemoveChar(x + lit, '$'), '-');
    == { RemoveCharAppend(x, lit, '$'); RemoveCharNoop(lit, '$'); }
      RemoveChar(y + lit, '-');
    == { RemoveCharAppend(y, lit, '-'); RemoveCharNoop(lit, '-'); }
      " " + lit;
    }
  }

  /** The sign of a printed amount without its `$` and `-` is one blank. */
  lemma SignCharsRemoved(negative: bool)
    ensures RemoveChar(RemoveChar(ImporteSign(negative), '$'), '-') == " "
  {
    if negative {
      assert ImporteSign(negative) == "-$ ";
      assert RemoveChar("-$ ", '$') == "- " && RemoveChar("- ", '-') == " ";
    } else {
      assert ImporteSign(negative) == "$ ";
      assert RemoveChar("$ ", '$') == " " && RemoveChar(" ", '-') == " ";
    }
  }

  /** A printed amount holds a `-` exactly when it is negative. */
  lemma MinusIffNegative(negative: bool, lit: string)
    requires forall i :: 0 <= i < |lit| ==> lit[i] != '-'
    ensures Contains(ImporteSign(negative) + lit, "-") <==> negative
  {
    var t := ImporteSign(negative) + lit;
    if negative {
      assert OccursAt(t, "-", 0);
    } else {
      assert forall i :: 0 <= i < |t| ==> t[i] != '-' by {
        assert forall i :: 2 <= i < |t| ==> t[i] == lit[i - 2];
      }
      NoMinusNotContained(t);
    }
  }

  /** A literal of digits, dots and a comma has no `-` and no `$`. */
  lemma DotsRemovedNoMinus(lit: string)
    requires IsSaldoLiteral(lit)
    ensures forall i :: 0 <= i < |lit| ==> lit[i] != '-' && lit[i] != '$' && !IsSpace(lit[i])
  {
  }

  lemma NoMinusNotContained(t: string)
    requires forall i :: 0 <= i < |t| ==> t[i] != '-'
    ensures !Contains(t, "-")
  {
    forall i | 0 <= i <= |t| - 1
      ensures !OccursAt(t, "-", i)
    {
      assert t[i..i + 1][0] == t[i];
    }
  }

  /** A blank before a literal without blanks is stripped away. */
  lemma StripLiteral(lit: string)
    requires lit != [] && forall i :: 0 <= i < |lit| ==> !IsSpace(lit[i])
    ensures Strip(" " + lit) == lit
  {
    var s := " " + lit;
    assert DropFrom(s, IsSpace, 1) == 1;
    assert DropFrom(s, IsSpace, 0) == 1;
    assert LStrip(s) == lit;
    StripNoop(lit);
  }

  /**
   * The movement of a record. Records mentioning "Movimientos en" or "Saldo Inicial" are
   * skipped, and so are records with fewer than two amounts. Otherwise the date is the
   * first eight characters, the amount is the second-to-last amount, and the description
   * is the text between the date and that amount, stripped, without leading digits.
   */
  function MovementOf(mov: string): (r: Option<Ledger.Movement>)
    ensures r.Some? <==>
      !Contains(mov, "Movimientos en") && !Contains(mov, "Saldo Inicial") && |Montos(Cleaned(mov))| >= 2
    ensures r.Some? ==> var ms := Montos(Cleaned(mov));
      r.value.amount == ImporteOf(ms[|ms| - 2]) && r.value.date == Slice(mov, 0, 8)
  {
    if Contains(mov, "Movimientos en") || Contains(mov, "Saldo Inicial") then None
    else
      var clean := Cleaned(mov);
      var ms := Montos(clean);
      if |ms| < 2 then None
      else
        var imp := ms[|ms| - 2];
        var idx := RFind(clean, imp);
        var desc := if idx != -1 then Strip(From(Slice(mov, 0, idx), 8)) else From(mov, 8);
        Some(Ledger.Movement(Slice(mov, 0, 8), CleanForExcel(Strip(LTrim(desc, IsDigit))), ImporteOf(imp)))
  }

  /** The movements of the records, in order. */
  function MovementsOf(records: seq<string>): seq<Ledger.Movement> {
    if records == [] then []
    else
      var last := records[|records| - 1];
      MovementsOf(records[..|records| - 1]) + Yielded(MovementOf(last))
  }

  /** The movements a record yields: its movement if it has one. */
  function Yielded(r: Option<Ledger.Movement>): (ms: seq<Ledger.Movement>)
    ensures |ms| <= 1 && (ms != [] <==> r.Some?) && (r.Some? ==> ms[0] == r.value)
  {
    match r case Some(m) => [m] case None => []
  }

  /** The record parsing loop. */
  method ParseRecords(records: seq<string>) returns (ms: seq<Ledger.Movement>)
    ensures ms == MovementsOf(records)
  {
    ms := [];
    for i := 0 to |records|
      invariant ms == MovementsOf(records[..i])
    {
      assert records[..i + 1][..i] == records[..i];
      var m := MovementOf(records[i]);
      if m.Some? {
        ms := ms + [m.value];
      }
    }
    assert records[..|records|] == records;
  }

  /** `m` is the movement of one of the records. */
  ghost predicate FromRecord(records: seq<string>, m: Ledger.Movement) {
    exists i :: 0 <= i < |records| && MovementOf(records[i]) == Some(m)
  }

  /** Every movement is the movement of one of the records. */
  lemma {:induction false} MovementsFromRecords(records: seq<string>, j: nat)
    requires j < |MovementsOf(records)|
    ensures FromRecord(records, MovementsOf(records)[j])
  {
    var init := records[..|records| - 1];
    var r := MovementOf(records[|records| - 1]);
    var tail := Yielded(r);
    var ms := MovementsOf(init);
    assert MovementsOf(records) == ms + tail;
    var m := MovementsOf(records)[j];
    if j < |ms| {
      assert m == ms[j];
      MovementsFromRecords(init, j);
      FromRecordInPrefix(records, m);
    } else {
      assert tail != [] && m == tail[0];
      FromRecordAtEnd(records, m);
    }
  }

  /** A movement of a record before the last is a movement of the whole list. */
  lemma FromRecordInPrefix(records: seq<string>, m: Ledger.Movement)
    requires records != [] && FromRecord(records[..|records| - 1], m)
    ensures FromRecord(records, m)
  {
    var i :| 0 <= i < |records| - 1 && MovementOf(records[..|records| - 1][i]) == Some(m);
    assert records[..|records| - 1][i] == records[i];
  }

  /** The movement of the last record is a movement of the whole list. */
  lemma FromRecordAtEnd(records: seq<string>, m: Ledger.Movement)
    requires records != [] && MovementOf(records[|records| - 1]) == Some(m)
    ensures FromRecord(records, m)
  {
  }

  lemma {:induction false} MovementsBound(records: seq<string>)
    ensures |MovementsOf(records)| <= |records|
  {
    if records != [] {
      MovementsBound(records[..|records| - 1]);
    }
  }

  // ---------------------------------------------------------------------------
  // The sheets

  /** A listing's movements and balances. */
  datatype Listing = Listing(movements: seq<Ledger.Movement>, opening: int, closing: int)

  function ListingOf(lines: seq<string>): Listing {
    Listing(MovementsOf(Records(JoinAll(lines))), BalanceOf(lines, "Saldo Inicial"), BalanceOf(lines, "Saldo total"))
  }

  /** `extraer_datos_seccion`: join the lines into records, then read their movements. */
  method Extract(lines: seq<string>) returns (l: Listing)
    ensures l == ListingOf(lines)
  {
    var records, opening, closing := Join(lines);
    var ms := ParseRecords(records);
    l := Listing(ms, opening, closing);
  }

  /** The dollars sheet is shown when it has movements or a balance that is not zero. */
  predicate ShowsDolares(l: Listing) {
    l.movements != [] || l.opening != 0 || l.closing != 0
  }

  function SheetOf(name: string, l: Listing): Ledger.Sheet {
    Ledger.ListingSheet(name, l.opening, l.closing, l.movements)
  }

  /** The section search and the slicing of the two listings. */
  method Listings(lines: seq<string>) returns (pesos: seq<string>, dolares: seq<string>)
    ensures pesos == PesosLines(lines) && dolares == DolaresLines(lines)
  {
    var b := FindBounds(lines);
    pesos := [];
    if b.pesos.Some? {
      var e := if b.dolares.Some? then b.dolares.value else if b.endPesos.Some? then b.endPesos.value else |lines|;
      pesos := Sub(lines, b.pesos.value + 1, e);
    }
    dolares := [];
    if b.dolares.Some? {
      dolares := Sub(lines, b.dolares.value + 1, if b.endDolares.Some? then b.endDolares.value else |lines|);
    }
  }

  /**
   * The whole statement: the "Pesos" sheet always, and the "Dolares" sheet when the
   * dollars listing has movements or a balance that is not zero.
   */
  method Process(lines: seq<string>) returns (sheets: seq<Ledger.Sheet>)
    ensures var dl := ListingOf(DolaresLines(lines));
      |sheets| == (if ShowsDolares(dl) then 2 else 1)
      && sheets[0] == SheetOf("Pesos", ListingOf(PesosLines(lines)))
      && (ShowsDolares(dl) ==> sheets[1] == SheetOf("Dolares", dl))
  {
    var pesos, dolares := Listings(lines);
    var p := Extract(pesos);
    var d := Extract(dolares);
    sheets := [SheetOf("Pesos", p)];
    if ShowsDolares(d) {
      sheets := sheets + [SheetOf("Dolares", d)];
    }
  }
}
