/**
 * Banco Macro statements, second format.
 *
 * Every movement is one line: a `dd/mm/yyyy` date, reference numbers, a description, then
 * the amount and the balance, each printed as `$ 50.000,00` or `$ -269,33`. The line's
 * amounts are found with a pattern that allows a peso sign, a minus and blanks inside the
 * number; the last one is the balance and the one before it the amount. The description is
 * what precedes the amount, less the date and the leading reference numbers. The listing is
 * newest first: the rows are reversed into date order for the sheet, the closing balance is
 * the newest row's and the opening balance is inferred from the oldest row.
 */
module Macro2 {
  import opened Text
  import opened Optional
  import opened Amounts
  import Ledger

  // ---------------------------------------------------------------------------
  // Amounts: `parse_amount`

  /**
   * The amount a matched text denotes: zero for the empty text; otherwise the text is
   * stripped, its peso signs and blanks are removed, and it is read as an Argentine
   * literal; a text that does not read is zero.
   */
  function ParseAmount(s: string): int {
    if s == [] then 0
    else ParseArPlain(RemoveChar(RemoveChar(Strip(s), '$'), ' ')).GetOr(0)
  }

  /** The sign and the Argentine literal of an amount, as printed after the peso sign. */
  function Signed(c: int): string {
    (if c < 0 then "-" else "") + FormatAr(Abs(c))
  }

  /** An amount as the statement prints it: `$ 50.000,00` or `$ -269,33`. */
  function Shown(c: int): string {
    "$ " + Signed(c)
  }

  /**
   * The shape of a printed amount: an optional minus, then a digit, digits and thousands
   * points, one comma and two digits.
   */
  predicate AmountLiteral(t: string) {
    var n := |t|;
    var d := if t != [] && t[0] == '-' then 1 else 0;
    d + 4 <= n && IsDigit(t[d]) && t[n - 3] == ',' && IsDigit(t[n - 2]) && IsDigit(t[n - 1])
    && forall i :: d <= i < n - 3 ==> IsDigit(t[i]) || t[i] == '.'
  }

  /** Every amount prints with that shape, with a minus exactly when it is negative. */
  lemma SignedChars(c: int)
    ensures AmountLiteral(Signed(c)) && (Signed(c)[0] == '-' <==> c < 0)
  {
    var u := FormatAr(Abs(c));
    FormatArLiteral(Abs(c));
    if c < 0 {
      assert Signed(c) == "-" + u;
      NegatedLiteral(u);
    } else {
      assert Signed(c) == u;
    }
  }

  /** The Argentine literal of an amount has the shape, without a minus. */
  lemma FormatArLiteral(m: nat)
    ensures AmountLiteral(FormatAr(m)) && FormatAr(m)[0] != '-'
  {
    var g, f := Group(m / 100, '.'), Pad2(m % 100);
    var t := FormatAr(m);
    GroupedDigitsOnly(g, '.');
    GroupedEnds(g, '.');
    assert |t| == |g| + 3 && t[0] == g[0];
    assert t[|t| - 3] == ',' && t[|t| - 2] == f[0] && t[|t| - 1] == f[1];
    assert forall i :: 0 <= i < |g| ==> t[i] == g[i];
  }

  /** A minus in front of a literal without one keeps the shape. */
  lemma NegatedLiteral(u: string)
    requires AmountLiteral(u) && u[0] != '-'
    ensures AmountLiteral("-" + u)
  {
    var t := "-" + u;
    assert forall i :: 1 <= i < |t| ==> t[i] == u[i - 1];
  }

  /** No character of a printed amount is whitespace or a peso sign, and its only comma is the decimal one. */
  lemma LiteralPlain(t: string)
    requires AmountLiteral(t)
    ensures t != [] && IsDigit(t[|t| - 1]) && !IsSpace(t[0])
    ensures forall i :: 0 <= i < |t| ==> !IsSpace(t[i]) && t[i] != '$'
    ensures forall i :: 0 <= i < |t| && t[i] == ',' ==> i == |t| - 3
  {
  }

  /** `parse_amount` of a peso sign, a blank and a literal is the Argentine reading of the literal. */
  lemma ParseDollar(t: string)
    requires AmountLiteral(t)
    ensures ParseAmount("$ " + t) == ParseArPlain(t).GetOr(0)
  {
    LiteralPlain(t);
    var s := "$ " + t;
    StripNoop(s);
    assert RemoveChar(s, '$') == " " + t by {
      assert s[0] == '$' && s[1..] == " " + t;
      RemoveCharNoop(" " + t, '$');
    }
    assert RemoveChar(" " + t, ' ') == t by {
      assert (" " + t)[1..] == t;
      RemoveCharNoop(t, ' ');
    }
  }

  /** The sign and literal of an amount read back as the amount. */
  lemma SignedRoundTrip(c: int)
    ensures ParseArPlain(Signed(c)) == Some(c)
  {
    ArSignedRoundTrip(Abs(c));
    if c >= 0 {
      assert Signed(c) == FormatAr(Abs(c));
    }
  }

  /** A printed amount reads back as itself. */
  lemma ParseShown(c: int)
    ensures ParseAmount(Shown(c)) == c
  {
    SignedChars(c);
    ParseDollar(Signed(c));
    SignedRoundTrip(c);
  }

  /** Two amounts that print alike are the same amount. */
  lemma ShownInjective(a: int, b: int)
    requires Shown(a) == Shown(b)
    ensures a == b
  {
    ParseShown(a);
    ParseShown(b);
  }

  /** One printed literal is the start of another only when the two are the same. */
  lemma LiteralPrefix(u: string, v: string)
    requires AmountLiteral(u) && AmountLiteral(v)
    requires |u| <= |v| && v[..|u|] == u
    ensures u == v
  {
    LiteralPlain(v);
    assert v[|u| - 3] == u[|u| - 3] == ',';
  }

  /** A peso-prefixed literal is the start of another only when the two literals are the same. */
  lemma PesoPrefix(u: string, v: string)
    requires AmountLiteral(u) && AmountLiteral(v)
    requires |u| <= |v| && ("$ " + v)[..|u| + 2] == "$ " + u
    ensures u == v
  {
    assert v[..|u|] == u by {
      assert forall i :: 0 <= i < |u| ==> v[i] == ("$ " + v)[i + 2] == ("$ " + u)[i + 2] == u[i];
    }
    LiteralPrefix(u, v);
  }

  /** One printed amount is the start of another only when the two are the same amount. */
  lemma ShownPrefix(a: int, b: int)
    requires |Shown(a)| <= |Shown(b)| && Shown(b)[..|Shown(a)|] == Shown(a)
    ensures a == b
  {
    SignedChars(a);
    SignedChars(b);
    PesoPrefix(Signed(a), Signed(b));
    ShownInjective(a, b);
  }

  // ---------------------------------------------------------------------------
  // The amount pattern `(?:\$\s*)?-?[\d\.\s]+,\d{2}`

  /** A character of the run `[\d\.\s]`. */
  predicate IsRunChar(c: char) {
    IsDigit(c) || c == '.' || IsSpace(c)
  }

  /**
   * `[\d\.\s]+,\d{2}` tried at `a`, as its end: the run is taken as far as it goes and the
   * comma and two digits must follow it. A comma is not a run character, so a shorter run
   * would end before a run character where the comma is needed: no other end exists.
   */
  function RunTail(s: string, a: nat): (r: Option<nat>)
    ensures r.Some? ==> a < r.value <= |s|
  {
    if a > |s| then None
    else
      var e := DropFrom(s, IsRunChar, a);
      if a < e && e + 3 <= |s| && s[e] == ',' && IsDigit(s[e + 1]) && IsDigit(s[e + 2]) then Some(e + 3)
      else None
  }

  /**
   * Where the run of the amount pattern tried at `p` starts. After a peso sign the blanks
   * may be taken by `\s*` or by the run alike, so the run starts right after the sign,
   * unless a minus follows the blanks: then the run starts after the minus.
   */
  function RunStart(s: string, p: nat): nat
    requires p < |s|
  {
    var b := if s[p] == '$' then p + 1 else p;
    var w := if s[p] == '$' then DropFrom(s, IsSpace, b) else b;
    if w < |s| && s[w] == '-' then w + 1 else b
  }

  /**
   * The amount pattern tried at `p`, as its end. When the run fails, dropping the optional
   * parts leaves a peso sign or a minus where the run must start, which fails too.
   */
  function MontoAt(s: string, p: nat): (r: Option<nat>)
    ensures r.Some? ==> p < r.value <= |s|
  {
    if p >= |s| then None else RunTail(s, RunStart(s, p))
  }

  /** The spans of `re.findall` of the amount pattern over a line. */
  function MontoSpans(l: string): (r: seq<(nat, nat)>)
    ensures forall k :: 0 <= k < |r| ==> r[k].0 < r[k].1 <= |l| && MontoAt(l, r[k].0) == Some(r[k].1)
    ensures forall k :: 0 <= k < |r| - 1 ==> r[k].1 <= r[k + 1].0
  {
    var at := (q: nat) => MontoAt(l, q);
    assert IsMatcher(l, at);
    Spans(l, at, 0)
  }

  /** A run stops at the first character that is not in it. */
  lemma DropFromStops(s: string, drop: char -> bool, a: nat, p: nat)
    requires a <= p < |s| && !drop(s[p])
    ensures DropFrom(s, drop, a) <= p
  {
  }

  /** No amount starts before a peso sign when no comma lies in between. */
  lemma NoMontoAt(s: string, j: nat, p: nat)
    requires j < p < |s| && s[p] == '$'
    requires forall i :: j <= i < p ==> s[i] != ','
    ensures MontoAt(s, j).None?
  {
    RunStartBefore(s, j, p);
    NoRunTail(s, RunStart(s, j), p);
  }

  /** Tried before a peso sign, the run starts at the sign at the latest. */
  lemma RunStartBefore(s: string, j: nat, p: nat)
    requires j < p < |s| && s[p] == '$'
    ensures j <= RunStart(s, j) <= p
  {
    if s[j] == '$' {
      DropFromStops(s, IsSpace, j + 1, p);
    }
  }

  /** A run that meets a peso sign before any comma has no comma after it. */
  lemma NoRunTail(s: string, a: nat, p: nat)
    requires a <= p < |s| && s[p] == '$'
    requires forall i :: a <= i < p ==> s[i] != ','
    ensures RunTail(s, a).None?
  {
    DropFromStops(s, IsRunChar, a, p);
  }

  /** No amount starts in `[q, p)` when a peso sign is at `p` and no comma lies before it from `q`. */
  lemma NoMontoBefore(s: string, q: nat, p: nat)
    requires q <= p < |s| && s[p] == '$'
    requires forall i :: q <= i < p ==> s[i] != ','
    ensures forall j: nat :: q <= j < p ==> MontoAt(s, j).None?
  {
    forall j: nat | q <= j < p
      ensures MontoAt(s, j).None?
    {
      NoMontoAt(s, j, p);
    }
  }

  /** A printed amount is matched whole where it is written, whatever follows it. */
  lemma MontoAtLiteral(s: string, p: nat, t: string)
    requires AmountLiteral(t) && Placed(s, p, "$ " + t)
    ensures MontoAt(s, p) == Some(p + 2 + |t|)
  {
    LiteralAt(s, p, t);
    var a := if t[0] == '-' then p + 3 else p + 1;
    RunStartLiteral(s, p, t);
    RunTailIs(s, a, p + |t| - 1);
  }

  /** The characters of a printed amount written at `p`. */
  lemma LiteralAt(s: string, p: nat, t: string)
    requires Placed(s, p, "$ " + t)
    ensures p + 2 + |t| <= |s| && s[p] == '$' && s[p + 1] == ' '
    ensures forall i :: 0 <= i < |t| ==> s[p + 2 + i] == t[i]
  {
    assert s[p + 0] == ("$ " + t)[0] && s[p + 1] == ("$ " + t)[1];
    assert forall i :: 0 <= i < |t| ==> s[p + 2 + i] == ("$ " + t)[2 + i] == t[i];
  }

  /** The run of a printed amount starts after the peso sign, or after its minus. */
  lemma RunStartLiteral(s: string, p: nat, t: string)
    requires AmountLiteral(t) && p + 2 + |t| <= |s| && s[p] == '$' && s[p + 1] == ' '
    requires forall i :: 0 <= i < |t| ==> s[p + 2 + i] == t[i]
    ensures RunStart(s, p) == if t[0] == '-' then p + 3 else p + 1
    ensures forall i :: RunStart(s, p) <= i < p + |t| - 1 ==> IsRunChar(s[i])
    ensures s[p + |t| - 1] == ',' && IsDigit(s[p + |t|]) && IsDigit(s[p + |t| + 1])
  {
    assert s[p + 2 + 0] == t[0];
    DropFromIs(s, IsSpace, p + 1, p + 2);
    assert s[p + |t| - 1] == t[|t| - 3] && s[p + |t|] == t[|t| - 2] && s[p + |t| + 1] == t[|t| - 1];
    forall i | RunStart(s, p) <= i < p + |t| - 1
      ensures IsRunChar(s[i])
    {
      if i > p + 1 {
        assert s[i] == t[i - p - 2];
      }
    }
  }

  /** A run of run characters up to a comma and two digits ends the match there. */
  lemma RunTailIs(s: string, a: nat, e: nat)
    requires a < e && e + 3 <= |s| && s[e] == ',' && IsDigit(s[e + 1]) && IsDigit(s[e + 2])
    requires forall i :: a <= i < e ==> IsRunChar(s[i])
    ensures RunTail(s, a) == Some(e + 3)
  {
    DropFromIs(s, IsRunChar, a, e);
  }

  // ---------------------------------------------------------------------------
  // A movement line

  /** A reference number: digits only, more than two of them (`p.isdigit() and len(p) > 2`). */
  predicate IsRef(w: string) {
    |w| > 2 && AllDigits(w)
  }

  /** The first word from `i` on that is not a reference number, or the end of the words. */
  function FirstNonRef(ws: seq<string>, i: nat): (r: nat)
    requires i <= |ws|
    decreases |ws| - i
    ensures i <= r <= |ws| && (r < |ws| ==> !IsRef(ws[r]))
    ensures forall j :: i <= j < r ==> IsRef(ws[j])
  {
    if i < |ws| && IsRef(ws[i]) then FirstNonRef(ws, i + 1) else i
  }

  /**
   * Where the description starts among the words: at the first word that is not a
   * reference number, or at the first word when every word is one.
   */
  function DescStart(ws: seq<string>): (k: nat)
    ensures k <= |ws|
    ensures (forall j :: 0 <= j < |ws| ==> IsRef(ws[j])) ==> k == 0
    ensures (exists j :: 0 <= j < |ws| && !IsRef(ws[j]))
      ==> k < |ws| && !IsRef(ws[k]) && forall j :: 0 <= j < k ==> IsRef(ws[j])
  {
    var r := FirstNonRef(ws, 0);
    if r == |ws| then 0 else r
  }

  /** The loop over the words: skip reference numbers, stop at the first other word. */
  method StartDesc(ws: seq<string>) returns (start: nat)
    ensures start == DescStart(ws)
  {
    start := 0;
    for i := 0 to |ws|
      invariant start == 0 && forall j :: 0 <= j < i ==> IsRef(ws[j])
    {
      if !IsRef(ws[i]) {
        start := i;
        break;
      }
    }
  }

  /** `line[:idx].strip()[10:].strip()`: what precedes the cut, less the date. */
  function Rest(l: string, idx: nat): string
    requires idx <= |l|
  {
    Strip(From(Strip(l[..idx]), 10))
  }

  /** The description: the words of the rest from where the description starts, joined by blanks. */
  function Description(l: string, idx: nat): string
    requires idx <= |l|
  {
    var ws := Split(Rest(l, idx));
    Join(ws[DescStart(ws)..], " ")
  }

  /** A movement as read: the first word of the line, the cleaned description, the amount and the balance. */
  datatype Row = Row(date: string, description: string, amount: int, balance: int)

  /** A stripped line is read when it starts with `dd/mm/yyyy`, has five words or more and two amounts or more. */
  predicate Candidate(l: string) {
    DateAt(l, 0, '/', 4) && |Split(l)| >= 5 && |MontoSpans(l)| >= 2
  }

  /**
   * The row of a stripped line, cut where the amount's match starts: the last amount is the
   * balance, the one before it the amount, and the description is what precedes the amount.
   */
  function LineRow(l: string): (r: Option<Row>)
    ensures r.Some? <==> Candidate(l)
    ensures r.Some? ==> DateAt(r.value.date, 0, '/', 4)
  {
    if !Candidate(l) then None
    else
      var sp := MontoSpans(l);
      var imp, sal := sp[|sp| - 2], sp[|sp| - 1];
      FirstWordDated(l);
      Some(Row(Split(l)[0], CleanForExcel(Description(l, imp.0)), ParseAmount(l[imp.0..imp.1]), ParseAmount(l[sal.0..sal.1])))
  }

  /**
   * The row as the statement reader cuts it: at the last place where the amount's text
   * occurs in the line, which is the balance's place when both print alike.
   */
  function LineRowAsWritten(l: string): (r: Option<Row>)
    ensures r.Some? ==> Candidate(l)
  {
    if !Candidate(l) then None
    else
      var sp := MontoSpans(l);
      var imp, sal := sp[|sp| - 2], sp[|sp| - 1];
      var t := l[imp.0..imp.1];
      var idx := RFind(l, t);
      if idx < 0 then None
      else Some(Row(Split(l)[0], CleanForExcel(Description(l, idx)), ParseAmount(t), ParseAmount(l[sal.0..sal.1])))
  }

  /** The loop body for one stripped line. */
  method ReadLine(l: string) returns (r: Option<Row>)
    ensures r == LineRow(l)
  {
    if !Candidate(l) {
      return None;
    }
    var sp := MontoSpans(l);
    var imp, sal := sp[|sp| - 2], sp[|sp| - 1];
    var desc := CutDescription(l, imp.0);
    r := Some(Row(Split(l)[0], CleanForExcel(desc), ParseAmount(l[imp.0..imp.1]), ParseAmount(l[sal.0..sal.1])));
  }

  /** The words of the rest of the line, from where the description starts, joined by blanks. */
  method CutDescription(l: string, idx: nat) returns (desc: string)
    requires idx <= |l|
    ensures desc == Description(l, idx)
  {
    var ws := Split(Rest(l, idx));
    var start := StartDesc(ws);
    desc := Join(ws[start..], " ");
  }

  // ---------------------------------------------------------------------------
  // The lines of the statement

  /** The row a stripped line gives, as a list of none or one. */
  function RowsOf(l: string): (rs: seq<Row>)
    ensures |rs| <= 1
  {
    match LineRow(l)
    case Some(r) => [r]
    case None => []
  }

  /** The loop body as a list: the row of one stripped line, if it reads as one. */
  method ReadRows(l: string) returns (rs: seq<Row>)
    ensures rs == RowsOf(l)
  {
    var r := ReadLine(l);
    if r.Some? {
      rs := [r.value];
    } else {
      rs := [];
    }
  }

  /** The rows of the given lines, each line stripped first. */
  function ScanAll(lines: seq<string>): seq<Row> {
    if lines == [] then [] else ScanAll(lines[..|lines| - 1]) + RowsOf(Strip(lines[|lines| - 1]))
  }

  /** The line loop: every stripped line that reads as a movement appends its row. */
  method Scan(lines: seq<string>) returns (rows: seq<Row>)
    ensures rows == ScanAll(lines)
  {
    rows := [];
    for i := 0 to |lines|
      invariant rows == ScanAll(lines[..i])
    {
      var rs := ReadRows(Strip(lines[i]));
      ScanStep(lines, i);
      rows := rows + rs;
    }
    assert lines[..|lines|] == lines;
  }

  /** Reading one more line appends that line's rows. */
  lemma ScanStep(lines: seq<string>, i: nat)
    requires i < |lines|
    ensures ScanAll(lines[..i + 1]) == ScanAll(lines[..i]) + RowsOf(Strip(lines[i]))
  {
    assert lines[..i + 1][..i] == lines[..i];
  }

  /** The number of lines that read as movements once stripped. */
  function CandidateCount(lines: seq<string>): nat {
    if lines == [] then 0
    else CandidateCount(lines[..|lines| - 1]) + if Candidate(Strip(lines[|lines| - 1])) then 1 else 0
  }

  /** There is one row per line that reads as a movement. */
  lemma {:induction false} RowsPerCandidate(lines: seq<string>)
    ensures |ScanAll(lines)| == CandidateCount(lines)
  {
    if lines != [] {
      RowsPerCandidate(lines[..|lines| - 1]);
    }
  }

  /** The first word of a text that starts with `dd/mm/yyyy` starts with it too. */
  lemma FirstWordDated(l: string)
    requires DateAt(l, 0, '/', 4)
    ensures Split(l) != [] && DateAt(Split(l)[0], 0, '/', 4)
  {
    DropFromIs(l, IsSpace, 0, 0);
    assert LStrip(l) == l;
    var k := WordLength(l);
    assert forall i :: 0 <= i < 10 ==> !IsSpace(l[i]);
    assert 10 <= k;
    SplitOf(l, l, k);
    assert forall i :: 0 <= i < 10 ==> l[..k][i] == l[i];
  }

  // ---------------------------------------------------------------------------
  // Dates: `pd.to_datetime(df["Fecha"], format="%d/%m/%Y")`

  predicate IsLeap(y: int) {
    y % 4 == 0 && (y % 100 != 0 || y % 400 == 0)
  }

  /** The number of days of a month of the Gregorian calendar. */
  function DaysIn(y: int, m: int): int {
    if m == 2 then (if IsLeap(y) then 29 else 28)
    else if m == 4 || m == 6 || m == 9 || m == 11 then 30
    else 31
  }

  /** A day lies within the span of pandas timestamps: from 22 September 1677 to 11 April 2262. */
  predicate InTimestampRange(y: int, m: int, d: int) {
    (y > 1677 || (y == 1677 && (m > 9 || (m == 9 && d >= 22))))
    && (y < 2262 || (y == 2262 && (m < 4 || (m == 4 && d <= 11))))
  }

  /** The day, month and year of a calendar day, within the span of pandas timestamps. */
  predicate IsCalendarDay(d: int, m: int, y: int) {
    1 <= m <= 12 && 1 <= d <= DaysIn(y, m) && InTimestampRange(y, m, d)
  }

  /**
   * The conversion succeeds: the text is exactly `dd/mm/yyyy` and names a calendar day
   * within the span of pandas timestamps. Any other text makes the conversion raise.
   */
  predicate ValidDate(t: string) {
    |t| == 10 && DateAt(t, 0, '/', 4)
    && AllDigits(t[..2]) && AllDigits(t[3..5]) && AllDigits(t[6..])
    && IsCalendarDay(DigitsValue(t[..2]), DigitsValue(t[3..5]), DigitsValue(t[6..]))
  }

  /** A date written `dd/mm/yyyy`. */
  function DateText(d: nat, m: nat, y: nat): string
    requires d < 100 && m < 100 && y < 10000
  {
    Pad2(d) + "/" + Pad2(m) + "/" + (Pad2(y / 100) + Pad2(y % 100))
  }

  /** A written date converts exactly when it names a calendar day within the span of pandas timestamps. */
  lemma DateTextValid(d: nat, m: nat, y: nat)
    requires d < 100 && m < 100 && y < 10000
    ensures ValidDate(DateText(d, m, y)) <==> IsCalendarDay(d, m, y)
  {
    YearDigits(y);
    DateFields(Pad2(d), Pad2(m), Pad2(y / 100) + Pad2(y % 100));
  }

  /** A year written in four digits reads back as itself. */
  lemma YearDigits(y: nat)
    requires y < 10000
    ensures var yd := Pad2(y / 100) + Pad2(y % 100);
      |yd| == 4 && AllDigits(yd) && DigitsValue(yd) == y
  {
    DigitsValueAppend(Pad2(y / 100), Pad2(y % 100));
    assert Pow10(2) == 100 by {
      assert Pow10(0) == 1;
    }
  }

  /** The fields of a date written from its fields. */
  lemma DateFields(dd: string, mm: string, yyyy: string)
    requires |dd| == 2 && |mm| == 2 && |yyyy| == 4 && AllDigits(dd) && AllDigits(mm) && AllDigits(yyyy)
    ensures var t := dd + "/" + mm + "/" + yyyy;
      |t| == 10 && DateAt(t, 0, '/', 4) && t[..2] == dd && t[3..5] == mm && t[6..] == yyyy
  {
    var t := dd + "/" + mm + "/" + yyyy;
    assert t[0] == dd[0] && t[1] == dd[1] && t[3] == mm[0] && t[4] == mm[1];
    assert forall i :: 6 <= i < 10 ==> t[i] == yyyy[i - 6];
  }

  // ---------------------------------------------------------------------------
  // The sheet

  /** The ledger movements of the rows, in the order read. */
  function Movements(rows: seq<Row>): (ms: seq<Ledger.Movement>)
    ensures |ms| == |rows| && forall k :: 0 <= k < |rows| ==> ms[k] == Ledger.Movement(rows[k].date, rows[k].description, rows[k].amount)
  {
    seq(|rows|, k requires 0 <= k < |rows| => Ledger.Movement(rows[k].date, rows[k].description, rows[k].amount))
  }

  /** The balances of the rows, in the order read. */
  function Balances(rows: seq<Row>): (bs: seq<int>)
    ensures |bs| == |rows| && forall k :: 0 <= k < |rows| ==> bs[k] == rows[k].balance
  {
    seq(|rows|, k requires 0 <= k < |rows| => rows[k].balance)
  }

  /**
   * The sheet of the rows read newest first: reversed into date order, the opening balance
   * the oldest row's balance less its amount, the closing balance the newest row's.
   */
  function SheetOf(rows: seq<Row>): Ledger.Sheet
    requires rows != []
  {
    var oldest := rows[|rows| - 1];
    Ledger.ListingSheet("Reporte Macro", oldest.balance - oldest.amount, rows[0].balance, Ledger.Reverse(Movements(rows)))
  }

  /**
   * The whole statement: no sheet when no line reads as a movement, and none when a row's
   * date does not convert (the conversion raises and the reader gives up).
   */
  method Process(lines: seq<string>) returns (sheet: Option<Ledger.Sheet>)
    ensures sheet.None? <==> ScanAll(lines) == [] || !DatesValid(ScanAll(lines))
    ensures sheet.Some? ==> ScanAll(lines) != [] && sheet.value == SheetOf(ScanAll(lines))
  {
    var rows := Scan(lines);
    if rows == [] || !DatesValid(rows) {
      return None;
    }
    sheet := Some(SheetOf(rows));
  }

  /** Every row's date converts. */
  predicate DatesValid(rows: seq<Row>) {
    forall k :: 0 <= k < |rows| ==> ValidDate(rows[k].date)
  }

  /** Each row's balance is the next older row's balance plus the row's amount. */
  predicate RowsChain(rows: seq<Row>) {
    forall k :: 0 <= k < |rows| - 1 ==> rows[k].balance == rows[k + 1].balance + rows[k].amount
  }

  /**
   * When the balances chain, the opening balance plus the net movement is the closing
   * balance: the sheet's control value is zero.
   */
  lemma BalancedSheet(rows: seq<Row>)
    requires rows != [] && RowsChain(rows)
    ensures SheetOf(rows).control == Some(0)
  {
    var ms, bs := Movements(rows), Balances(rows);
    assert Ledger.ChainedNewestFirst(Ledger.Amounts(ms), bs);
    Ledger.NewestFirstBalanced("Reporte Macro", ms, bs);
  }

  /** The sheet lists the oldest row first and the newest last. */
  lemma SheetOrder(rows: seq<Row>)
    requires rows != []
    ensures var xs, n := Ledger.Amounts(Ledger.Reverse(Movements(rows))), |rows|;
      |xs| == n && forall i :: 0 <= i < n ==> xs[i] == rows[n - 1 - i].amount
  {
    var n, rm := |rows|, Ledger.Reverse(Movements(rows));
    forall i | 0 <= i < n
      ensures Ledger.Amounts(rm)[i] == rows[n - 1 - i].amount
    {
      assert rm[i] == Movements(rows)[n - 1 - i];
    }
  }
}
