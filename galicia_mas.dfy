/**
 * Banco Galicia Más statements.
 *
 * The first page holds the statement period (which gives the year) and a summary table:
 * one row per product with its account number and its opening and closing balances. The
 * movement listing follows, page by page. A line announcing `NRO.` and a known account
 * number selects the account the next lines belong to. A transaction line is an optional
 * `dd-MMM` date, a dash and a text whose last two amounts are the movement and the balance
 * after it; an undated transaction inherits the last date seen. Whether a movement is a
 * credit or a debit is read from how the balance moved, within one peso, and failing that
 * from deposit and credit keywords. Other lines continue the last description unless they
 * are page furniture. Amounts are US literals (`100,000.00`, `.03`).
 */
module GaliciaMas {
  import opened Text
  import opened Optional
  import opened Amounts
  import Ledger

  // ---------------------------------------------------------------------------
  // Account numbers: `\d{3,4}-?\d?-?\d{5}-\d`

  /** What the account-number pattern admits: three digits, at most four more digits or dashes, five digits, a dash and a check digit. */
  predicate IsCuentaShape(t: string) {
    10 <= |t| <= 14 && DigitsAt(t, 0, 3)
    && (forall i :: 3 <= i < |t| - 7 ==> IsDigit(t[i]) || t[i] == '-')
    && DigitsAt(t, |t| - 7, 5) && t[|t| - 2] == '-' && IsDigit(t[|t| - 1])
  }

  /** An optional `\d?` or `-?` at `q`: when `take`, it consumes one such character; otherwise nothing. */
  function Opt(s: string, q: nat, take: bool, digit: bool): (r: Option<nat>)
    ensures r.Some? ==> q <= r.value <= q + 1
    ensures r.Some? && r.value == q + 1 ==> q < |s| && (IsDigit(s[q]) || s[q] == '-')
  {
    if !take then Some(q)
    else if q < |s| && (if digit then IsDigit(s[q]) else s[q] == '-') then Some(q + 1)
    else None
  }

  /**
   * One way of matching the pattern at `p`, numbered in the order the regex engine tries
   * them: four leading digits before three, and each optional part taken before skipped.
   */
  function CuentaTry(s: string, p: nat, c: nat): (r: Option<nat>)
    requires c < 16
    ensures r.Some? ==> p < r.value <= |s| && IsCuentaShape(s[p..(r.value)])
  {
    var lead := if c < 8 then 4 else 3;
    if !DigitsAt(s, p, lead) then None
    else
      var a := Opt(s, p + lead, c % 8 < 4, false);
      var b := if a.Some? then Opt(s, a.value, c % 4 < 2, true) else None;
      var d := if b.Some? then Opt(s, b.value, c % 2 == 0, false) else None;
      if d.Some? && DigitsAt(s, d.value, 5) && CharAt(s, d.value + 5, '-') && DigitsAt(s, d.value + 6, 1) then
        CuentaShapeAt(s, p, d.value + 7);
        Some(d.value + 7)
      else None
  }

  lemma CuentaShapeAt(s: string, p: nat, e: nat)
    requires p + 10 <= e <= p + 14 && e <= |s|
    requires DigitsAt(s, p, 3) && forall i :: p + 3 <= i < e - 7 ==> IsDigit(s[i]) || s[i] == '-'
    requires DigitsAt(s, e - 7, 5) && s[e - 2] == '-' && IsDigit(s[e - 1])
    ensures IsCuentaShape(s[p..e])
  {
    var t := s[p..e];
    assert forall i :: 0 <= i < |t| ==> t[i] == s[p + i];
  }

  /** The first way of matching the pattern at `p`, trying them from number `c` on. */
  function CuentaChoice(s: string, p: nat, c: nat): (r: Option<nat>)
    requires c <= 16
    decreases 16 - c
    ensures r.Some? ==> p < r.value <= |s| && IsCuentaShape(s[p..(r.value)])
  {
    if c == 16 then None
    else match CuentaTry(s, p, c)
      case Some(e) => Some(e)
      case None => CuentaChoice(s, p, c + 1)
  }

  /** The account-number pattern tried at `p`, as the end of its match. */
  function CuentaAt(s: string, p: nat): (r: Option<nat>)
    ensures r.Some? ==> p < r.value <= |s| && IsCuentaShape(s[p..(r.value)])
  {
    CuentaChoice(s, p, 0)
  }

  /** The leftmost account number in a line (the source's `re_cuenta.search`). */
  function CuentaSearch(s: string): (r: Option<string>)
    ensures r.Some? ==> IsCuentaShape(r.value) && Contains(s, r.value)
  {
    var at := (q: nat) => CuentaAt(s, q);
    assert IsMatcher(s, at);
    match Search(s, at)
    case None => None
    case Some(sp) =>
      assert OccursAt(s, s[sp.0..sp.1], sp.0);
      Some(s[sp.0..sp.1])
  }

  /** The usual `dddd-ddddd-d` number is matched whole. */
  lemma CuentaStandard(x: string)
    requires |x| == 12 && DigitsAt(x, 0, 4) && x[4] == '-' && DigitsAt(x, 5, 5) && x[10] == '-' && IsDigit(x[11])
    ensures CuentaAt(x, 0) == Some(12)
  {
    assert CuentaTry(x, 0, 0).None? && CuentaTry(x, 0, 1).None? && CuentaTry(x, 0, 2).None?;
    assert CuentaTry(x, 0, 3) == Some(12);
  }

  /** The `ddd-d-ddddd-d` form is matched whole too. */
  lemma CuentaWithBranch(x: string)
    requires |x| == 13 && DigitsAt(x, 0, 3) && x[3] == '-' && IsDigit(x[4]) && x[5] == '-'
    requires DigitsAt(x, 6, 5) && x[11] == '-' && IsDigit(x[12])
    ensures CuentaAt(x, 0) == Some(13)
  {
    assert forall c :: 0 <= c < 8 ==> CuentaTry(x, 0, c).None?;
    assert CuentaTry(x, 0, 8) == Some(13);
  }

  // ---------------------------------------------------------------------------
  // Amounts: `(?<!\d)(\d{1,3}(?:,\d{3})*\.\d{2}|\.\d{2})(?!\d)`

  /** What an amount matched in a line looks like: a US literal, or bare cents `.dd`. */
  predicate IsMonto(t: string) {
    IsUsLiteral(t) || (|t| == 3 && t[0] == '.' && AllDigits(t[1..]))
  }

  /**
   * The amount pattern tried at `p`. No digit may precede it. A grouped literal cannot be
   * shortened into a match, so one followed by a digit fails; the bare-cents alternative
   * starts with the dot.
   */
  function MontoAt(s: string, p: nat): (r: Option<nat>)
    ensures r.Some? ==> p < r.value <= |s| && IsMonto(s[p..(r.value)])
    ensures r.Some? ==> p == 0 || !IsDigit(s[p - 1])
    ensures r.Some? ==> r.value == |s| || !IsDigit(s[r.value])
  {
    if 0 < p <= |s| && IsDigit(s[p - 1]) then None
    else match GroupedAt(s, p, ',', '.')
      case Some(e) => if e < |s| && IsDigit(s[e]) then None else Some(e)
      case None =>
        if p + 3 <= |s| && s[p] == '.' && IsDigit(s[p + 1]) && IsDigit(s[p + 2])
          && (p + 3 == |s| || !IsDigit(s[p + 3])) then
          assert s[p..p + 3][1..] == s[p + 1..p + 3];
          Some(p + 3)
        else None
  }

  /** Every amount in a text, left to right (the source's `re_monto.findall`). */
  function Montos(s: string): (r: seq<string>)
    ensures forall k :: 0 <= k < |r| ==> IsMonto(r[k])
  {
    var at := (q: nat) => MontoAt(s, q);
    assert IsMatcher(s, at);
    var sp := Spans(s, at, 0);
    assert forall k :: 0 <= k < |sp| ==> IsMonto(s[sp[k].0..sp[k].1]) by {
      forall k | 0 <= k < |sp|
        ensures IsMonto(s[sp[k].0..sp[k].1])
      {
        assert at(sp[k].0) == Some(sp[k].1);
      }
    }
    Texts(s, sp)
  }

  /** Bare cents `.dd` read as that many cents. */
  lemma CentsOnly(f: string)
    requires |f| == 2 && AllDigits(f)
    ensures ParseUsPlain("." + f) == Some(DigitsValue(f))
  {
    var t := "." + f;
    RemoveCharNoop(t, ',');
    assert IndexOf(t, '.') == 0;
    assert t[..0] == [] && t[1..] == f;
  }

  /** A matched amount always reads as a non-negative number. */
  lemma MontoParses(t: string)
    requires IsMonto(t)
    ensures ParseUsPlain(t).Some? && ParseUsPlain(t).value >= 0
  {
    if IsUsLiteral(t) {
      UsLiteralValue(t);
    } else {
      assert t == "." + t[1..];
      CentsOnly(t[1..]);
    }
  }

  /** The value of a matched amount, in cents: what `float(m.replace(",", ""))` gives. */
  function MontoValue(t: string): (v: int)
    requires IsMonto(t)
    ensures v >= 0 && ParseUsPlain(t) == Some(v)
  {
    MontoParses(t);
    ParseUsPlain(t).value
  }

  /** Every amount printed in the canonical US form is recognised and read back. */
  lemma MontoRoundTrip(c: nat)
    ensures IsMonto(FormatUs(c)) && MontoValue(FormatUs(c)) == c
  {
    UsFormatShape(c);
    UsRoundTrip(c);
  }

  /** `rfind` of the last amount, then whether what follows it starts with a minus sign. */
  function MinusAfter(text: string, m: string): bool {
    var k := RFind(text, m);
    k >= 0 && StartsWith(Strip(text[k + |m|..]), "-")
  }

  /** A minus sign right after the last amount marks a negative balance. */
  lemma MinusAfterLiteral(x: string, m: string)
    requires m != [] && IsDigit(m[|m| - 1])
    ensures MinusAfter(x + m + "-", m)
  {
    var s := x + m + "-";
    assert OccursAt(s, m, |x|);
    var k := RFind(s, m);
    assert k == |x|;
    assert s[k + |m|..] == "-";
    StripNoop("-");
  }

  // ---------------------------------------------------------------------------
  // Transaction lines: `^\s*(?:(\d{2}-[A-Z]{3})\s+)?-\s+(.+)`

  /** `\d{2}-[A-Z]{3}` at `p`: a day and a month abbreviation such as `05-MAR`. */
  predicate TrxDateAt(s: string, p: nat) {
    DigitsAt(s, p, 2) && CharAt(s, p + 2, '-') && p + 6 <= |s|
    && IsUpperLetter(s[p + 3]) && IsUpperLetter(s[p + 4]) && IsUpperLetter(s[p + 5])
  }

  /**
   * `-\s+(.+)` at `q`: where the group starts. `\s+` gives back its last character when
   * nothing else is left for `.+`. Lines hold no line break, so `.` takes any character.
   */
  function DashRest(s: string, q: nat): (r: Option<nat>)
    ensures r.Some? ==> q + 2 <= r.value < |s| && s[q] == '-'
  {
    if CharAt(s, q, '-') && q + 1 < |s| && IsSpace(s[q + 1]) then
      var e := SpaceEnd(s, q + 1);
      if e < |s| then Some(e) else if e - (q + 1) >= 2 then Some(e - 1) else None
    else None
  }

  /** A transaction line: its own date, if it has one, and the text after the dash. */
  datatype Trx = Trx(date: Option<string>, text: string)

  /**
   * The transaction pattern matched at the start of a line. The date branch is tried
   * first; when it cannot lead to the dash, the line must start with the dash itself.
   */
  function TrxMatch(s: string): (r: Option<Trx>)
    ensures r.Some? ==> r.value.text != [] && EndsWith(s, r.value.text)
    ensures r.Some? && r.value.date.Some? ==> |r.value.date.value| == 6 && TrxDateAt(r.value.date.value, 0)
  {
    var a := SpaceEnd(s, 0);
    var dated := if TrxDateAt(s, a) && a + 6 < |s| && IsSpace(s[a + 6]) then DashRest(s, SpaceEnd(s, a + 6)) else None;
    if dated.Some? then Some(Trx(Some(DateText(s, a)), Rest(s, dated.value)))
    else match DashRest(s, a)
      case Some(g) => Some(Trx(None, Rest(s, g)))
      case None => None
  }

  /** The six characters of a date at `a`. */
  function DateText(s: string, a: nat): (d: string)
    requires TrxDateAt(s, a)
    ensures |d| == 6 && TrxDateAt(d, 0)
  {
    assert s[a..a + 6][0..2] == s[a..a + 2];
    s[a..a + 6]
  }

  /** What follows position `g`: a non-empty end of the line. */
  function Rest(s: string, g: nat): (t: string)
    requires g < |s|
    ensures t != [] && EndsWith(s, t)
  {
    s[g..]
  }

  /** A dated transaction line gives its date and its text. */
  lemma TrxDated(d: string, x: string)
    requires |d| == 6 && TrxDateAt(d, 0) && x != [] && !IsSpace(x[0])
    ensures TrxMatch(d + " - " + x) == Some(Trx(Some(d), x))
  {
    var s := d + " - " + x;
    assert !IsSpace(s[0]);
    assert SpaceEnd(s, 0) == 0;
    assert s[6] == ' ' && s[7] == '-' && s[8] == ' ' && s[9] == x[0];
    assert SpaceEnd(s, 9) == 9;
    assert SpaceEnd(s, 8) == 9;
    assert SpaceEnd(s, 6) == 7;
    assert s[0..6] == d && s[9..] == x;
  }

  /** An undated transaction line gives only its text. */
  lemma TrxUndated(x: string)
    requires x != [] && !IsSpace(x[0])
    ensures TrxMatch("- " + x) == Some(Trx(None, x))
  {
    var s := "- " + x;
    assert SpaceEnd(s, 0) == 0;
    assert s[2] == x[0] && SpaceEnd(s, 2) == 2 && SpaceEnd(s, 1) == 2;
    assert s[2..] == x;
  }

  // ---------------------------------------------------------------------------
  // The year

  /** `EXTRACTO DEL dd/dd/dddd AL dd/dd/dddd` at `p`. */
  predicate PeriodAt(s: string, p: nat) {
    OccursAt(s, "EXTRACTO DEL ", p) && DateAt(s, p + 13, '/', 4) && OccursAt(s, " AL ", p + 23)
    && DateAt(s, p + 27, '/', 4)
  }

  /** `EXTRACTO DEL dd/dd/dddd` at `p`. */
  predicate PeriodStartAt(s: string, p: nat) {
    OccursAt(s, "EXTRACTO DEL ", p) && DateAt(s, p + 13, '/', 4)
  }

  /** The year a match at `p` gives: the second date's year for the full period, else the first date's. */
  function YearAt(s: string, p: nat, full: bool): (y: string)
    requires if full then PeriodAt(s, p) else PeriodStartAt(s, p)
    ensures |y| == 4 && AllDigits(y)
  {
    if full then s[p + 33..p + 37] else s[p + 19..p + 23]
  }

  /** The year of the leftmost match in a line, from position `p` on. */
  function YearFrom(s: string, p: nat, full: bool): (r: Option<string>)
    decreases |s| - p
    ensures r.Some? ==> |r.value| == 4 && AllDigits(r.value)
  {
    if p >= |s| then None
    else if (if full then PeriodAt(s, p) else PeriodStartAt(s, p)) then Some(YearAt(s, p, full))
    else YearFrom(s, p + 1, full)
  }

  /** The year of the first line of the page that matches (a search over the whole page text). */
  function YearInLines(lines: seq<string>, full: bool): (r: Option<string>)
    ensures r.Some? ==> |r.value| == 4 && AllDigits(r.value)
  {
    if lines == [] then None
    else match YearFrom(lines[0], 0, full)
      case Some(y) => Some(y)
      case None => YearInLines(lines[1..], full)
  }

  /** The statement year: from the full period, else from its first date, else 2024. */
  function YearOf(page1: seq<string>): (y: string)
    ensures |y| == 4 && AllDigits(y)
  {
    match YearInLines(page1, true)
    case Some(y) => y
    case None => YearInLines(page1, false).GetOr("2024")
  }

  /** A page whose first line opens with the full period takes the year of the period's end. */
  lemma YearOfPeriod(l: string, rest: seq<string>)
    requires PeriodAt(l, 0)
    ensures YearOf([l] + rest) == l[33..37]
  {
    assert ([l] + rest)[0] == l;
  }

  // ---------------------------------------------------------------------------
  // The summary table

  /** The accounts of the summary in order of appearance, their product names and balances. */
  datatype Summary = Summary(order: seq<string>, products: map<string, string>, openings: map<string, int>, closings: map<string, int>)

  /** Each account is listed once, and balances are recorded only for listed accounts, in pairs. */
  ghost predicate SummaryOk(sm: Summary) {
    Distinct(sm.order) && (forall n :: n in sm.products <==> n in sm.order)
    && sm.openings.Keys == sm.closings.Keys && sm.openings.Keys <= sm.products.Keys
  }

  /**
   * The product name of a summary row: the text before the account number, without a last
   * word of three or more letters (the currency), stripped.
   */
  function ProductName(l: string, c: string): (r: string)
    requires Contains(l, c)
    ensures r == [] || (!IsSpace(r[0]) && !IsSpace(r[|r| - 1]))
  {
    Strip(WithoutCurrencyWord(Strip(l[..Find(l, c)])))
  }

  /** The words of `pre` without the last one when it has three or more letters; `pre` itself otherwise. */
  function WithoutCurrencyWord(pre: string): string {
    var parts := Split(pre);
    var n := |parts|;
    if n > 0 && |parts[n - 1]| >= 3 && IsAlpha(parts[n - 1]) then Join(parts[..n - 1], " ") else pre
  }

  /** The opening and closing balance a summary row's amounts give, if any. */
  function RowBalances(ms: seq<string>): Option<(int, int)>
    requires forall k :: 0 <= k < |ms| ==> IsMonto(ms[k])
  {
    if |ms| >= 2 then Some((MontoValue(ms[|ms| - 2]), MontoValue(ms[|ms| - 1])))
    else if |ms| == 1 then Some((0, MontoValue(ms[0])))
    else None
  }

  /**
   * Records a summary row for account `c`: its product, and the balances its amounts give.
   * Two or more amounts give the opening (second to last) and closing (last) balances, a
   * single amount the closing balance with a zero opening, and no amount leaves the
   * balances as they were. A new account is appended to the order; a known one keeps its
   * place.
   */
  function Record(sm: Summary, c: string, product: string, ms: seq<string>): (r: Summary)
    requires SummaryOk(sm) && forall k :: 0 <= k < |ms| ==> IsMonto(ms[k])
    ensures SummaryOk(r) && r.products == sm.products[c := product]
    ensures r.order == if c in sm.products then sm.order else sm.order + [c]
    ensures |ms| >= 2 ==> r.openings == sm.openings[c := MontoValue(ms[|ms| - 2])]
                          && r.closings == sm.closings[c := MontoValue(ms[|ms| - 1])]
    ensures |ms| == 1 ==> r.openings == sm.openings[c := 0] && r.closings == sm.closings[c := MontoValue(ms[0])]
    ensures ms == [] ==> r.openings == sm.openings && r.closings == sm.closings
  {
    var order := if c in sm.products then sm.order else sm.order + [c];
    var products := sm.products[c := product];
    match RowBalances(ms)
    case None => Summary(order, products, sm.openings, sm.closings)
    case Some(b) => Summary(order, products, sm.openings[c := b.0], sm.closings[c := b.1])
  }

  /** The table header line. */
  predicate IsSummaryStart(ls: string) {
    Contains(ls, "PRODUCTO") && Contains(ls, "SALDO")
  }

  /** A line that closes the table: the account-detail heading, a blank line or `DETALLE`. */
  predicate IsSummaryEnd(ls: string) {
    (Contains(ls, "NRO.") && Contains(ls, "EN")) || ls == [] || Contains(ls, "DETALLE")
  }

  /**
   * A line of the first page with what the summary scan reads on it: whether it opens or
   * closes the table, the account number on it with the row's product, and its amounts.
   */
  datatype Row = Row(opens: bool, closes: bool, cuenta: Option<string>, product: string, ms: seq<string>)

  /** The amounts of a row are amounts. */
  predicate RowOk(w: Row) {
    forall k :: 0 <= k < |w.ms| ==> IsMonto(w.ms[k])
  }

  /** What the summary scan reads on line `l`. */
  function RowOf(l: string): (w: Row)
    ensures RowOk(w) && w.cuenta == CuentaSearch(l) && w.ms == Montos(l)
    ensures w.opens == IsSummaryStart(Strip(l)) && w.closes == IsSummaryEnd(Strip(l))
    ensures w.cuenta.Some? ==> w.product == ProductName(l, w.cuenta.value)
  {
    var ls := Strip(l);
    var c := CuentaSearch(l);
    Row(IsSummaryStart(ls), IsSummaryEnd(ls), c, if c.Some? then ProductName(l, c.value) else [], Montos(l))
  }

  /** What the summary scan reads on every line. */
  function RowsOf(lines: seq<string>): (r: seq<Row>)
    ensures |r| == |lines| && forall i :: 0 <= i < |lines| ==> r[i] == RowOf(lines[i])
    ensures forall i :: 0 <= i < |r| ==> RowOk(r[i])
  {
    seq(|lines|, i requires 0 <= i < |lines| => RowOf(lines[i]))
  }

  /** A row of the summary table: rows without an account number are ignored. */
  function SummaryRow(sm: Summary, w: Row): (r: Summary)
    requires SummaryOk(sm) && RowOk(w)
    ensures SummaryOk(r)
    ensures w.cuenta.None? ==> r == sm
    ensures w.cuenta.Some? ==> r.products == sm.products[w.cuenta.value := w.product]
  {
    match w.cuenta
    case None => sm
    case Some(c) => Record(sm, c, w.product, w.ms)
  }

  /**
   * One line of the summary scan, with whether the table is open: the header opens it, a
   * closing line closes it, and a line inside it is a row.
   */
  function SummaryStep(sm: Summary, inTable: bool, w: Row): (r: (Summary, bool))
    requires SummaryOk(sm) && RowOk(w)
    ensures SummaryOk(r.0)
    ensures r.1 <==> w.opens || (inTable && !w.closes)
    ensures !(inTable && !w.opens && !w.closes) ==> r.0 == sm
  {
    if w.opens then (sm, true)
    else if !inTable then (sm, false)
    else if w.closes then (sm, false)
    else (SummaryRow(sm, w), true)
  }

  /** The summary after the first `n` lines, and whether the table is still open. */
  function SummaryAfter(ws: seq<Row>, n: nat): (r: (Summary, bool))
    requires n <= |ws| && forall i :: 0 <= i < |ws| ==> RowOk(ws[i])
    ensures SummaryOk(r.0)
  {
    if n == 0 then (Summary([], map[], map[], map[]), false)
    else
      var prev := SummaryAfter(ws, n - 1);
      SummaryStep(prev.0, prev.1, ws[n - 1])
  }

  /** A row inside the open table whose line holds an account number records that account with the row's product. */
  lemma SummaryRowRecorded(ws: seq<Row>, n: nat)
    requires n < |ws| && (forall i :: 0 <= i < |ws| ==> RowOk(ws[i])) && SummaryAfter(ws, n).1
    requires !ws[n].opens && !ws[n].closes && ws[n].cuenta.Some?
    ensures SummaryAfter(ws, n + 1).1
    ensures SummaryAfter(ws, n + 1).0.products == SummaryAfter(ws, n).0.products[ws[n].cuenta.value := ws[n].product]
  {
  }

  /** Outside the table, a line that does not open it changes nothing. */
  lemma OutsideTableIgnored(ws: seq<Row>, n: nat)
    requires n < |ws| && (forall i :: 0 <= i < |ws| ==> RowOk(ws[i])) && !SummaryAfter(ws, n).1 && !ws[n].opens
    ensures SummaryAfter(ws, n + 1) == SummaryAfter(ws, n)
  {
  }

  /** The account numbers found on the first `n` lines. */
  function NumbersIn(ws: seq<Row>, n: nat): (r: set<string>)
    requires n <= |ws|
    ensures forall c :: c in r ==> exists i :: 0 <= i < n && ws[i].cuenta == Some(c)
  {
    if n == 0 then {}
    else NumbersIn(ws, n - 1) + (if ws[n - 1].cuenta.Some? then {ws[n - 1].cuenta.value} else {})
  }

  /** Every account of the summary is a number found on one of the lines read. */
  lemma {:induction false} SummaryFound(ws: seq<Row>, n: nat)
    requires n <= |ws| && forall i :: 0 <= i < |ws| ==> RowOk(ws[i])
    ensures SummaryAfter(ws, n).0.products.Keys <= NumbersIn(ws, n)
  {
    if n > 0 {
      SummaryFound(ws, n - 1);
    }
  }

  /**
   * Reads the summary table of the first page: rows between the header and the line that
   * closes it.
   */
  method ReadSummary(ws: seq<Row>) returns (sm: Summary)
    requires forall i :: 0 <= i < |ws| ==> RowOk(ws[i])
    ensures sm == SummaryAfter(ws, |ws|).0
    ensures SummaryOk(sm)
  {
    sm := Summary([], map[], map[], map[]);
    var inSummary := false;
    for i := 0 to |ws|
      invariant SummaryAfter(ws, i) == (sm, inSummary)
    {
      if ws[i].opens {
        inSummary := true;
      } else if inSummary {
        if ws[i].closes {
          inSummary := false;
        } else {
          sm := SummaryRow(sm, ws[i]);
        }
      }
    }
  }

  // ---------------------------------------------------------------------------
  // Movements

  /** A movement: the amount sits in the debit or the credit column; the balance is the printed one. */
  datatype Entry = Entry(date: string, description: string, debit: int, credit: int, balance: int)

  /** The movements read so far, by account number. */
  type Data = map<string, seq<Entry>>

  /** Both columns are non-negative and at most one holds the amount. */
  predicate OneSided(e: Entry) {
    e.debit >= 0 && e.credit >= 0 && (e.debit == 0 || e.credit == 0)
  }

  /** The keywords that make an unresolved movement a credit. */
  const CreditWords: seq<string> := ["DEP.", "DEPOSITO", "CRED", "CREDI"]

  /**
   * Whether a movement of `amount` is a credit, judged by how far the printed balance is
   * from the previous balance minus and plus the amount: the nearer one wins when it is
   * within one peso (ties go to debit), and otherwise `words`, whether the text holds a
   * credit keyword, decides.
   */
  function IsCredit(prev: int, amount: int, balance: int, words: bool): (r: bool)
    requires amount >= 0
    ensures balance == prev - amount ==> !r
    ensures balance == prev + amount && amount > 0 ==> r
    ensures amount >= 100 && Abs(prev - amount - balance) < 100 ==> !r
    ensures amount >= 100 && Abs(prev + amount - balance) < 100 ==> r
    ensures Abs(prev - amount - balance) >= 100 && Abs(prev + amount - balance) >= 100 ==> (r <==> words)
  {
    var dd := Abs((prev - amount) - balance);
    var dc := Abs((prev + amount) - balance);
    if dd <= dc && dd < 100 then false
    else if dc < dd && dc < 100 then true
    else words
  }

  predicate IsDashOrSpace(c: char) {
    c == '-' || c == ' '
  }

  /** The description: the text cut before its amounts, then `strip("- ")` and `strip()`. */
  function CleanDescription(text: string, ms: seq<string>): (r: string)
    ensures r != [] ==> !IsSpace(r[0]) && !IsSpace(r[|r| - 1])
  {
    Strip(LTrim(RTrim(CutAtLast(text, ms), IsDashOrSpace), IsDashOrSpace))
  }

  /** What a transaction text gives before its column is chosen: description, amount, balance and whether it holds a credit keyword. */
  datatype Movement = Movement(description: string, amount: int, balance: int, words: bool)

  /**
   * The movement of a transaction text: with two or more amounts there is one, read from
   * them by `MovementIn`; with fewer, none.
   */
  function MovementOf(text: string): (r: Option<Movement>)
    ensures r.Some? <==> |Montos(text)| >= 2
    ensures r.Some? ==> r.value == MovementIn(text, Montos(text))
  {
    var ms := Montos(text);
    if |ms| < 2 then None else Some(MovementIn(text, ms))
  }

  /**
   * The movement read from a text's amounts: the second to last is the movement and the
   * last the balance, negative when a minus sign follows it.
   */
  function MovementIn(text: string, ms: seq<string>): (mv: Movement)
    requires |ms| >= 2 && forall k :: 0 <= k < |ms| ==> IsMonto(ms[k])
    ensures mv.amount == MontoValue(ms[|ms| - 2]) && mv.amount >= 0
    ensures mv.description == CleanDescription(text, ms) && mv.words == ContainsAny(Upper(text), CreditWords)
    ensures var last := MontoValue(ms[|ms| - 1]); mv.balance == (if MinusAfter(text, ms[|ms| - 1]) then -last else last)
  {
    var last := MontoValue(ms[|ms| - 1]);
    Movement(CleanDescription(text, ms), MontoValue(ms[|ms| - 2]),
             if MinusAfter(text, ms[|ms| - 1]) then -last else last,
             ContainsAny(Upper(text), CreditWords))
  }

  /** A movement that lands exactly where its column says: a debit lowers the balance by the amount, a credit raises it. */
  ghost predicate Consistent(e: Entry, prev: int) {
    (e.balance == prev - (e.debit + e.credit) ==> e.credit == 0)
    && (e.balance == prev + (e.debit + e.credit) && e.debit + e.credit > 0 ==> e.debit == 0)
  }

  /** A movement put in the column `IsCredit` picks, with the balance `prev` before it. */
  function Booking(date: string, mv: Movement, prev: int): (e: Entry)
    requires mv.amount >= 0
    ensures OneSided(e) && Consistent(e, prev) && e.debit + e.credit == mv.amount
    ensures e.date == date && e.description == mv.description && e.balance == mv.balance
    ensures e.credit > 0 ==> IsCredit(prev, mv.amount, mv.balance, mv.words)
  {
    var credit := IsCredit(prev, mv.amount, mv.balance, mv.words);
    Entry(date, mv.description, if credit then 0 else mv.amount, if credit then mv.amount else 0, mv.balance)
  }

  /** A line the listing prints for the balance brought forward or carried out. */
  predicate IsBalanceLine(lc: string) {
    Contains(lc, "SALDO ANTERIOR") || Contains(lc, "SALDO FINAL")
  }

  /** Page furniture that must not continue a description. */
  const Junk: seq<string> :=
    ["SALDO ANTERIOR", "SALDO FINAL", "HOJA ", "PAGINA",
     "DETALLE DE OPERACIONES", "TITULARIDAD", "CUIT", "INGRESOS BRUTOS",
     "COMUNICACION", "B.C.R.A", "GALICIA",
     "SEGURIDAD", "EXTRACTO NRO", "EXTRACTO DEL",
     "PRODUCTO", "ESTIMADO", "IMPORTANTE",
     "FECHA      REFERENCIA", "NO HUBO NINGUNA", "CALCULO DE",
     "MOVIMIENTOS INFORMADOS", "DEPOSITOS DE AHORRO",
     "REGIMEN DE TRANSPARENCIA", "PUEDE SOLICITAR", "PUEDE CONSULTAR",
     "CREDITO FISCAL", "PC BANKING", "TODAVIA NO", "WWW.GALICIA",
     "REGISTRACION DE CHEQUE", "CUSTODIA DE", "CHEQUE RECHAZADO",
     "SI DESEA MAYOR", "CENTRO DE ATENCION", "COMISION POR",
     "EL MONTO DEL IVA"]

  /** `\d{6,}-[A-Z]` at `p`: a long reference number, a dash and a letter. */
  predicate ReferenceAt(s: string, p: nat)
    requires p <= |s|
  {
    var e := DigitEnd(s, p);
    e - p >= 6 && CharAt(s, e, '-') && e + 1 < |s| && IsUpperLetter(s[e + 1])
  }

  /** A line that is not description text: a furniture keyword, a reference code, a rule or an overlong line. */
  predicate IsJunk(lc: string) {
    ContainsAny(Upper(lc), Junk) || (exists p | 0 <= p <= |lc| :: ReferenceAt(lc, p))
    || StartsWith(lc, "_") || |lc| > 100
  }

  /** The balance before the next movement: the last movement's, or the opening balance. */
  function PreviousBalance(es: seq<Entry>, opening: int): int {
    if es == [] then opening else es[|es| - 1].balance
  }

  /** Every movement is consistent with the balance before it. */
  ghost predicate Booked(es: seq<Entry>, opening: int) {
    forall k :: 0 <= k < |es| ==> BookedAt(es, opening, k)
  }

  /** Movement `k` is consistent with the balance before it. */
  ghost predicate BookedAt(es: seq<Entry>, opening: int, k: nat)
    requires k < |es|
  {
    Consistent(es[k], PreviousBalance(es[..k], opening))
  }

  /** A date as the listing records it: `dd-MMM-yyyy` with the statement year. */
  ghost predicate DateOk(d: string, year: string) {
    |d| >= 6 && TrxDateAt(d, 0) && d[6..] == "-" + year
  }

  /** The invariant of an account's movements: one-sided, dated in the statement year and booked against the balances. */
  ghost predicate MovementsOk(es: seq<Entry>, opening: int, year: string) {
    Booked(es, opening) && forall k :: 0 <= k < |es| ==> OneSided(es[k]) && DateOk(es[k].date, year)
  }

  lemma BookedSnoc(es: seq<Entry>, opening: int, e: Entry)
    requires Booked(es, opening) && Consistent(e, PreviousBalance(es, opening))
    ensures Booked(es + [e], opening)
  {
    var r := es + [e];
    forall k | 0 <= k < |r|
      ensures BookedAt(r, opening, k)
    {
      if k < |es| {
        assert BookedAt(es, opening, k);
        assert r[..k] == es[..k];
      } else {
        assert r[..k] == es;
      }
    }
  }

  /** The last description extended by a continuation line; nothing else changes. */
  function Retitle(es: seq<Entry>, lc: string): (r: seq<Entry>)
    requires es != []
    ensures |r| == |es| && r[..|es| - 1] == es[..|es| - 1]
    ensures r[|es| - 1] == es[|es| - 1].(description := es[|es| - 1].description + " " + lc)
  {
    var n := |es|;
    es[..n - 1] + [es[n - 1].(description := es[n - 1].description + " " + lc)]
  }

  lemma RetitleOk(es: seq<Entry>, opening: int, year: string, lc: string)
    requires es != [] && MovementsOk(es, opening, year)
    ensures MovementsOk(Retitle(es, lc), opening, year)
  {
    var r := Retitle(es, lc);
    forall k | 0 <= k < |r|
      ensures BookedAt(r, opening, k)
    {
      assert BookedAt(es, opening, k);
      assert PreviousBalance(r[..k], opening) == PreviousBalance(es[..k], opening);
    }
  }

  /**
   * A stripped line of the movement listing with what the scan tests on it: the account it
   * selects (when it holds `NRO.` and an account number), its transaction match and the
   * movement of that match, whether it is a balance line and whether it is junk.
   */
  datatype Line = Line(text: string, account: Option<string>, trx: Option<Trx>, moved: Option<Movement>, balance: bool, junk: bool)

  /** A transaction date on a line has the `dd-MMM` shape, and only a transaction gives a movement. */
  predicate Shaped(ln: Line) {
    (ln.trx.Some? && ln.trx.value.date.Some? ==> |ln.trx.value.date.value| == 6 && TrxDateAt(ln.trx.value.date.value, 0))
    && (ln.moved.Some? ==> ln.trx.Some? && ln.moved.value.amount >= 0)
  }

  /** The tests of the scan on line `l`, stripped. */
  function LineOf(l: string): (ln: Line)
    ensures Shaped(ln) && ln.text == Strip(l)
    ensures ln.account.Some? ==> Contains(Upper(ln.text), "NRO.") && IsCuentaShape(ln.account.value)
    ensures ln.moved == if ln.trx.Some? then MovementOf(ln.trx.value.text) else None
  {
    var lc := Strip(l);
    var trx := TrxMatch(lc);
    Line(lc, if Contains(Upper(lc), "NRO.") then CuentaSearch(lc) else None,
         trx, if trx.Some? then MovementOf(trx.value.text) else None, IsBalanceLine(lc), IsJunk(lc))
  }

  /**
   * What a line does to the current account's movements, with the date a transaction on
   * it would carry. A balance line does nothing. A transaction line adds its movement
   * when it has one. Any other line continues the last description unless it is junk or
   * there is no movement yet.
   */
  function AccountStep(es: seq<Entry>, ln: Line, date: string, opening: int): (r: seq<Entry>)
    requires Shaped(ln)
    ensures ln.balance ==> r == es
    ensures !ln.balance && ln.trx.Some? ==>
      r == if ln.moved.Some? then es + [Booking(date, ln.moved.value, PreviousBalance(es, opening))] else es
    ensures !ln.balance && ln.trx.None? ==>
      r == if es == [] || ln.junk then es else Retitle(es, ln.text)
  {
    if ln.trx.Some? && !ln.balance then
      if ln.moved.Some? then es + [Booking(date, ln.moved.value, PreviousBalance(es, opening))] else es
    else if es != [] && !ln.junk && !ln.balance then Retitle(es, ln.text)
    else es
  }

  lemma SnocOk(es: seq<Entry>, opening: int, year: string, e: Entry)
    requires MovementsOk(es, opening, year)
    requires OneSided(e) && DateOk(e.date, year) && Consistent(e, PreviousBalance(es, opening))
    ensures MovementsOk(es + [e], opening, year)
  {
    BookedSnoc(es, opening, e);
    var r := es + [e];
    assert forall k :: 0 <= k < |es| ==> r[k] == es[k];
  }

  /** Every line keeps the account's movements one-sided, dated and booked against the balances. */
  lemma AccountStepOk(es: seq<Entry>, ln: Line, date: string, opening: int, year: string)
    requires Shaped(ln) && MovementsOk(es, opening, year) && DateOk(date, year)
    ensures MovementsOk(AccountStep(es, ln, date, opening), opening, year)
  {
    if ln.trx.Some? && !ln.balance {
      if ln.moved.Some? {
        SnocOk(es, opening, year, Booking(date, ln.moved.value, PreviousBalance(es, opening)));
      }
    } else if es != [] && !ln.junk && !ln.balance {
      RetitleOk(es, opening, year, ln.text);
    }
  }

  /** The opening balance of an account: the summary's, or zero. */
  function Opening(sm: Summary, n: string): int {
    if n in sm.openings then sm.openings[n] else 0
  }

  /** The closing balance of an account: the summary's, or zero. */
  function Closing(sm: Summary, n: string): int {
    if n in sm.closings then sm.closings[n] else 0
  }

  /** The date a transaction gets: its own day and month in the statement year, or the last date seen. */
  function TrxDate(trx: Trx, lastDate: string, year: string): (d: string)
    requires trx.date.Some? ==> |trx.date.value| == 6 && TrxDateAt(trx.date.value, 0)
    ensures DateOk(lastDate, year) ==> DateOk(d, year)
    ensures trx.date.None? ==> d == lastDate
    ensures trx.date.Some? ==> |d| >= 6 && d[..6] == trx.date.value && d[6..] == "-" + year
  {
    match trx.date
    case Some(raw) =>
      var d := raw + "-" + year;
      assert d[6..] == "-" + year && d[..6] == raw;
      d
    case None => lastDate
  }

  /** The movements read so far: one list per summary account, each satisfying the invariant. */
  ghost predicate DataOk(sm: Summary, data: Data, year: string) {
    data.Keys == sm.products.Keys
    && forall n :: n in data ==> MovementsOk(data[n], Opening(sm, n), year)
  }

  lemma DataUpdate(sm: Summary, data: Data, year: string, n: string, es: seq<Entry>)
    requires DataOk(sm, data, year) && n in data && MovementsOk(es, Opening(sm, n), year)
    ensures DataOk(sm, data[n := es], year)
  {
  }

  /** The movement scan's state: the movements per account, the selected account and the last date seen. */
  datatype Reader = Reader(data: Data, current: Option<string>, lastDate: string)

  /** The state before the first line: an empty listing for every summary account and the first of January. */
  function StartReader(sm: Summary, year: string): Reader {
    Reader(map n | n in sm.products :: [], None, "01-ENE-" + year)
  }

  /**
   * One line of the movement listing. Blank lines are skipped; an account line selects a
   * summary account; before any selection nothing happens; otherwise a transaction line
   * takes its date (or the last one) and the selected account's movements go one line on.
   */
  function ReadStep(r: Reader, ln: Line, sm: Summary, year: string): Reader
    requires Shaped(ln)
  {
    if ln.text == [] then r
    else if ln.account.Some? then
      if ln.account.value in sm.products then r.(current := ln.account) else r
    else if r.current.None? || r.current.value !in r.data then r
    else
      var n := r.current.value;
      var date := if ln.trx.Some? && !ln.balance then TrxDate(ln.trx.value, r.lastDate, year) else r.lastDate;
      Reader(r.data[n := AccountStep(r.data[n], ln, date, Opening(sm, n))], r.current, date)
  }

  /** The tests of the scan on every line. */
  function LinesOf(lines: seq<string>): (r: seq<Line>)
    ensures |r| == |lines| && forall i :: 0 <= i < |lines| ==> r[i] == LineOf(lines[i])
    ensures forall i :: 0 <= i < |r| ==> Shaped(r[i])
  {
    seq(|lines|, i requires 0 <= i < |lines| => LineOf(lines[i]))
  }

  /** The state after the first `n` lines. */
  function ReadAfter(ls: seq<Line>, n: nat, sm: Summary, year: string): Reader
    requires n <= |ls| && forall i :: 0 <= i < |ls| ==> Shaped(ls[i])
  {
    if n == 0 then StartReader(sm, year)
    else ReadStep(ReadAfter(ls, n - 1, sm, year), ls[n - 1], sm, year)
  }

  /** The invariant of the movement scan. */
  ghost predicate ReaderOk(r: Reader, sm: Summary, year: string) {
    DataOk(sm, r.data, year) && DateOk(r.lastDate, year)
    && (r.current.Some? ==> r.current.value in sm.products)
  }

  /** Every line keeps every listing valid and the last date in the statement year. */
  lemma ReadStepOk(r: Reader, ln: Line, sm: Summary, year: string)
    requires Shaped(ln) && ReaderOk(r, sm, year)
    ensures ReaderOk(ReadStep(r, ln, sm, year), sm, year)
  {
    if ln.text != [] && ln.account.None? && r.current.Some? && r.current.value in r.data {
      var n := r.current.value;
      var date := if ln.trx.Some? && !ln.balance then TrxDate(ln.trx.value, r.lastDate, year) else r.lastDate;
      AccountStepOk(r.data[n], ln, date, Opening(sm, n), year);
      DataUpdate(sm, r.data, year, n, AccountStep(r.data[n], ln, date, Opening(sm, n)));
    }
  }

  /** The scan keeps every listing valid: one-sided, dated in the statement year and booked. */
  lemma {:induction false} ReadAfterOk(ls: seq<Line>, n: nat, sm: Summary, year: string)
    requires n <= |ls| && (forall i :: 0 <= i < |ls| ==> Shaped(ls[i])) && |year| == 4
    ensures ReaderOk(ReadAfter(ls, n, sm, year), sm, year)
  {
    if n == 0 {
      var d := "01-ENE-" + year;
      assert d[6..] == "-" + year;
    } else {
      ReadAfterOk(ls, n - 1, sm, year);
      ReadStepOk(ReadAfter(ls, n - 1, sm, year), ls[n - 1], sm, year);
    }
  }

  /** A transaction line that is not a balance line: the lines that can add a movement. */
  predicate IsTrxLine(ln: Line) {
    ln.trx.Some? && !ln.balance
  }

  /** The number of transaction lines among the first `n`. */
  function TrxLines(ls: seq<Line>, n: nat): nat
    requires n <= |ls|
  {
    if n == 0 then 0 else TrxLines(ls, n - 1) + (if IsTrxLine(ls[n - 1]) then 1 else 0)
  }

  /** A line adds at most one movement, and only a transaction line adds one. */
  lemma ReadStepGrows(r: Reader, ln: Line, sm: Summary, year: string)
    requires Shaped(ln)
    ensures ReadStep(r, ln, sm, year).data.Keys == r.data.Keys
    ensures forall m :: m in r.data ==>
      |ReadStep(r, ln, sm, year).data[m]| <= |r.data[m]| + (if IsTrxLine(ln) then 1 else 0)
  {
  }

  /** No account has more than `k` movements. */
  ghost predicate AtMost(r: Reader, k: nat) {
    forall m :: m in r.data ==> |r.data[m]| <= k
  }

  /** Every movement comes from a transaction line: no account has more movements than there were such lines. */
  lemma {:induction false} MovementsFromLines(ls: seq<Line>, n: nat, sm: Summary, year: string)
    requires n <= |ls| && forall i :: 0 <= i < |ls| ==> Shaped(ls[i])
    ensures AtMost(ReadAfter(ls, n, sm, year), TrxLines(ls, n))
  {
    if n > 0 {
      var prev := ReadAfter(ls, n - 1, sm, year);
      MovementsFromLines(ls, n - 1, sm, year);
      ReadStepGrows(prev, ls[n - 1], sm, year);
      assert ReadAfter(ls, n, sm, year) == ReadStep(prev, ls[n - 1], sm, year);
    }
  }

  /**
   * Under a selected account, a transaction line whose text gives a movement appends exactly
   * that movement, dated from the line (or the last date), and changes no other account.
   */
  lemma TrxLineRecorded(r: Reader, ln: Line, sm: Summary, year: string)
    requires Shaped(ln) && ln.text != [] && ln.account.None? && IsTrxLine(ln) && ln.moved.Some?
    requires r.current.Some? && r.current.value in r.data
    ensures var n, date := r.current.value, TrxDate(ln.trx.value, r.lastDate, year);
      var r' := ReadStep(r, ln, sm, year);
      r'.lastDate == date && r'.current == r.current
      && r'.data == r.data[n := r.data[n] + [Booking(date, ln.moved.value, PreviousBalance(r.data[n], Opening(sm, n)))]]
  {
  }

  /**
   * Reads the movement listing. A line with `NRO.` and an account number of the summary
   * selects that account; lines before any selection are ignored. Every movement is
   * recorded under a summary account, one-sided, dated in the statement year and in the
   * column the balance movement points to.
   */
  method ReadMovements(ls: seq<Line>, sm: Summary, year: string) returns (data: Data)
    requires |year| == 4 && forall i :: 0 <= i < |ls| ==> Shaped(ls[i])
    ensures data == ReadAfter(ls, |ls|, sm, year).data
    ensures DataOk(sm, data, year)
  {
    var r := StartReader(sm, year);
    for i := 0 to |ls|
      invariant ReadAfter(ls, i, sm, year) == r
    {
      r := ReadStep(r, ls[i], sm, year);
    }
    data := r.data;
    ReadAfterOk(ls, |ls|, sm, year);
  }

  // ---------------------------------------------------------------------------
  // The sheets

  /** `USD` for a product whose name mentions dollars, `ARS` otherwise, then the account number; at most 30 characters. */
  function SheetName(cta: string, product: string): (r: string)
    ensures |r| <= 30
  {
    var prefix := if Contains(Lower(product), "u$s") || Contains(Lower(product), "dol") then "USD " else "ARS ";
    Slice(CleanForExcel(prefix + cta), 0, 30)
  }

  /** An account number as the summary gives it is kept whole in the sheet name. */
  lemma SheetNameOfCuenta(cta: string, product: string)
    requires IsCuentaShape(cta)
    ensures SheetName(cta, product) == (if Contains(Lower(product), "u$s") || Contains(Lower(product), "dol") then "USD " else "ARS ") + cta
  {
    var prefix := if Contains(Lower(product), "u$s") || Contains(Lower(product), "dol") then "USD " else "ARS ";
    PrefixedCuenta(prefix, cta);
  }

  /** A currency prefix followed by an account number is a clean name of at most 18 characters. */
  lemma PrefixedCuenta(prefix: string, cta: string)
    requires prefix == "USD " || prefix == "ARS "
    requires IsCuentaShape(cta)
    ensures Slice(CleanForExcel(prefix + cta), 0, 30) == prefix + cta
  {
    var name := prefix + cta;
    CuentaChars(cta);
    assert forall i :: 0 <= i < 4 ==> name[i] == prefix[i];
    assert forall i :: 4 <= i < |name| ==> name[i] == cta[i - 4];
    CleanName(name);
    assert CleanForExcel(name) == name;
    assert |name| <= 18;
  }

  /** An account number is made of digits and dashes, and ends in a digit. */
  lemma CuentaChars(cta: string)
    requires IsCuentaShape(cta)
    ensures forall i :: 0 <= i < |cta| ==> IsDigit(cta[i]) || cta[i] == '-'
    ensures IsDigit(cta[|cta| - 1])
  {
  }

  /** A name without control characters, starting with a letter and ending with a digit, is a clean cell text. */
  lemma CleanName(name: string)
    requires |name| > 4 && IsUpperLetter(name[0]) && IsDigit(name[|name| - 1])
    requires forall i :: 4 <= i < |name| ==> IsDigit(name[i]) || name[i] == '-'
    requires forall i :: 0 <= i < 4 ==> IsUpperLetter(name[i]) || name[i] == ' '
    ensures CleanForExcel(name) == name
  {
    RemoveWhereNoop(name, IsCellIllegal);
    StripNoop(name);
  }

  /** The credit column of each movement. */
  function CreditsOf(es: seq<Entry>): (r: seq<int>)
    ensures |r| == |es| && forall k :: 0 <= k < |es| ==> r[k] == es[k].credit
  {
    seq(|es|, k requires 0 <= k < |es| => es[k].credit)
  }

  /** The debit column of each movement. */
  function DebitsOf(es: seq<Entry>): (r: seq<int>)
    ensures |r| == |es| && forall k :: 0 <= k < |es| ==> r[k] == es[k].debit
  {
    seq(|es|, k requires 0 <= k < |es| => es[k].debit)
  }

  /**
   * The sheet of an account: the summary balances (zero when absent), the positive
   * credits and debits, and the control value, which a sheet without movements lacks.
   */
  function MakeSheet(sm: Summary, cta: string, es: seq<Entry>): (s: Ledger.Sheet)
    ensures s.opening == Opening(sm, cta) && s.closing == Closing(sm, cta)
    ensures s.credits == Ledger.Credits(CreditsOf(es)) && s.debits == Ledger.Credits(DebitsOf(es))
    ensures es == [] <==> s.control.None?
    ensures s.control.Some? ==>
      s.control.value == Ledger.Control(s.opening, Ledger.Sum(s.credits), Ledger.Sum(s.debits), s.closing)
  {
    var product := if cta in sm.products then sm.products[cta] else "";
    var cs, ds := Ledger.Credits(CreditsOf(es)), Ledger.Credits(DebitsOf(es));
    var control := if es == [] then None
      else Some(Ledger.Control(Opening(sm, cta), Ledger.Sum(cs), Ledger.Sum(ds), Closing(sm, cta)));
    Ledger.Sheet(SheetName(cta, product), Opening(sm, cta), Closing(sm, cta), cs, ds, control)
  }

  /** The net movement of each entry. */
  function NetsOf(es: seq<Entry>): seq<int> {
    Ledger.Nets(CreditsOf(es), DebitsOf(es))
  }

  /** With one-sided movements, the control value is opening plus the net movement minus closing. */
  lemma SheetControl(sm: Summary, cta: string, es: seq<Entry>)
    requires es != [] && forall k :: 0 <= k < |es| ==> OneSided(es[k])
    ensures MakeSheet(sm, cta, es).control.Some?
    ensures MakeSheet(sm, cta, es).control.value == Opening(sm, cta) + Ledger.Sum(NetsOf(es)) - Closing(sm, cta)
  {
    Ledger.OneSidedColumns(CreditsOf(es), DebitsOf(es));
    Ledger.ControlOfMovements(Opening(sm, cta), NetsOf(es), Closing(sm, cta));
  }

  /** Each balance is the one before it plus the credit minus the debit. */
  ghost predicate Exact(es: seq<Entry>, opening: int) {
    forall k :: 0 <= k < |es| ==> ExactAt(es, opening, k)
  }

  /** Balance `k` is the one before it plus credit `k` minus debit `k`. */
  ghost predicate ExactAt(es: seq<Entry>, opening: int, k: nat)
    requires k < |es|
  {
    es[k].balance == PreviousBalance(es[..k], opening) + es[k].credit - es[k].debit
  }

  /**
   * When every printed balance follows from the one before, the control value is the last
   * printed balance minus the closing balance: zero exactly when the listing ends at the
   * summary's closing balance.
   */
  lemma ControlOfExact(sm: Summary, cta: string, es: seq<Entry>)
    requires es != [] && forall k :: 0 <= k < |es| ==> OneSided(es[k])
    requires Exact(es, Opening(sm, cta))
    ensures MakeSheet(sm, cta, es).control.Some?
    ensures MakeSheet(sm, cta, es).control.value == es[|es| - 1].balance - Closing(sm, cta)
  {
    ExactLast(es, Opening(sm, cta));
    SheetControl(sm, cta, es);
  }

  /** When every printed balance follows from the one before, the last is opening plus the net movement. */
  lemma ExactLast(es: seq<Entry>, opening: int)
    requires es != [] && Exact(es, opening)
    ensures es[|es| - 1].balance == opening + Ledger.Sum(NetsOf(es))
  {
    var nets, bs := NetsOf(es), Balances(es);
    ExactSteps(es, opening);
    Ledger.StepsAreRunning(opening, nets, bs);
    Ledger.RunningEnds(opening, nets);
    assert bs[|bs| - 1] == es[|es| - 1].balance;
  }

  /** The printed balances. */
  function Balances(es: seq<Entry>): (r: seq<int>)
    ensures |r| == |es| && forall k :: 0 <= k < |es| ==> r[k] == es[k].balance
  {
    seq(|es|, k requires 0 <= k < |es| => es[k].balance)
  }

  lemma ExactSteps(es: seq<Entry>, opening: int)
    requires Exact(es, opening)
    ensures Ledger.Steps(opening, NetsOf(es), Balances(es))
  {
    var nets, bs := NetsOf(es), Balances(es);
    forall k | 0 <= k < |bs|
      ensures bs[k] == Ledger.PrevBalance(opening, bs, k) + nets[k]
    {
      assert ExactAt(es, opening, k);
      assert PreviousBalance(es[..k], opening) == Ledger.PrevBalance(opening, bs, k);
    }
  }

  /**
   * The workbook: one sheet per summary account in order, or nothing when no account has
   * a movement.
   */
  function Sheets(sm: Summary, data: Data): (r: Option<seq<Ledger.Sheet>>)
    requires SummaryOk(sm) && data.Keys == sm.products.Keys
    ensures r.None? <==> forall n :: n in data ==> data[n] == []
    ensures r.Some? ==> |r.value| == |sm.order|
    ensures r.Some? ==> forall k :: 0 <= k < |sm.order| ==> r.value[k] == MakeSheet(sm, sm.order[k], data[sm.order[k]])
  {
    if forall k :: 0 <= k < |sm.order| ==> data[sm.order[k]] == [] then
      assert forall n :: n in data ==> exists k :: 0 <= k < |sm.order| && sm.order[k] == n;
      None
    else Some(seq(|sm.order|, k requires 0 <= k < |sm.order| => MakeSheet(sm, sm.order[k], data[sm.order[k]])))
  }

  /**
   * The whole statement: the summary and year from the first page, the movements from the
   * listing, and the sheets.
   */
  method Process(page1: seq<string>, lines: seq<string>) returns (sm: Summary, data: Data, sheets: Option<seq<Ledger.Sheet>>)
    ensures sm == SummaryAfter(RowsOf(page1), |RowsOf(page1)|).0
    ensures data == ReadAfter(LinesOf(lines), |LinesOf(lines)|, sm, YearOf(page1)).data
    ensures SummaryOk(sm) && DataOk(sm, data, YearOf(page1))
    ensures sheets == Sheets(sm, data)
  {
    sm := ReadSummary(RowsOf(page1));
    var year := YearOf(page1);
    data := ReadMovements(LinesOf(lines), sm, year);
    sheets := Sheets(sm, data);
  }
}
