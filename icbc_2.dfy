/**
 * ICBC statements, second format.
 *
 * Every movement is one line: a date such as `30-may.-2025`, a description, then the
 * amount and the balance, each printed after a peso sign (`$ -250.271,00`). A line is
 * read with one regular expression searched anywhere in it:
 *
 *   (\d{2}-[\w\.]+-\d{4})\s+(.+?)\s+(AMOUNT)\s+(AMOUNT)
 *   AMOUNT = \$\s*[-]?(?:\d{1,3}(?:[\.,]\d{3})*)?[\.,]\d{2}
 *
 * The listing is newest first: the rows are reversed into date order, the closing
 * balance is the newest row's and the opening balance is inferred from the oldest row.
 * Dates with a Spanish month abbreviation are rewritten `dd/mm/yyyy`.
 */
module Icbc2 {
  import opened Text
  import opened Optional
  import opened Amounts
  import Ledger

  // ---------------------------------------------------------------------------
  // Amounts: `parse_importe`

  /**
   * The amount a matched text denotes: the peso signs are removed, the text is stripped,
   * its dots are dropped and its comma is read as the decimal point; a text `float()`
   * refuses is zero.
   */
  function ParseImporte(s: string): int {
    ParseArPlain(Strip(RemoveChar(s, '$'))).GetOr(0)
  }

  /** The sign and the Argentine literal of an amount, as printed after the peso sign. */
  function Signed(c: int): string {
    (if c < 0 then "-" else "") + FormatAr(Abs(c))
  }

  /** An amount as the statement prints it: `$ 50.000,00` or `$ -0,63`. */
  function Shown(c: int): string {
    "$ " + Signed(c)
  }

  /** A printed amount is an Argentine literal after an optional minus, which is there exactly for a negative amount. */
  lemma SignedShape(c: int)
    ensures var s := Signed(c); var k := if c < 0 then 1 else 0;
      |s| > k && (c < 0 ==> s[0] == '-') && s[k..] == FormatAr(Abs(c)) && IsArLiteral(s[k..])
  {
    var s, k := Signed(c), if c < 0 then 1 else 0;
    assert s[k..] == FormatAr(Abs(c));
    ArFormatShape(Abs(c));
  }

  /** `parse_importe` reads every printed amount back as itself. */
  lemma ParseShown(c: int)
    ensures ParseImporte(Shown(c)) == c
  {
    var u := Signed(c);
    SignedEdges(c);
    PesoRemoved(c);
    StripBlankBefore(u);
    SignedReads(c);
  }

  /** A printed amount starts and ends with a non-blank. */
  lemma SignedEdges(c: int)
    ensures Signed(c) != [] && !IsSpace(Signed(c)[0]) && !IsSpace(Signed(c)[|Signed(c)| - 1])
  {
    var f := FormatAr(Abs(c));
    ArFormatStartsWithDigit(Abs(c));
    ArFormatEndsInDigit(Abs(c));
    SignEdges(if c < 0 then "-" else "", f);
  }

  /** An optional minus before a text that starts and ends with a digit. */
  lemma SignEdges(sign: string, f: string)
    requires sign == "-" || sign == ""
    requires f != [] && IsDigit(f[0]) && IsDigit(f[|f| - 1])
    ensures var u := sign + f; u != [] && !IsSpace(u[0]) && !IsSpace(u[|u| - 1])
  {
    var u := sign + f;
    assert u[|u| - 1] == f[|f| - 1];
    assert u[0] == (if sign == "" then f[0] else '-');
  }

  /** Removing the peso sign of a printed amount leaves the blank and the signed literal. */
  lemma PesoRemoved(c: int)
    ensures RemoveChar(Shown(c), '$') == " " + Signed(c)
  {
    NoPesoSign(c);
    PesoDropped(Signed(c));
  }

  /** Removing the peso sign from `$ u`, when `u` holds none, leaves ` u`. */
  lemma PesoDropped(u: string)
    requires forall i :: 0 <= i < |u| ==> u[i] != '$'
    ensures RemoveChar("$ " + u, '$') == " " + u
  {
    RemoveCharAppend("$ ", u, '$');
    assert RemoveChar("$ ", '$') == " " by {
      assert "$ "[1..] == " " && " "[1..] == [];
    }
    RemoveCharNoop(u, '$');
  }

  /** The signed literal reads as the amount. */
  lemma SignedReads(c: int)
    ensures ParseArPlain(Signed(c)) == Some(c)
  {
    var u, f := Signed(c), FormatAr(Abs(c));
    ArSignedRoundTrip(Abs(c));
    if c < 0 {
      assert u == "-" + f;
    } else {
      assert u == f;
    }
  }

  /** A printed amount holds no peso sign. */
  lemma NoPesoSign(c: int)
    ensures forall i :: 0 <= i < |Signed(c)| ==> Signed(c)[i] != '$'
  {
    var f := FormatAr(Abs(c));
    ArFormatShape(Abs(c));
    GroupedDigitsOnly(f[..|f| - 3], '.');
    forall i | 0 <= i < |f|
      ensures f[i] != '$'
    {
      if i < |f| - 3 {
        assert f[i] == f[..|f| - 3][i];
      } else if i > |f| - 3 {
        assert f[i] == f[|f| - 2..][i - (|f| - 2)];
      }
    }
    SignKeeps(if c < 0 then "-" else "", f);
  }

  /** An optional minus adds no peso sign. */
  lemma SignKeeps(sign: string, f: string)
    requires sign == "-" || sign == ""
    requires forall i :: 0 <= i < |f| ==> f[i] != '$'
    ensures forall i :: 0 <= i < |sign + f| ==> (sign + f)[i] != '$'
  {
    forall i | 0 <= i < |sign + f|
      ensures (sign + f)[i] != '$'
    {
      if i >= |sign| {
        assert (sign + f)[i] == f[i - |sign|];
      }
    }
  }

  // ---------------------------------------------------------------------------
  // The movement pattern, written out

  /** A character `[\w\.]` accepts: a letter, a digit, an underscore or a dot (among ASCII and Latin-1). */
  predicate IsWordOrDot(c: char) {
    IsLetter(c) || IsDigit(c) || c == '_' || c == '.'
    || c == '\U{b2}' || c == '\U{b3}' || c == '\U{b9}' || ('\U{bc}' <= c <= '\U{be}')
  }

  predicate NonSpace(c: char) {
    !IsSpace(c)
  }

  /**
   * Where the date `\d{2}-[\w\.]+-\d{4}` tried at `p` ends. The month run cannot give
   * back characters: the one before the second dash would then be a run character.
   */
  function DateEnd(l: string, p: nat): (r: Option<nat>)
    ensures r.Some? ==> p + 9 <= r.value <= |l| && IsDateGroup(l[p..(r.value)])
  {
    if DigitsAt(l, p, 2) && CharAt(l, p + 2, '-') then
      var m := DropFrom(l, IsWordOrDot, p + 3);
      if m > p + 3 && DigitsAt(l, m + 1, 4) && l[m] == '-' then
        DateGroupAt(l, p, m);
        Some(m + 5)
      else None
    else None
  }

  /** A date as the pattern takes it: two digits, a dash, a run of word characters and dots, a dash and four digits. */
  predicate IsDateGroup(d: string) {
    |d| >= 9 && DigitsAt(d, 0, 2) && d[2] == '-' && d[|d| - 5] == '-' && DigitsAt(d, |d| - 4, 4)
    && forall i :: 3 <= i < |d| - 5 ==> IsWordOrDot(d[i])
  }

  lemma DateGroupAt(l: string, p: nat, m: nat)
    requires DigitsAt(l, p, 2) && CharAt(l, p + 2, '-') && p + 3 < m && DigitsAt(l, m + 1, 4) && l[m] == '-'
    requires forall i :: p + 3 <= i < m ==> IsWordOrDot(l[i])
    ensures IsDateGroup(l[p..m + 5])
  {
    var d := l[p..m + 5];
    assert d[0] == l[p] && d[1] == l[p + 1] && d[2] == l[p + 2] && d[|d| - 5] == l[m];
    assert DigitsAt(d, 0, 2);
    assert DigitsAt(d, |d| - 4, 4) by {
      forall i | |d| - 4 <= i < |d|
        ensures IsDigit(d[i])
      {
        assert d[i] == l[p + i] && m + 1 <= p + i < m + 5;
      }
    }
    forall i | 3 <= i < |d| - 5
      ensures IsWordOrDot(d[i])
    {
      assert d[i] == l[p + i];
    }
  }

  /** `(?:\d{1,3}(?:[\.,]\d{3})*)?[\.,]\d{2}`: the number of an amount. */
  predicate IsCore(s: string) {
    |s| >= 3 && IsMark(s[|s| - 3]) && AllDigits(s[|s| - 2..]) && (|s| == 3 || IsMixedGrouped(s[..|s| - 3]))
  }

  /**
   * Where the number of an amount tried at `p` ends when nothing has to follow it (the
   * balance closes the pattern), taking the first way the engine finds. The digits at `p`
   * must be the whole run, of at most three; the groups are taken as far as they go, then
   * a mark and two digits; failing that, the last group gives back its third digit and
   * its mark and first two digits close the number.
   */
  function CoreEnd(s: string, p: nat): (r: Option<nat>)
    requires p <= |s|
    ensures r.Some? ==> p < r.value <= |s| && IsCore(s[p..(r.value)])
  {
    var k := DigitEnd(s, p);
    if k == p then
      if p + 3 <= |s| && IsMark(s[p]) && DigitsAt(s, p + 1, 2) then
        MarkFirst(s, p);
        Some(p + 3)
      else None
    else if k - p > 3 then None
    else
      var g := MarkGroupsEnd(s, k);
      GroupedCases(s, p, k, g);
      if g + 3 <= |s| && IsMark(s[g]) && DigitsAt(s, g + 1, 2) then Some(g + 3)
      else if g > k then Some(g - 1)
      else None
  }

  /** A mark and two digits alone are a number of an amount. */
  lemma MarkFirst(s: string, p: nat)
    requires p + 3 <= |s| && IsMark(s[p]) && DigitsAt(s, p + 1, 2)
    ensures IsCore(s[p..p + 3])
  {
    assert s[p..p + 3][1..] == s[p + 1..p + 3];
  }

  /** The two ways a number with an integer part can close: after every group, or one group earlier. */
  lemma GroupedCases(s: string, p: nat, k: nat, g: nat)
    requires p < k <= p + 3 && k <= |s| && k == DigitEnd(s, p) && g == MarkGroupsEnd(s, k)
    ensures g + 3 <= |s| && IsMark(s[g]) && DigitsAt(s, g + 1, 2) ==> IsCore(s[p..g + 3])
    ensures g > k ==> p < g - 1 <= |s| && IsCore(s[p..g - 1])
  {
    RunGrouped(s, p, k);
    MarkGroupsGrouped(s, p, k);
    if g + 3 <= |s| && IsMark(s[g]) && DigitsAt(s, g + 1, 2) {
      CoreAfterGroups(s, p, g);
    }
    if g > k {
      GivenBack(s, p, k, g);
      CoreAfterGroups(s, p, g - 4);
    }
  }

  /** One to three digits are grouped digits. */
  lemma RunGrouped(s: string, p: nat, k: nat)
    requires p < k <= p + 3 && k <= |s| && forall i :: p <= i < k ==> IsDigit(s[i])
    ensures IsMixedGrouped(s[p..k])
  {
    assert forall i :: 0 <= i < k - p ==> s[p..k][i] == s[p + i];
  }

  /** Grouped digits from `p` to `g`, then a mark and two digits: a number of an amount. */
  lemma CoreAfterGroups(s: string, p: nat, g: nat)
    requires p < g && g + 3 <= |s| && IsMixedGrouped(s[p..g]) && IsMark(s[g]) && DigitsAt(s, g + 1, 2)
    ensures IsCore(s[p..g + 3])
  {
    var t := s[p..g + 3];
    assert t[..|t| - 3] == s[p..g] && t[|t| - 3] == s[g];
    assert t[|t| - 2..] == s[g + 1..g + 3];
  }

  /** When at least one group was taken, the grouped digits before the last group are grouped too, and that group starts with a mark and digits. */
  lemma GivenBack(s: string, p: nat, k: nat, g: nat)
    requires p < k <= g <= |s| && g > k && IsMixedGrouped(s[p..g]) && g == MarkGroupsEnd(s, k)
    ensures g - 4 > p && IsMixedGrouped(s[p..g - 4]) && IsMark(s[g - 4]) && DigitsAt(s, g - 3, 2)
    decreases g - k
  {
    GroupsStep(s, k, g);
    var t := s[p..g];
    assert |t| >= 5;
    assert t[..|t| - 4] == s[p..g - 4] && t[|t| - 4] == s[g - 4];
    assert t[|t| - 3..] == s[g - 3..g];
  }

  /** Groups taken from `k` past `k` end four characters after a taken group. */
  lemma {:induction false} GroupsStep(s: string, k: nat, g: nat)
    requires k <= |s| && g == MarkGroupsEnd(s, k) && g > k
    ensures k <= g - 4 && IsMark(s[g - 4]) && DigitsAt(s, g - 3, 3)
    decreases |s| - k
  {
    var n := MarkGroupsEnd(s, k + 4);
    if n > k + 4 {
      GroupsStep(s, k + 4, g);
    }
  }

  /** Where `\$\s*[-]?` ends after the peso sign at `q`. */
  function SignEnd(l: string, q: nat): (r: nat)
    requires q < |l|
    ensures q < r <= |l|
  {
    var r := SpaceEnd(l, q + 1);
    if r < |l| && l[r] == '-' then r + 1 else r
  }

  /** Where the amount and the balance lie in a line: start and end of each matched text. */
  datatype Cuts = Cuts(amountStart: nat, amountEnd: nat, balanceStart: nat, balanceEnd: nat)

  /** A matched amount: a peso sign, blanks, an optional minus and the number. */
  predicate IsAmountText(t: string) {
    t != [] && t[0] == '$' && IsCore(t[SignEnd(t, 0)..])
  }

  /**
   * What follows the description when it ends at `e`: `\s+(AMOUNT)\s+(AMOUNT)`. Each `\s+`
   * takes every blank, since a peso sign must follow. The amount's number must reach a
   * blank, so it is the whole run of non-blanks; the balance takes the first number the
   * engine finds.
   */
  function Tail(l: string, e: nat): (r: Option<Cuts>)
    requires e <= |l|
    ensures r.Some? ==> e < r.value.amountStart < r.value.amountEnd < r.value.balanceStart < r.value.balanceEnd <= |l|
    ensures r.Some? ==> r.value.amountStart == SpaceEnd(l, e) && IsAmountText(l[r.value.amountStart..(r.value.amountEnd)])
    ensures r.Some? ==> IsAmountText(l[r.value.balanceStart..(r.value.balanceEnd)])
  {
    var q := SpaceEnd(l, e);
    if q == e || q == |l| || l[q] != '$' then None
    else
      var r := SignEnd(l, q);
      var t := DropFrom(l, NonSpace, r);
      if t == |l| || !IsCore(l[r..t]) then None
      else
        var q2 := SpaceEnd(l, t);
        if q2 == |l| || l[q2] != '$' then None
        else
          var r2 := SignEnd(l, q2);
          match CoreEnd(l, r2)
          case None => None
          case Some(t2) =>
            AmountTextAt(l, q, t);
            AmountTextAt(l, q2, t2);
            Some(Cuts(q, t, q2, t2))
  }

  /** A peso sign at `q` followed by a number up to `t` is a matched amount. */
  lemma AmountTextAt(l: string, q: nat, t: nat)
    requires q < |l| && l[q] == '$' && SignEnd(l, q) <= t <= |l| && IsCore(l[SignEnd(l, q)..t])
    ensures IsAmountText(l[q..t])
  {
    var s := l[q..t];
    SpaceEndShift(l, q, t);
    assert s[SignEnd(s, 0)..] == l[SignEnd(l, q)..t];
  }

  /** `\$\s*[-]?` ends at the same place in a slice that starts at the peso sign. */
  lemma SpaceEndShift(l: string, q: nat, t: nat)
    requires q < |l| && SignEnd(l, q) <= t <= |l|
    ensures q < t && SignEnd(l[q..t], 0) == SignEnd(l, q) - q
  {
    var s := l[q..t];
    var r := SpaceEnd(l, q + 1);
    assert forall i :: 0 <= i < |s| ==> s[i] == l[q + i];
    if r < |l| && l[r] == '-' {
      DropFromIs(s, IsSpace, 1, r - q);
    } else {
      DropFromIs(s, IsSpace, 1, r - q);
    }
  }

  /** The first place, from `e` on, where the description can end: `.+?` takes as little as it can. */
  function FirstTail(l: string, e: nat): (r: Option<nat>)
    requires e <= |l|
    decreases |l| - e
    ensures r.Some? ==> e <= r.value <= |l| && Tail(l, r.value).Some?
  {
    if Tail(l, e).Some? then Some(e) else if e == |l| then None else FirstTail(l, e + 1)
  }

  /** The four groups of a match: the date, the description, the amount's text and the balance's text. */
  datatype Groups = Groups(date: string, description: string, amount: string, balance: string)

  /**
   * The match of the pattern tried at `p`. After the date, `\s+` first takes every blank
   * and the description starts at the first non-blank, ending as early as the rest
   * matches. When no end works, `\s+` gives back blanks: only a description made of one
   * blank, between two blanks and the amount, can then match.
   */
  function MatchAt(l: string, p: nat): (r: Option<Groups>)
    ensures r.Some? ==> IsDateGroup(r.value.date) && IsAmountText(r.value.amount) && IsAmountText(r.value.balance)
  {
    match DateEnd(l, p)
    case None => None
    case Some(d) =>
      var b := SpaceEnd(l, d);
      if b == d || b == |l| then None
      else
        match FirstTail(l, b + 1)
        case Some(e) =>
          var c := Tail(l, e).value;
          Some(Groups(l[p..d], l[b..e], l[c.amountStart..c.amountEnd], l[c.balanceStart..c.balanceEnd]))
        case None =>
          if b - d >= 3 && Tail(l, b - 1).Some? then
            var c := Tail(l, b - 1).value;
            Some(Groups(l[p..d], l[b - 2..b - 1], l[c.amountStart..c.amountEnd], l[c.balanceStart..c.balanceEnd]))
          else None
  }

  /** `re.search`: the match at the first position, from `p` on, where the pattern matches. */
  function SearchFrom(l: string, p: nat): (r: Option<Groups>)
    decreases |l| - p
    ensures r.Some? ==> IsDateGroup(r.value.date) && IsAmountText(r.value.amount) && IsAmountText(r.value.balance)
  {
    if p >= |l| then None
    else if MatchAt(l, p).Some? then MatchAt(l, p)
    else SearchFrom(l, p + 1)
  }

  // ---------------------------------------------------------------------------
  // Rows and the line loop

  /** A movement as read: the date as printed, the description, the amount and the balance. */
  datatype Row = Row(date: string, description: string, amount: int, balance: int)

  /**
   * The row of a line: the date group, the stripped description and the two amounts
   * through `parse_importe`. The date keeps the pattern's shape.
   */
  function LineRow(l: string): (r: Option<Row>)
    ensures r.Some? <==> SearchFrom(l, 0).Some?
    ensures r.Some? ==> IsDateGroup(r.value.date) && r.value.description == Strip(r.value.description)
  {
    match SearchFrom(l, 0)
    case None => None
    case Some(g) =>
      StripIdempotent(g.description);
      Some(Row(g.date, Strip(g.description), ParseImporte(g.amount), ParseImporte(g.balance)))
  }

  /** Stripping a stripped text changes nothing. */
  lemma StripIdempotent(s: string)
    ensures Strip(Strip(s)) == Strip(s)
  {
    var t := Strip(s);
    if t != [] {
      StripNoop(t);
    } else {
      assert LStrip(t) == [] && RStrip([]) == [];
    }
  }

  /** One line's rows: its row, if the pattern matches it. */
  function RowsOf(l: string): (rs: seq<Row>)
    ensures |rs| <= 1 && (|rs| == 1 <==> SearchFrom(l, 0).Some?)
  {
    match LineRow(l)
    case Some(r) => [r]
    case None => []
  }

  /** The rows of the given lines, in order. */
  function ScanAll(lines: seq<string>): seq<Row> {
    if lines == [] then [] else ScanAll(lines[..|lines| - 1]) + RowsOf(lines[|lines| - 1])
  }

  /** The line loop: every line the pattern matches appends its row. */
  method Scan(lines: seq<string>) returns (rows: seq<Row>)
    ensures rows == ScanAll(lines)
  {
    rows := [];
    for i := 0 to |lines|
      invariant rows == ScanAll(lines[..i])
    {
      ScanStep(lines, i);
      var r := LineRow(lines[i]);
      if r.Some? {
        rows := rows + [r.value];
      }
    }
    assert lines[..|lines|] == lines;
  }

  /** Reading one more line appends that line's rows. */
  lemma ScanStep(lines: seq<string>, i: nat)
    requires i < |lines|
    ensures ScanAll(lines[..i + 1]) == ScanAll(lines[..i]) + RowsOf(lines[i])
  {
    assert lines[..i + 1][..i] == lines[..i];
  }

  /** The number of lines the pattern matches. */
  function MatchCount(lines: seq<string>): nat {
    if lines == [] then 0
    else MatchCount(lines[..|lines| - 1]) + if SearchFrom(lines[|lines| - 1], 0).Some? then 1 else 0
  }

  /** There is one row per line the pattern matches, and every row's date has the pattern's shape. */
  lemma {:induction false} RowsPerMatch(lines: seq<string>)
    ensures |ScanAll(lines)| == MatchCount(lines)
    ensures forall k :: 0 <= k < |ScanAll(lines)| ==> IsDateGroup(ScanAll(lines)[k].date)
  {
    if lines != [] {
      RowsPerMatch(lines[..|lines| - 1]);
      var rs := RowsOf(lines[|lines| - 1]);
      assert |rs| == 1 ==> IsDateGroup(rs[0].date);
    }
  }

  // ---------------------------------------------------------------------------
  // `format_fecha`

  /** The Spanish month abbreviations and their numbers. */
  function MonthNumber(m: string): (r: Option<string>)
    ensures r.Some? ==> |r.value| == 2 && AllDigits(r.value)
  {
    if m == "ene" then Some("01") else if m == "feb" then Some("02") else if m == "mar" then Some("03")
    else if m == "abr" then Some("04") else if m == "may" then Some("05") else if m == "jun" then Some("06")
    else if m == "jul" then Some("07") else if m == "ago" then Some("08") else if m == "sep" then Some("09")
    else if m == "oct" then Some("10") else if m == "nov" then Some("11") else if m == "dic" then Some("12")
    else None
  }

  predicate IsLowerAscii(c: char) {
    'a' <= c <= 'z'
  }

  /** `-20\d{2}` at `j`: a dash and a year of this century. */
  predicate YearAt(f: string, j: nat) {
    j + 5 <= |f| && f[j] == '-' && f[j + 1] == '2' && f[j + 2] == '0' && DigitsAt(f, j + 3, 2)
  }

  /**
   * Where the year starts when `(\d{2})-([a-z]{3})\.?-(20\d{2})` is tried at `i`. The dot is
   * taken when present; giving it back would leave a dot where the dash is needed.
   */
  function NamedAt(f: string, i: nat): (r: Option<nat>)
    ensures r.Some? ==> r.value == i + 7 || r.value == i + 8
    ensures r.Some? ==> r.value + 4 <= |f| && DigitsAt(f, i, 2) && f[i + 2] == '-' && DigitsAt(f, r.value, 4)
  {
    if i + 6 <= |f| && DigitsAt(f, i, 2) && f[i + 2] == '-'
      && IsLowerAscii(f[i + 3]) && IsLowerAscii(f[i + 4]) && IsLowerAscii(f[i + 5]) then
      var j := if i + 6 < |f| && f[i + 6] == '.' then i + 7 else i + 6;
      if YearAt(f, j) then Some(j + 1) else None
    else None
  }

  /** `re.search` of the named-month date from `i` on: where it starts. */
  function NamedFrom(f: string, i: nat): (r: Option<nat>)
    decreases |f| - i
    ensures r.Some? ==> i <= r.value && NamedAt(f, r.value).Some?
  {
    if i >= |f| then None else if NamedAt(f, i).Some? then Some(i) else NamedFrom(f, i + 1)
  }

  /** `(\d{2})-(\d{2})-(20\d{2})` tried at `i`. */
  predicate NumericAt(f: string, i: nat) {
    DigitsAt(f, i, 2) && CharAt(f, i + 2, '-') && DigitsAt(f, i + 3, 2) && YearAt(f, i + 5)
  }

  /** `re.search` of the numeric date from `i` on: where it starts. */
  function NumericFrom(f: string, i: nat): (r: Option<nat>)
    decreases |f| - i
    ensures r.Some? ==> i <= r.value && NumericAt(f, r.value)
  {
    if i >= |f| then None else if NumericAt(f, i) then Some(i) else NumericFrom(f, i + 1)
  }

  /**
   * `format_fecha`: the first `dd-mmm-20yy` (the month's dot optional) in the lower-cased
   * date, when its month is a Spanish abbreviation, gives `dd/MM/20yy`; otherwise the
   * first `dd-mm-20yy` gives `dd/mm/20yy`; otherwise the date is unchanged.
   */
  function FormatFecha(f: string): (r: string)
    ensures r == f || (|r| == 10 && DateAt(r, 0, '/', 4) && DigitsAt(r, 6, 4))
  {
    var lo := Lower(f);
    var named := NamedFrom(lo, 0);
    if named.Some? && MonthNumber(lo[named.value + 3..named.value + 6]).Some? then NamedDate(lo, named.value)
    else
      match NumericFrom(f, 0)
      case Some(i) => NumericDate(f, i)
      case None => f
  }

  /** The named-month date matched at `i`, rewritten `dd/MM/20yy`. */
  function NamedDate(lo: string, i: nat): (r: string)
    requires NamedAt(lo, i).Some? && MonthNumber(lo[i + 3..i + 6]).Some?
    ensures |r| == 10 && DateAt(r, 0, '/', 4) && DigitsAt(r, 6, 4)
  {
    var y := NamedAt(lo, i).value;
    assert AllDigits(lo[i..i + 2]) && AllDigits(lo[y..y + 4]);
    Reformatted(lo[i..i + 2], MonthNumber(lo[i + 3..i + 6]).value, lo[y..y + 4])
  }

  /** The numeric date matched at `i`, rewritten `dd/mm/20yy`. */
  function NumericDate(f: string, i: nat): (r: string)
    requires NumericAt(f, i)
    ensures |r| == 10 && DateAt(r, 0, '/', 4) && DigitsAt(r, 6, 4)
  {
    assert AllDigits(f[i..i + 2]) && AllDigits(f[i + 3..i + 5]) && AllDigits(f[i + 6..i + 10]);
    Reformatted(f[i..i + 2], f[i + 3..i + 5], f[i + 6..i + 10])
  }

  /** `dd/mm/yyyy` from its three fields. */
  function Reformatted(d: string, m: string, y: string): (r: string)
    requires |d| == 2 && |m| == 2 && |y| == 4 && AllDigits(d) && AllDigits(m) && AllDigits(y)
    ensures |r| == 10 && DateAt(r, 0, '/', 4) && DigitsAt(r, 6, 4)
  {
    var r := d + "/" + m + "/" + y;
    assert r[0] == d[0] && r[1] == d[1] && r[3] == m[0] && r[4] == m[1];
    assert forall i :: 6 <= i < 10 ==> r[i] == y[i - 6];
    r
  }

  /** Every month abbreviation is three lower-case letters. */
  lemma MonthLetters(w: string)
    requires MonthNumber(w).Some?
    ensures |w| == 3 && IsLowerAscii(w[0]) && IsLowerAscii(w[1]) && IsLowerAscii(w[2])
  {
  }

  /** No search finds a pattern that matches nowhere from `i` on. */
  lemma {:induction false} NoNamedFrom(f: string, i: nat)
    requires forall j: nat :: i <= j ==> NamedAt(f, j).None?
    ensures NamedFrom(f, i).None?
    decreases |f| - i
  {
    if i < |f| {
      NoNamedFrom(f, i + 1);
    }
  }

  lemma {:induction false} NoNumericFrom(f: string, i: nat)
    requires forall j: nat :: i <= j ==> !NumericAt(f, j)
    ensures NumericFrom(f, i).None?
    decreases |f| - i
  {
    if i < |f| {
      NoNumericFrom(f, i + 1);
    }
  }

  /**
   * A date with a Spanish month abbreviation, in any case and with or without its dot,
   * and a year of this century, is rewritten `dd/MM/20yy`.
   */
  lemma FormatNamed(d: string, m: string, dot: string, yy: string)
    requires |d| == 2 && AllDigits(d) && |m| == 3 && MonthNumber(Lower(m)).Some?
    requires dot == "" || dot == "."
    requires |yy| == 2 && AllDigits(yy)
    ensures FormatFecha(d + "-" + m + dot + "-20" + yy) == d + "/" + MonthNumber(Lower(m)).value + "/20" + yy
  {
    var f := d + "-" + m + dot + "-20" + yy;
    var lo, n := Lower(f), |dot|;
    NamedLayout(d, m, dot, yy, f, lo, n);
    NamedResult(f, lo, d, Lower(m), n, yy);
    YearSuffix(d + "/" + MonthNumber(Lower(m)).value, yy);
  }

  lemma YearSuffix(x: string, yy: string)
    ensures x + "/" + ("20" + yy) == x + "/20" + yy
  {
  }

  /** A lower-cased date laid out as `dd-mmm[.]-20yy` with a known month is rewritten from its fields. */
  lemma NamedResult(f: string, lo: string, d: string, w: string, n: nat, yy: string)
    requires lo == Lower(f) && n <= 1 && MonthNumber(w).Some?
    requires |lo| == 11 + n && lo[..2] == d && lo[2] == '-' && lo[3..6] == w
    requires (n == 1 ==> lo[6] == '.') && lo[6 + n] == '-' && lo[7 + n..11 + n] == "20" + yy
    requires |d| == 2 && AllDigits(d) && |yy| == 2 && AllDigits(yy)
    ensures FormatFecha(f) == d + "/" + MonthNumber(w).value + "/" + ("20" + yy)
  {
    MonthLetters(w);
    assert lo[0] == d[0] && lo[1] == d[1] && lo[3] == w[0] && lo[4] == w[1] && lo[5] == w[2];
    var y, z := lo[7 + n..11 + n], "20" + yy;
    assert y[0] == lo[7 + n] && y[1] == lo[8 + n] && y[2] == lo[9 + n] && y[3] == lo[10 + n];
    assert z[0] == '2' && z[1] == '0' && z[2] == yy[0] && z[3] == yy[1];
    assert NamedAt(lo, 0) == Some(7 + n);
    assert NamedFrom(lo, 0) == Some(0);
  }

  /** Where the fields of a named-month date lie once it is lower-cased. */
  lemma NamedLayout(d: string, m: string, dot: string, yy: string, f: string, lo: string, n: nat)
    requires |d| == 2 && AllDigits(d) && |m| == 3 && (dot == "" || dot == ".") && |yy| == 2 && AllDigits(yy)
    requires f == d + "-" + m + dot + "-20" + yy && lo == Lower(f) && n == |dot|
    ensures |lo| == 11 + n && lo[..2] == d && lo[2] == '-' && lo[3..6] == Lower(m)
      && (n == 1 ==> lo[6] == '.') && lo[6 + n] == '-' && lo[7 + n..11 + n] == "20" + yy
  {
    NamedFields(d, m, dot, yy);
    LowerSlice(f, 0, 2);
    LowerDigits(d);
    LowerSlice(f, 3, 6);
    LowerSlice(f, 7 + n, 11 + n);
    LowerDigits("20" + yy);
  }

  /** Where the fields of a named-month date lie. */
  lemma NamedFields(d: string, m: string, dot: string, yy: string)
    requires |d| == 2 && |m| == 3 && (dot == "" || dot == ".") && |yy| == 2
    ensures var f, n := d + "-" + m + dot + "-20" + yy, |dot|;
      |f| == 11 + n && f[..2] == d && f[2] == '-' && f[3..6] == m
      && (n == 1 ==> f[6] == '.') && f[6 + n] == '-' && f[7 + n..11 + n] == "20" + yy
  {
    var h, n := d + "-" + m + dot, |dot|;
    var f := h + ("-20" + yy);
    assert d + "-" + m + dot + "-20" + yy == f;
    assert f[..2] == h[..2] == d;
    assert f[3..6] == h[3..6] == m;
    assert f[7 + n..11 + n] == ("-20" + yy)[1..] == "20" + yy;
  }

  /** Lower-casing a slice is slicing the lower-cased text. */
  lemma LowerSlice(s: string, i: nat, j: nat)
    requires i <= j <= |s|
    ensures Lower(s)[i..j] == Lower(s[i..j])
  {
  }

  /** Digits are their own lower case. */
  lemma LowerDigits(x: string)
    requires AllDigits(x)
    ensures Lower(x) == x
  {
  }

  /** A numeric date of this century is rewritten `dd/mm/20yy`. */
  lemma FormatNumeric(d: string, mm: string, yy: string)
    requires |d| == 2 && AllDigits(d) && |mm| == 2 && AllDigits(mm) && |yy| == 2 && AllDigits(yy)
    ensures FormatFecha(d + "-" + mm + "-20" + yy) == d + "/" + mm + "/20" + yy
  {
    var f := d + "-" + mm + "-20" + yy;
    var lo := Lower(f);
    assert f[0] == d[0] && f[1] == d[1] && f[2] == '-' && f[3] == mm[0] && f[4] == mm[1];
    assert f[5] == '-' && f[6] == '2' && f[7] == '0' && f[8] == yy[0] && f[9] == yy[1];
    forall j: nat
      ensures NamedAt(lo, j).None?
    {
      if j + 6 <= |lo| {
        assert lo[j + 2] == LowerChar(f[j + 2]) && lo[j + 3] == LowerChar(f[j + 3]);
      }
    }
    NoNamedFrom(lo, 0);
    assert NumericAt(f, 0);
    assert f[..2] == d && f[3..5] == mm && f[6..10] == "20" + yy;
    assert "/20" + yy == "/" + ("20" + yy);
  }

  /** A text without a dash is left as it is. */
  lemma FormatDashless(f: string)
    requires forall i :: 0 <= i < |f| ==> f[i] != '-'
    ensures FormatFecha(f) == f
  {
    var lo := Lower(f);
    forall j: nat
      ensures NamedAt(lo, j).None?
    {
      if j + 6 <= |lo| {
        assert lo[j + 2] == LowerChar(f[j + 2]);
      }
    }
    NoNamedFrom(lo, 0);
    forall j: nat
      ensures !NumericAt(f, j)
    {
    }
    NoNumericFrom(f, 0);
  }

  // ---------------------------------------------------------------------------
  // The sheet

  /** A row as a ledger movement: its date rewritten, and each text cleaned for a cell. */
  function MovementOf(r: Row): (m: Ledger.Movement)
    ensures m.amount == r.amount
  {
    Ledger.Movement(CleanForExcel(FormatFecha(r.date)), CleanForExcel(r.description), r.amount)
  }

  /** The rows as ledger movements. */
  function Movements(rows: seq<Row>): (ms: seq<Ledger.Movement>)
    ensures |ms| == |rows| && forall k :: 0 <= k < |rows| ==> ms[k] == MovementOf(rows[k])
    ensures forall k :: 0 <= k < |rows| ==> ms[k].amount == rows[k].amount
  {
    seq(|rows|, k requires 0 <= k < |rows| => MovementOf(rows[k]))
  }

  /**
   * The sheet of the rows read newest first: reversed into date order, the opening
   * balance the oldest row's balance less its amount, the closing balance the newest row's.
   */
  function SheetOf(rows: seq<Row>): Ledger.Sheet
    requires rows != []
  {
    var oldest := rows[|rows| - 1];
    Ledger.ListingSheet("Reporte ICBC", oldest.balance - oldest.amount, rows[0].balance, Ledger.Reverse(Movements(rows)))
  }

  /** The whole statement: no sheet when no line matches, otherwise the sheet of the rows read. */
  method Process(lines: seq<string>) returns (sheet: Option<Ledger.Sheet>)
    ensures sheet.None? <==> ScanAll(lines) == []
    ensures sheet.Some? ==> ScanAll(lines) != [] && sheet.value == SheetOf(ScanAll(lines))
  {
    var rows := Scan(lines);
    if rows == [] {
      return None;
    }
    sheet := Some(SheetOf(rows));
  }

  /** Each row's balance is the next older row's balance plus the row's amount. */
  predicate RowsChain(rows: seq<Row>) {
    forall k :: 0 <= k < |rows| - 1 ==> rows[k].balance == rows[k + 1].balance + rows[k].amount
  }

  /** The balances of the rows, in the order read. */
  function Balances(rows: seq<Row>): (bs: seq<int>)
    ensures |bs| == |rows| && forall k :: 0 <= k < |rows| ==> bs[k] == rows[k].balance
  {
    seq(|rows|, k requires 0 <= k < |rows| => rows[k].balance)
  }

  /** When the balances chain, the opening balance plus the net movement is the closing balance: the control value is zero. */
  lemma BalancedSheet(rows: seq<Row>)
    requires rows != [] && RowsChain(rows)
    ensures SheetOf(rows).control == Some(0)
  {
    ChainedListing(rows, Movements(rows));
  }

  /** The same for any movements carrying the rows' amounts. */
  lemma ChainedListing(rows: seq<Row>, ms: seq<Ledger.Movement>)
    requires rows != [] && RowsChain(rows)
    requires |ms| == |rows| && forall k :: 0 <= k < |rows| ==> ms[k].amount == rows[k].amount
    ensures var oldest := rows[|rows| - 1];
      Ledger.ListingSheet("Reporte ICBC", oldest.balance - oldest.amount, rows[0].balance, Ledger.Reverse(ms)).control == Some(0)
  {
    var bs := Balances(rows);
    assert Ledger.ChainedNewestFirst(Ledger.Amounts(ms), bs);
    Ledger.NewestFirstBalanced("Reporte ICBC", ms, bs);
  }

  /**
   * The sheet lists the oldest row first; its credit column holds the positive amounts and
   * its debit column the magnitudes of the negative ones, so a zero amount is in neither
   * and credits less debits is the net movement.
   */
  lemma SheetColumns(rows: seq<Row>)
    requires rows != []
    ensures var xs, n := Ledger.Amounts(Ledger.Reverse(Movements(rows))), |rows|;
      |xs| == n && (forall i :: 0 <= i < n ==> xs[i] == rows[n - 1 - i].amount)
      && SheetOf(rows).credits == Ledger.Credits(xs) && SheetOf(rows).debits == Ledger.Debits(xs)
      && Ledger.Sum(SheetOf(rows).credits) - Ledger.Sum(SheetOf(rows).debits) == Ledger.Sum(xs)
      && |SheetOf(rows).credits| + |SheetOf(rows).debits| + |Ledger.ZeroAmounts(xs)| == n
  {
    ReversedAmounts(rows, Movements(rows));
    Ledger.CreditsMinusDebits(Ledger.Amounts(Ledger.Reverse(Movements(rows))));
  }

  /** Reversed movements carrying the rows' amounts list the amounts from the oldest row on. */
  lemma ReversedAmounts(rows: seq<Row>, ms: seq<Ledger.Movement>)
    requires |ms| == |rows| && forall k :: 0 <= k < |rows| ==> ms[k].amount == rows[k].amount
    ensures var xs, n := Ledger.Amounts(Ledger.Reverse(ms)), |rows|;
      |xs| == n && forall i :: 0 <= i < n ==> xs[i] == rows[n - 1 - i].amount
  {
    var n, rm := |rows|, Ledger.Reverse(ms);
    forall i | 0 <= i < n
      ensures Ledger.Amounts(rm)[i] == rows[n - 1 - i].amount
    {
      assert rm[i] == ms[n - 1 - i];
    }
  }
}
