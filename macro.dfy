/**
 * Banco Macro statements, first layout.
 *
 * The text is cut at the first line that mentions "Transferencias entre Cuentas", and its
 * first twenty lines are skipped as the header. A "Saldos Finales" line gives the closing
 * balance, otherwise a "Saldos Anteriores" line the opening balance: the first Argentine
 * amount standing as a word of its own. Every other line with a `dd/mm/yyyy` date and
 * without "Saldos" is a movement line: its date is the text before the first blank, and
 * the rest splits into a description and the amount that ends it, if one does. A single
 * "Movimientos" sheet lists the movements whose amount was found.
 */
module Macro {
  import opened Text
  import opened Optional
  import opened Amounts
  import opened Lines
  import Ledger

  const CutKey := "Transferencias entre Cuentas"
  const HeaderLines := 20
  const ClosingKey := "Saldos Finales"
  const OpeningKey := "Saldos Anteriores"
  const BalanceWord := "Saldos"
  const SheetName := "Movimientos"

  // ---------------------------------------------------------------------------
  // The amount that ends a line

  /** `-?\d{1,3}(?:\.\d{3})*(?:,\d{2})` matched as a whole: an Argentine literal, with an optional minus. */
  predicate IsSignedAr(t: string) {
    IsArLiteral(t) || (t != [] && t[0] == '-' && IsArLiteral(t[1..]))
  }

  /** The first tail from `p` on that `ok` accepts, tried from the longest. */
  function FirstTail(s: string, ok: string -> bool, p: nat): (r: Option<nat>)
    requires p <= |s|
    decreases |s| - p
    ensures r.Some? ==> p <= r.value <= |s| && ok(s[r.value..])
    ensures r.Some? ==> forall q :: p <= q < r.value ==> !ok(s[q..])
    ensures r.None? ==> forall q :: p <= q <= |s| ==> !ok(s[q..])
  {
    if ok(s[p..]) then Some(p)
    else if p == |s| then None
    else FirstTail(s, ok, p + 1)
  }

  /**
   * Where the amount that ends the line starts. `re.search` tries the whole pattern at the
   * start of the line first, and its lazy `(.*?)` lengthens one character at a time until the
   * rest of the line is an amount; so the amount is the longest tail that is one.
   */
  function AmountStart(s: string): (r: Option<nat>)
    ensures r.Some? ==> r.value <= |s| && IsSignedAr(s[r.value..])
    ensures r.Some? ==> forall q :: 0 <= q < r.value ==> !IsSignedAr(s[q..])
    ensures r.None? ==> forall q :: 0 <= q <= |s| ==> !IsSignedAr(s[q..])
  {
    FirstTail(s, IsSignedAr, 0)
  }

  /** What `procesar_linea` gives: the description and the amount, when the line ends with one. */
  datatype Split = Split(description: string, amount: Option<int>)

  /** `procesar_linea`: the stripped text before the amount, and the amount read; or the stripped line and nothing. */
  function SplitLine(s: string): (r: Split)
    ensures AmountStart(s).None? ==> r == Split(Strip(s), None)
  {
    match AmountStart(s)
    case None => Split(Strip(s), None)
    case Some(p) => Split(Strip(s[..p]), ParseArPlain(s[p..]))
  }

  /** An Argentine literal holds only digits, points and a comma, and starts with a digit. */
  lemma {:induction false} ArChars(t: string)
    ensures IsArLiteral(t) ==> IsDigit(t[0]) && forall i :: 0 <= i < |t| ==> IsDigit(t[i]) || t[i] == '.' || t[i] == ','
  {
    if IsArLiteral(t) {
      var g, f := t[..|t| - 3], t[|t| - 2..];
      GroupedDigitsOnly(g, '.');
      GroupedEnds(g, '.');
      assert t[0] == g[0];
      assert forall i :: 0 <= i < |g| ==> t[i] == g[i];
      assert forall i :: |t| - 2 <= i < |t| ==> t[i] == f[i - (|t| - 2)];
    }
  }

  /** An amount with its minus holds no blank. */
  lemma {:induction false} AmountHasNoBlank(t: string)
    ensures IsSignedAr(t) ==> forall i :: 0 <= i < |t| ==> t[i] != ' '
  {
    ArChars(t);
    if t != [] {
      ArChars(t[1..]);
      assert forall i :: 1 <= i < |t| ==> t[i] == t[1..][i - 1];
    }
  }

  /**
   * An amount reads in cents: a plain Argentine literal as a non-negative amount, and one
   * after a minus as the opposite of the literal's.
   */
  lemma {:induction false} SignedArValue(t: string)
    requires IsSignedAr(t)
    ensures ParseArPlain(t).Some?
    ensures t[0] != '-' ==> IsArLiteral(t) && ParseArPlain(t).value >= 0
    ensures t[0] == '-' ==> IsArLiteral(t[1..]) && ParseArPlain(t) == Negate(ParseArPlain(t[1..])) && ParseArPlain(t).value <= 0
  {
    ArChars(t);
    if t[0] == '-' {
      MinusValue(t[1..]);
      assert t == "-" + t[1..];
    } else {
      ArLiteralValue(t);
    }
  }

  lemma {:induction false} MinusValue(u: string)
    requires IsArLiteral(u)
    ensures ParseArPlain("-" + u) == Negate(ParseArPlain(u)) && ParseArPlain(u).Some?
  {
    ArLiteralValue(u);
    ArChars(u);
    ArPlainNegative(u);
  }

  /** The amount `procesar_linea` finds is read in cents, with the sign its minus gives. */
  lemma {:induction false} SplitValue(s: string)
    requires AmountStart(s).Some?
    ensures var t := s[AmountStart(s).value..];
      SplitLine(s) == Split(Strip(s[..AmountStart(s).value]), ParseArPlain(t))
      && ParseArPlain(t).Some? && (ParseArPlain(t).value < 0 ==> t[0] == '-')
  {
    SignedArValue(s[AmountStart(s).value..]);
  }

  /** The sign of an amount as printed: a minus for a negative one. */
  function Minus(negative: bool): string {
    if negative then "-" else ""
  }

  lemma {:induction false} MinusIsSigned(t: string)
    requires IsArLiteral(t)
    ensures IsSignedAr("-" + t)
  {
    assert ("-" + t)[1..] == t;
  }

  /** An amount printed as an Argentine literal, after a minus when negative, is an amount and reads back. */
  lemma {:induction false} PrintedIsAmount(negative: bool, c: nat)
    ensures var t := Minus(negative) + FormatAr(c);
      IsSignedAr(t) && ParseArPlain(t) == Some(if negative then -(c as int) else c)
  {
    var f := FormatAr(c);
    if negative {
      NegativeText(c);
      assert Minus(negative) + f == "-" + f;
    } else {
      PositiveText(c);
      assert Minus(negative) + f == f;
    }
  }

  lemma {:induction false} PositiveText(c: nat)
    ensures IsSignedAr(FormatAr(c)) && ParseArPlain(FormatAr(c)) == Some(c)
  {
    ArFormatShape(c);
    ArRoundTrip(c);
  }

  lemma {:induction false} NegativeText(c: nat)
    ensures IsSignedAr("-" + FormatAr(c)) && ParseArPlain("-" + FormatAr(c)) == Some(-(c as int))
  {
    ArFormatShape(c);
    MinusIsSigned(FormatAr(c));
    ArSignedRoundTrip(c);
  }

  /**
   * A description, a blank and an amount split back into the description and the amount:
   * no longer tail is an amount, since it would hold the blank.
   */
  lemma {:induction false} SplitTail(d: string, a: string)
    requires d != [] && Strip(d) == d && IsSignedAr(a)
    ensures SplitLine(d + " " + a) == Split(d, ParseArPlain(a))
  {
    var s := d + " " + a;
    var p := |d| + 1;
    assert s[p..] == a;
    forall q | 0 <= q < p
      ensures !IsSignedAr(s[q..])
    {
      assert s[q..][|d| - q] == ' ';
      AmountHasNoBlank(s[q..]);
    }
    assert AmountStart(s) == Some(p) by {
      var r := AmountStart(s);
      assert r.Some?;
      assert !(r.value < p);
      assert !(p < r.value);
    }
    assert s[..p] == d + " ";
    StripBlankAfter(d);
  }

  /** In particular, a printed amount after a description and a blank reads back as itself. */
  lemma {:induction false} SplitRoundTrip(d: string, negative: bool, c: nat)
    requires d != [] && Strip(d) == d
    ensures SplitLine(d + " " + (Minus(negative) + FormatAr(c))) == Split(d, Some(if negative then -(c as int) else c))
  {
    PrintedIsAmount(negative, c);
    SplitTail(d, Minus(negative) + FormatAr(c));
  }

  // ---------------------------------------------------------------------------
  // The lines read

  /** The text up to the first line with the cut mark, all of it when there is none. */
  function Cut(lines: seq<string>): (r: seq<string>)
    ensures |r| <= |lines| && r == lines[..|r|]
    ensures FirstIn(lines, [CutKey], 0, |lines|).None? ==> r == lines
    ensures FirstIn(lines, [CutKey], 0, |lines|).Some? ==> r == lines[..FirstIn(lines, [CutKey], 0, |lines|).value]
  {
    match FirstIn(lines, [CutKey], 0, |lines|)
    case None => lines
    case Some(i) => lines[..i]
  }

  /** `texto[20:]` after the cut: an empty list when the cut leaves twenty lines or fewer. */
  function Body(lines: seq<string>): (r: seq<string>)
    ensures |r| == if |Cut(lines)| <= HeaderLines then 0 else |Cut(lines)| - HeaderLines
  {
    var c := Cut(lines);
    if |c| <= HeaderLines then [] else c[HeaderLines..]
  }

  /** No line read mentions the cut mark, and each is a line of the text, twenty or more lines in. */
  lemma {:induction false} BodyLines(lines: seq<string>)
    ensures Body(lines) != [] ==> HeaderLines + |Body(lines)| <= |lines|
    ensures forall k :: 0 <= k < |Body(lines)| ==> Body(lines)[k] == lines[HeaderLines + k]
    ensures forall k :: 0 <= k < |Body(lines)| ==> !Contains(Body(lines)[k], CutKey)
  {
    var r := FirstIn(lines, [CutKey], 0, |lines|);
    var c := Cut(lines);
    var end := if r.Some? then r.value else |lines|;
    assert |c| == end;
    forall k | 0 <= k < |Body(lines)|
      ensures Body(lines)[k] == lines[HeaderLines + k]
      ensures !Contains(Body(lines)[k], CutKey)
    {
      var j := HeaderLines + k;
      assert Body(lines)[k] == c[j];
      assert c[j] == lines[..|c|][j];
      assert j < end;
      assert !ContainsAny(lines[j], [CutKey]);
      assert [CutKey][0] == CutKey;
    }
  }

  /** The loop that cuts the text at the first line with the mark. */
  method CutText(lines: seq<string>) returns (kept: seq<string>)
    ensures kept == Cut(lines)
  {
    var i := 0;
    while i < |lines|
      invariant i <= |lines| && FirstIn(lines, [CutKey], 0, i).None?
    {
      if Contains(lines[i], CutKey) {
        assert Contains(lines[i], [CutKey][0]);
        FirstInExtends(lines, [CutKey], 0, i + 1, |lines|);
        return lines[..i];
      }
      assert forall k | 0 <= k < 1 :: [CutKey][k] == CutKey;
      i := i + 1;
    }
    return lines;
  }

  // ---------------------------------------------------------------------------
  // The balances

  /**
   * Python's `\w`, among ASCII and Latin-1 characters: a letter, a digit, an underscore, or
   * one of the numeric characters `² ³ ¹ ¼ ½ ¾`, which `\w` accepts though `\d` does not.
   */
  predicate IsWordChar(c: char) {
    IsLetter(c) || IsDigit(c) || c == '_'
    || c == '\U{b2}' || c == '\U{b3}' || c == '\U{b9}' || ('\U{bc}' <= c <= '\U{be}')
  }

  /**
   * `\b(\d{1,3}(?:\.\d{3})*,\d{2})\b` tried at `q`: an Argentine literal that no word
   * character touches on either side. Giving back digits or groups leaves a digit where the
   * comma must be, so the literal is the longest one, or none.
   */
  function WordAr(s: string, q: nat): (r: Option<nat>)
    ensures r.Some? ==> q < r.value <= |s| && IsArLiteral(s[q..(r.value)])
    ensures r.Some? ==> (q == 0 || !IsWordChar(s[q - 1])) && (r.value == |s| || !IsWordChar(s[r.value]))
  {
    if q > |s| || (q > 0 && IsWordChar(s[q - 1])) then None
    else match GroupedAt(s, q, '.', ',')
      case None => None
      case Some(e) => if e == |s| || !IsWordChar(s[e]) then Some(e) else None
  }

  /** In `²1.000,00` the superscript is a word character, so the literal can only start at `000,00`. */
  lemma SuperscriptTouches()
    ensures WordAr("\U{b2}1.000,00", 1).None? && WordAr("\U{b2}1.000,00", 3) == Some(9)
  {
  }

  /** `re.search` of that pattern: the first such literal of the line. */
  function FirstWordAr(s: string): (r: Option<string>)
    ensures r.Some? ==> IsArLiteral(r.value)
    ensures r.Some? <==> exists q: nat :: WordAr(s, q).Some?
  {
    var at := (q: nat) => WordAr(s, q);
    assert IsMatcher(s, at);
    match Search(s, at)
    case None =>
      assert forall q: nat :: WordAr(s, q).None? by {
        forall q: nat
          ensures WordAr(s, q).None?
        {
          assert at(q).None?;
        }
      }
      None
    case Some(span) =>
      assert at(span.0).Some?;
      Some(s[span.0..span.1])
  }

  /** The balance a line gives: its first literal standing as a word, read. */
  function BalanceOf(line: string): (r: Option<int>)
    ensures r.Some? <==> FirstWordAr(line).Some?
    ensures r.Some? ==> r.value >= 0
  {
    match FirstWordAr(line)
    case None => None
    case Some(t) =>
      ArLiteralValue(t);
      ParseArPlain(t)
  }

  /** The balances found so far; a balance no line gave stays empty. */
  datatype Balances = Balances(opening: Option<int>, closing: Option<int>)

  /** What a line sets: a closing line its closing balance, otherwise an opening line its opening balance. */
  function ReadingOf(line: string): Balances {
    if Contains(line, ClosingKey) then Balances(None, BalanceOf(line))
    else if Contains(line, OpeningKey) then Balances(BalanceOf(line), None)
    else Balances(None, None)
  }

  /** The balances after a line: what it sets replaces the value before. */
  function Apply(b: Balances, r: Balances): Balances {
    Balances(if r.opening.Some? then r.opening else b.opening, if r.closing.Some? then r.closing else b.closing)
  }

  function Fold(rs: seq<Balances>): Balances {
    if rs == [] then Balances(None, None) else Apply(Fold(rs[..|rs| - 1]), rs[|rs| - 1])
  }

  function Readings(lines: seq<string>): (r: seq<Balances>)
    ensures |r| == |lines| && forall k :: 0 <= k < |lines| ==> r[k] == ReadingOf(lines[k])
  {
    seq(|lines|, k requires 0 <= k < |lines| => ReadingOf(lines[k]))
  }

  /** The balances the lines read set. */
  function BalancesOf(lines: seq<string>): Balances {
    Fold(Readings(lines))
  }

  /** The last reading that sets the closing balance decides it; without one it stays empty. */
  lemma {:induction false} LastClosing(rs: seq<Balances>, k: int)
    requires -1 <= k < |rs| && (k >= 0 ==> rs[k].closing.Some?)
    requires forall j :: k < j < |rs| ==> rs[j].closing.None?
    ensures Fold(rs).closing == if k >= 0 then rs[k].closing else None
  {
    if rs != [] {
      var init := rs[..|rs| - 1];
      if k < |init| {
        assert forall j :: k < j < |init| ==> init[j] == rs[j];
        LastClosing(init, k);
      }
    }
  }

  /** The last reading that sets the opening balance decides it; without one it stays empty. */
  lemma {:induction false} LastOpening(rs: seq<Balances>, k: int)
    requires -1 <= k < |rs| && (k >= 0 ==> rs[k].opening.Some?)
    requires forall j :: k < j < |rs| ==> rs[j].opening.None?
    ensures Fold(rs).opening == if k >= 0 then rs[k].opening else None
  {
    if rs != [] {
      var init := rs[..|rs| - 1];
      if k < |init| {
        assert forall j :: k < j < |init| ==> init[j] == rs[j];
        LastOpening(init, k);
      }
    }
  }

  /** A line that sets the closing balance: it has the key and a literal standing as a word. */
  predicate SetsClosing(line: string) {
    Contains(line, ClosingKey) && BalanceOf(line).Some?
  }

  /** A line that sets the opening balance: it has the key, not the closing one, and a literal. */
  predicate SetsOpening(line: string) {
    !Contains(line, ClosingKey) && Contains(line, OpeningKey) && BalanceOf(line).Some?
  }

  /** The last line that sets the closing balance decides it. */
  lemma {:induction false} LastClosingWins(lines: seq<string>, k: nat)
    requires k < |lines| && SetsClosing(lines[k])
    requires forall j :: k < j < |lines| ==> !SetsClosing(lines[j])
    ensures BalancesOf(lines).closing == BalanceOf(lines[k])
  {
    LastClosing(Readings(lines), k);
  }

  /** The last line that sets the opening balance decides it. */
  lemma {:induction false} LastOpeningWins(lines: seq<string>, k: nat)
    requires k < |lines| && SetsOpening(lines[k])
    requires forall j :: k < j < |lines| ==> !SetsOpening(lines[j])
    ensures BalancesOf(lines).opening == BalanceOf(lines[k])
  {
    LastOpening(Readings(lines), k);
  }

  /** Without a line that sets one, both balances stay empty. */
  lemma {:induction false} NoBalanceLines(lines: seq<string>)
    requires forall k :: 0 <= k < |lines| ==> !SetsClosing(lines[k]) && !SetsOpening(lines[k])
    ensures BalancesOf(lines) == Balances(None, None)
  {
    LastClosing(Readings(lines), -1);
    LastOpening(Readings(lines), -1);
  }

  // ---------------------------------------------------------------------------
  // The movement lines

  /** `re.search(r"\d{2}/\d{2}/\d{4}", line)`: a full date somewhere in the line. */
  predicate HasDate(line: string) {
    exists q | 0 <= q < |line| :: DateAt(line, q, '/', 4)
  }

  /** A movement line: neither balance line, a full date, and no mention of the balances. */
  predicate IsMovementLine(line: string) {
    !Contains(line, ClosingKey) && !Contains(line, OpeningKey) && HasDate(line) && !Contains(line, BalanceWord)
  }

  /** The movement lines, in order. */
  function MovementLines(lines: seq<string>): (r: seq<string>)
    ensures |r| <= |lines|
    ensures forall l :: l in r <==> l in lines && IsMovementLine(l)
  {
    if lines == [] then []
    else
      var init := lines[..|lines| - 1];
      var l := lines[|lines| - 1];
      assert forall x :: x in lines <==> x in init || x == l;
      MovementLines(init) + if IsMovementLine(l) then [l] else []
  }

  /** The loop over the lines read: it sets the balances and keeps the movement lines. */
  method Scan(lines: seq<string>) returns (b: Balances, moves: seq<string>)
    ensures b == BalancesOf(lines) && moves == MovementLines(lines)
  {
    ghost var rs := Readings(lines);
    b := Balances(None, None);
    moves := [];
    for i := 0 to |lines|
      invariant b == Fold(rs[..i]) && moves == MovementLines(lines[..i])
    {
      assert rs[..i + 1][..i] == rs[..i];
      assert lines[..i + 1][..i] == lines[..i];
      var line := lines[i];
      if Contains(line, ClosingKey) {
        b := Apply(b, Balances(None, BalanceOf(line)));
      } else if Contains(line, OpeningKey) {
        b := Apply(b, Balances(BalanceOf(line), None));
      } else {
        b := Apply(b, Balances(None, None));
        if HasDate(line) && !Contains(line, BalanceWord) {
          moves := moves + [line];
        }
      }
    }
    assert rs[..|lines|] == rs;
    assert lines[..|lines|] == lines;
  }

  // ---------------------------------------------------------------------------
  // The movements

  /**
   * A movement line split at its first blank into the date and the rest, which splits into
   * the description and the amount; nothing for a blank line or one without a blank, which
   * `split(" ", 1)` cannot unpack.
   */
  function EntryOf(line: string): (r: Option<Ledger.Entry>)
    ensures r.Some? <==> Strip(line) != [] && IndexOf(line, ' ') >= 0
  {
    if Strip(line) == [] then None
    else
      var i := IndexOf(line, ' ');
      if i < 0 then None
      else
        var rest := SplitLine(line[i + 1..]);
        Some(Ledger.Entry(line[..i], rest.description, rest.amount))
  }

  /**
   * A line gives a movement exactly when it is not blank and holds a blank; the date is the
   * text before its first blank, and the rest after that blank splits into the description and the amount.
   */
  lemma {:induction false} EntryParts(line: string)
    ensures EntryOf(line).Some? <==> Strip(line) != [] && ' ' in line
    ensures EntryOf(line).Some? ==> var e := EntryOf(line).value;
      var n := |e.date|;
      ' ' !in e.date && n < |line| && line[..n] == e.date && line[n] == ' '
      && SplitLine(line[n + 1..]) == Split(e.description, e.amount)
  {
    IndexOfFirst(line, ' ');
  }

  /** The movements of the movement lines, in order. */
  function Entries(lines: seq<string>): (r: seq<Ledger.Entry>)
    ensures |r| <= |lines|
  {
    if lines == [] then []
    else
      Entries(lines[..|lines| - 1]) + match EntryOf(lines[|lines| - 1])
        case None => []
        case Some(e) => [e]
  }

  /** Every movement line that holds a blank gives a movement: none is lost. */
  lemma {:induction false} EntriesCount(lines: seq<string>)
    requires forall k :: 0 <= k < |lines| ==> Strip(lines[k]) != [] && ' ' in lines[k]
    ensures |Entries(lines)| == |lines|
  {
    if lines != [] {
      var init := lines[..|lines| - 1];
      assert forall k :: 0 <= k < |init| ==> init[k] == lines[k];
      EntriesCount(init);
      EntryParts(lines[|lines| - 1]);
    }
  }

  method ReadEntries(lines: seq<string>) returns (es: seq<Ledger.Entry>)
    ensures es == Entries(lines)
  {
    es := [];
    for i := 0 to |lines|
      invariant es == Entries(lines[..i])
    {
      assert lines[..i + 1][..i] == lines[..i];
      var e := EntryOf(lines[i]);
      if e.Some? {
        es := es + [e.value];
      }
    }
    assert lines[..|lines|] == lines;
  }

  // ---------------------------------------------------------------------------
  // The sheet

  /** The sheet: the found amounts split into credits and debits; a missing balance counts as an empty cell, zero. */
  function SheetOf(b: Balances, es: seq<Ledger.Entry>): (r: Ledger.Sheet)
    ensures r.name == SheetName
    ensures r.control == Some(b.opening.GetOr(0) + Ledger.KnownTotal(es) - b.closing.GetOr(0))
  {
    Ledger.KnownSum(es);
    Ledger.ListingSheet(SheetName, b.opening.GetOr(0), b.closing.GetOr(0), Ledger.Known(es))
  }

  /** The whole parse as a function of the text. */
  function Parse(lines: seq<string>): Option<Ledger.Sheet> {
    var body := Body(lines);
    var es := Entries(MovementLines(body));
    if es == [] then None else Some(SheetOf(BalancesOf(body), es))
  }

  /** The whole parser. */
  method Process(lines: seq<string>) returns (sheet: Option<Ledger.Sheet>)
    ensures sheet == Parse(lines)
  {
    var kept := CutText(lines);
    var body := if |kept| <= HeaderLines then [] else kept[HeaderLines..];
    var b, moves := Scan(body);
    var es := ReadEntries(moves);
    if es == [] {
      return None;
    }
    sheet := Some(SheetOf(b, es));
  }

  /** The workbook exists exactly when some movement line holds a blank. */
  lemma {:induction false} ParseFindsMovements(lines: seq<string>)
    ensures Parse(lines).Some? <==> exists l :: l in MovementLines(Body(lines)) && Strip(l) != [] && ' ' in l
  {
    var ms := MovementLines(Body(lines));
    EntriesNone(ms);
  }

  /** No movement comes out exactly when no line gives one. */
  lemma {:induction false} EntriesNone(lines: seq<string>)
    ensures Entries(lines) == [] <==> forall l :: l in lines ==> !(Strip(l) != [] && ' ' in l)
  {
    if lines != [] {
      var init := lines[..|lines| - 1];
      EntriesNone(init);
      EntryParts(lines[|lines| - 1]);
      assert forall x :: x in lines <==> x in init || x == lines[|lines| - 1];
    }
  }
}
