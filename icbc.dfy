/**
 * ICBC statements (the first of the bank's layouts).
 *
 * Two balances are read from the whole text: the amount at the end of the last
 * "SALDO FINAL AL" line is the closing balance, the first amount of the last
 * "SALDO ULTIMO EXTRACTO AL" line the opening balance. Every line that starts with a date
 * `d-mm` or `dd-mm` is a movement, cut at fixed columns: the date in columns 0-4, the
 * description in 6-49 and, from column 62 on, the amount, an Argentine literal that a
 * trailing minus makes negative. A movement whose amount cannot be found is kept without
 * one and lands in neither column of the sheet.
 */
module Icbc {
  import opened Text
  import opened Optional
  import opened Amounts
  import Ledger

  const ClosingKey := "SALDO FINAL AL"
  const OpeningKey := "SALDO ULTIMO EXTRACTO AL"
  const SheetName := "Movimientos"

  // ---------------------------------------------------------------------------
  // Amounts

  /** Only whitespace. */
  predicate Blank(t: string) {
    forall i :: 0 <= i < |t| ==> IsSpace(t[i])
  }

  /**
   * `(\d{1,3}(?:\.\d{3})*,\d{2})\s*$` tried at `p`: the literal there, when only whitespace
   * follows it; the match then ends at the end of the line.
   */
  function ClosingAt(s: string, p: nat): (r: Option<nat>)
    ensures r.Some? ==> GroupedAt(s, p, '.', ',').Some? && Blank(s[GroupedAt(s, p, '.', ',').value..])
    ensures r.Some? ==> p < r.value == |s|
  {
    match GroupedAt(s, p, '.', ',')
    case None => None
    case Some(e) => if Blank(s[e..]) then Some(|s|) else None
  }

  /** The literal `re.search` finds with the closing pattern: the leftmost literal that ends the line but for whitespace. */
  function ClosingLiteral(s: string): (r: Option<string>)
    ensures r.Some? ==> IsArLiteral(r.value)
    ensures r.Some? <==> exists p: nat :: ClosingAt(s, p).Some?
  {
    var at := (q: nat) => ClosingAt(s, q);
    assert IsMatcher(s, at);
    match Search(s, at)
    case None =>
      assert forall q: nat :: ClosingAt(s, q).None? by {
        forall q: nat
          ensures ClosingAt(s, q).None?
        {
          assert at(q).None?;
        }
      }
      None
    case Some(span) =>
      assert at(span.0).Some?;
      Some(s[span.0..GroupedAt(s, span.0, '.', ',').value])
  }

  /**
   * `(\d{1,3}(?:\.\d{3})*,\d{2}-?)` tried at `p`: a literal, with the minus right after it
   * when there is one.
   */
  function SignedAt(s: string, p: nat): (r: Option<nat>)
    ensures r.Some? ==> GroupedAt(s, p, '.', ',').Some?
    ensures r.Some? ==> var e := GroupedAt(s, p, '.', ',').value;
      r.value == if e < |s| && s[e] == '-' then e + 1 else e
    ensures r.Some? ==> p < r.value <= |s|
  {
    match GroupedAt(s, p, '.', ',')
    case None => None
    case Some(e) => if e < |s| && s[e] == '-' then Some(e + 1) else Some(e)
  }

  /** What the movement pattern matches in the amount region: an Argentine literal, perhaps followed by a minus. */
  predicate IsSignedLiteral(t: string) {
    IsArLiteral(t) || (t != [] && t[|t| - 1] == '-' && IsArLiteral(t[..|t| - 1]))
  }

  /** The leftmost amount of a text, with its minus. */
  function SignedLiteral(s: string): (r: Option<string>)
    ensures r.Some? ==> IsSignedLiteral(r.value)
    ensures r.Some? <==> exists p: nat :: GroupedAt(s, p, '.', ',').Some?
  {
    var at := (q: nat) => SignedAt(s, q);
    assert IsMatcher(s, at);
    match Search(s, at)
    case None =>
      assert forall q: nat :: GroupedAt(s, q, '.', ',').None? by {
        forall q: nat
          ensures GroupedAt(s, q, '.', ',').None?
        {
          assert at(q).None?;
        }
      }
      None
    case Some(span) =>
      var p, e := span.0, span.1;
      assert at(p).Some?;
      var g := GroupedAt(s, p, '.', ',').value;
      if g < |s| && s[g] == '-' then
        assert s[p..e][..|s[p..e]| - 1] == s[p..g];
        Some(s[p..e])
      else
        Some(s[p..e])
  }

  /**
   * The amount the movement pattern matched, in cents: its dots dropped, its comma read as
   * the decimal point, negated when it carries a minus.
   */
  function AmountOf(region: string): (r: Option<int>) {
    match SignedLiteral(region)
    case None => None
    case Some(t) => SignedAr(t)
  }

  /**
   * Whatever the pattern matched reads as a number: the literal's own value, negated exactly
   * when a minus trails it.
   */
  lemma {:induction false} SignedLiteralValue(t: string)
    requires IsSignedLiteral(t)
    ensures SignedAr(t).Some?
    ensures t[|t| - 1] != '-' ==> SignedAr(t) == ParseArPlain(t) && SignedAr(t).value >= 0
    ensures t[|t| - 1] == '-' ==> SignedAr(t) == Negate(ParseArPlain(t[..|t| - 1])) && SignedAr(t).value <= 0
  {
    if t[|t| - 1] == '-' {
      var u := t[..|t| - 1];
      assert t == u + "-";
      ArLiteralValue(u);
      NoMinusInArLiteral(u);
      SignedArTrailing(u);
    } else {
      assert IsArLiteral(t);
      ArLiteralValue(t);
      NoMinusInArLiteral(t);
      SignedArPlain(t);
    }
  }

  /** A region holds an amount exactly when it holds an Argentine literal, and then the amount always reads. */
  lemma {:induction false} AmountFound(region: string)
    ensures AmountOf(region).Some? <==> exists p: nat :: GroupedAt(region, p, '.', ',').Some?
  {
    if SignedLiteral(region).Some? {
      SignedLiteralValue(SignedLiteral(region).value);
    }
  }

  // ---------------------------------------------------------------------------
  // The balances

  /** The opening and closing balances; both start at zero. */
  datatype Balances = Balances(opening: int, closing: int)

  const NoBalances := Balances(0, 0)

  /** The closing balance a line gives, if any. */
  function ClosingOf(line: string): Option<int> {
    match ClosingLiteral(line)
    case None => None
    case Some(t) => ParseArPlain(t)
  }

  /** The opening balance a line gives, if any. */
  function OpeningOf(line: string): Option<int> {
    match FirstAr(line)
    case None => None
    case Some(t) => ParseArPlain(t)
  }

  /**
   * What a line sets: a closing line its closing balance; otherwise an opening line its
   * opening balance; nothing when the key is missing or no amount is found.
   */
  datatype Reading = Reading(opening: Option<int>, closing: Option<int>)

  function ReadingOf(line: string): Reading {
    if Contains(line, ClosingKey) then Reading(None, ClosingOf(line))
    else if Contains(line, OpeningKey) then Reading(OpeningOf(line), None)
    else Reading(None, None)
  }

  /** The balances after a line: what the line sets replaces the value before it. */
  function Apply(b: Balances, r: Reading): (nb: Balances)
    ensures nb.opening == (if r.opening.Some? then r.opening.value else b.opening)
    ensures nb.closing == (if r.closing.Some? then r.closing.value else b.closing)
  {
    Balances(r.opening.GetOr(b.opening), r.closing.GetOr(b.closing))
  }

  /** The balance loop over what the lines set. */
  function Fold(b: Balances, rs: seq<Reading>): Balances {
    if rs == [] then b else Apply(Fold(b, rs[..|rs| - 1]), rs[|rs| - 1])
  }

  /** What each line sets. */
  function Readings(lines: seq<string>): (r: seq<Reading>)
    ensures |r| == |lines| && forall k :: 0 <= k < |lines| ==> r[k] == ReadingOf(lines[k])
  {
    seq(|lines|, k requires 0 <= k < |lines| => ReadingOf(lines[k]))
  }

  /** The balances the whole text sets. */
  function BalancesOf(lines: seq<string>): Balances {
    Fold(NoBalances, Readings(lines))
  }

  method ScanBalances(lines: seq<string>) returns (b: Balances)
    ensures b == BalancesOf(lines)
  {
    ghost var rs := Readings(lines);
    b := NoBalances;
    for i := 0 to |lines|
      invariant b == Fold(NoBalances, rs[..i])
    {
      assert rs[..i + 1][..i] == rs[..i];
      b := Apply(b, ReadingOf(lines[i]));
    }
    assert rs[..|lines|] == rs;
  }

  /** The last reading that sets the closing balance decides it. */
  lemma {:induction false} LastClosing(b: Balances, rs: seq<Reading>, k: nat)
    requires k < |rs| && rs[k].closing.Some?
    requires forall j :: k < j < |rs| ==> rs[j].closing.None?
    ensures Fold(b, rs).closing == rs[k].closing.value
  {
    var init := rs[..|rs| - 1];
    if k < |init| {
      assert forall j :: k < j < |init| ==> init[j] == rs[j];
      LastClosing(b, init, k);
    }
  }

  /** The last reading that sets the opening balance decides it. */
  lemma {:induction false} LastOpening(b: Balances, rs: seq<Reading>, k: nat)
    requires k < |rs| && rs[k].opening.Some?
    requires forall j :: k < j < |rs| ==> rs[j].opening.None?
    ensures Fold(b, rs).opening == rs[k].opening.value
  {
    var init := rs[..|rs| - 1];
    if k < |init| {
      assert forall j :: k < j < |init| ==> init[j] == rs[j];
      LastOpening(b, init, k);
    }
  }

  /** Readings that set nothing leave the balances as they were. */
  lemma {:induction false} NothingSet(b: Balances, rs: seq<Reading>)
    requires forall k :: 0 <= k < |rs| ==> rs[k] == Reading(None, None)
    ensures Fold(b, rs) == b
  {
    if rs != [] {
      var init := rs[..|rs| - 1];
      assert forall k :: 0 <= k < |init| ==> init[k] == rs[k];
      NothingSet(b, init);
    }
  }

  /** A line that sets a closing balance: it has the key, and an amount ends it. */
  predicate SetsClosing(line: string) {
    Contains(line, ClosingKey) && ClosingOf(line).Some?
  }

  /** A line that sets an opening balance: it has the key, not the closing one, and an amount. */
  predicate SetsOpening(line: string) {
    !Contains(line, ClosingKey) && Contains(line, OpeningKey) && OpeningOf(line).Some?
  }

  /** The last line that sets the closing balance decides it. */
  lemma {:induction false} LastClosingWins(lines: seq<string>, k: nat)
    requires k < |lines| && SetsClosing(lines[k])
    requires forall j :: k < j < |lines| ==> !SetsClosing(lines[j])
    ensures BalancesOf(lines).closing == ClosingOf(lines[k]).value
  {
    LastClosing(NoBalances, Readings(lines), k);
  }

  /** The last line that sets the opening balance decides it. */
  lemma {:induction false} LastOpeningWins(lines: seq<string>, k: nat)
    requires k < |lines| && SetsOpening(lines[k])
    requires forall j :: k < j < |lines| ==> !SetsOpening(lines[j])
    ensures BalancesOf(lines).opening == OpeningOf(lines[k]).value
  {
    LastOpening(NoBalances, Readings(lines), k);
  }

  /** Without a line that sets one, both balances stay zero. */
  lemma {:induction false} NoBalanceLines(lines: seq<string>)
    requires forall k :: 0 <= k < |lines| ==> !SetsClosing(lines[k]) && !SetsOpening(lines[k])
    ensures BalancesOf(lines) == NoBalances
  {
    NothingSet(NoBalances, Readings(lines));
  }

  // ---------------------------------------------------------------------------
  // The movements

  /** `re.match(r"^\d{1,2}-\d{2}", line)`: one or two digits, a dash and two digits. */
  predicate Dated(line: string) {
    DigitsAt(line, 0, 1)
    && ((DigitsAt(line, 1, 1) && CharAt(line, 2, '-') && DigitsAt(line, 3, 2))
        || (CharAt(line, 1, '-') && DigitsAt(line, 2, 2)))
  }

  /** The dated lines, in order. */
  function DatedLines(lines: seq<string>): (r: seq<string>)
    ensures |r| <= |lines|
    ensures forall l :: l in r <==> l in lines && Dated(l)
  {
    if lines == [] then []
    else
      var init := lines[..|lines| - 1];
      var l := lines[|lines| - 1];
      assert forall x :: x in lines <==> x in init || x == l;
      DatedLines(init) + if Dated(l) then [l] else []
  }

  /** The list comprehension that keeps the dated lines. */
  method KeepDated(lines: seq<string>) returns (kept: seq<string>)
    ensures kept == DatedLines(lines)
  {
    kept := [];
    for i := 0 to |lines|
      invariant kept == DatedLines(lines[..i])
    {
      assert lines[..i + 1][..i] == lines[..i];
      if Dated(lines[i]) {
        kept := kept + [lines[i]];
      }
    }
    assert lines[..|lines|] == lines;
  }

  /** A dated line cut at its fixed columns. */
  function EntryOf(line: string): (e: Ledger.Entry)
    ensures e.date == Slice(line, 0, 5) && e.description == Slice(line, 6, 50)
    ensures e.amount == AmountOf(From(line, 62))
  {
    Ledger.Entry(Slice(line, 0, 5), Slice(line, 6, 50), AmountOf(From(line, 62)))
  }

  /** The movement loop: exactly one movement per dated line, in order. */
  method ReadEntries(kept: seq<string>) returns (es: seq<Ledger.Entry>)
    ensures |es| == |kept| && forall k :: 0 <= k < |kept| ==> es[k] == EntryOf(kept[k])
  {
    es := [];
    for i := 0 to |kept|
      invariant |es| == i && forall k :: 0 <= k < i ==> es[k] == EntryOf(kept[k])
    {
      es := es + [EntryOf(kept[i])];
    }
  }

  // ---------------------------------------------------------------------------
  // The sheet

  /** The sheet: the found amounts split into credits and debits, and the two balances. */
  function SheetOf(b: Balances, es: seq<Ledger.Entry>): (r: Ledger.Sheet)
    ensures r.control == Some(b.opening + Ledger.KnownTotal(es) - b.closing)
  {
    Ledger.KnownSum(es);
    Ledger.ListingSheet(SheetName, b.opening, b.closing, Ledger.Known(es))
  }

  /** The whole parser: nothing when no line is dated, else the sheet. */
  method Process(lines: seq<string>) returns (sheet: Option<Ledger.Sheet>)
    ensures sheet.None? <==> forall k :: 0 <= k < |lines| ==> !Dated(lines[k])
    ensures sheet.Some? ==> sheet.value == SheetOf(BalancesOf(lines), ReadAll(lines))
  {
    var b := ScanBalances(lines);
    var kept := KeepDated(lines);
    var es := ReadEntries(kept);
    assert es == ReadAll(lines);
    if es == [] {
      assert forall k :: 0 <= k < |lines| ==> !Dated(lines[k]) by {
        forall k | 0 <= k < |lines|
          ensures !Dated(lines[k])
        {
          assert lines[k] in lines;
        }
      }
      return None;
    }
    assert kept[0] in lines;
    sheet := Some(SheetOf(b, es));
  }

  /** Every dated line's movement. */
  function ReadAll(lines: seq<string>): (r: seq<Ledger.Entry>)
    ensures |r| == |DatedLines(lines)|
    ensures forall k :: 0 <= k < |r| ==> r[k] == EntryOf(DatedLines(lines)[k])
  {
    var kept := DatedLines(lines);
    seq(|kept|, k requires 0 <= k < |kept| => EntryOf(kept[k]))
  }
}
