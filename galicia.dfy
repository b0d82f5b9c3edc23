/**
 * Banco Galicia statements.
 *
 * The lines are stripped and blank lines dropped. Every line mentioning "Saldos" may carry the
 * balances: two `$` amounts give the closing balance (the first) and the opening balance (the
 * second); a second layout `$a-$b-Saldos` gives them too. The movement section lies strictly
 * between the first "Movimientos" line and the first "Total" line; its lines are joined into
 * records, one per line starting with a date `dd/mm/yy`, and the first record is a header. Each
 * record's last amount is the balance after it, and its amount is that balance minus the
 * previous one.
 */
module Galicia {
  import opened Text
  import opened Optional
  import opened Amounts
  import opened Lines
  import Ledger

  const BalancesKey := "Saldos"
  const SectionKey := "Movimientos"
  const EndKey := "Total"

  /** The lines the parser works on: each stripped, the blank ones dropped. */
  function Clean(lines: seq<string>): (r: seq<string>)
    ensures |r| <= |lines|
    ensures forall k :: 0 <= k < |r| ==> r[k] != []
  {
    if lines == [] then []
    else
      var l := Strip(lines[|lines| - 1]);
      Clean(lines[..|lines| - 1]) + (if l == [] then [] else [l])
  }

  // ---------------------------------------------------------------------------
  // The balances

  /** The amount pattern `[+-]?\$\s*\d{1,3}(?:\.\d{3})*,\d{2}` tried at `p`. */
  function DollarAt(s: string, p: nat): (r: Option<nat>)
    ensures r.Some? ==> p < r.value <= |s|
  {
    if p >= |s| then None
    else if s[p] == '+' || s[p] == '-' then
      if p + 1 < |s| && s[p + 1] == '$' then GroupedAt(s, SpaceEnd(s, p + 2), '.', ',') else None
    else if s[p] == '$' then GroupedAt(s, SpaceEnd(s, p + 1), '.', ',')
    else None
  }

  /** Every `$` amount of a line, left to right. */
  function Dollars(s: string): (r: seq<string>) {
    var at := (q: nat) => DollarAt(s, q);
    assert IsMatcher(s, at);
    FindAll(s, at)
  }

  predicate IsMinus(c: char) {
    c == '-'
  }

  /**
   * A `$` amount as a number: without the `$` and stripped, negative when it then starts with a
   * minus, which is dropped with the blanks after it before the Argentine reading.
   */
  function DollarValue(t: string): (r: Option<int>) {
    DollarRead(Strip(RemoveChar(t, '$')))
  }

  /** The reading of a `$` amount once the sign has been dropped and the text stripped. */
  function DollarRead(u: string): (r: Option<int>) {
    var v := ParseArPlain(Strip(LTrim(u, IsMinus)));
    if u != [] && u[0] == '-' then Negate(v) else v
  }

  /**
   * A literal after `$` reads the Argentine way, and after `-$` as its opposite; with
   * `ArRoundTrip`, `$` before a printed amount reads back as that amount.
   */
  lemma {:induction false} DollarLiteral(t: string)
    requires IsArLiteral(t)
    ensures DollarValue("$" + t) == ParseArPlain(t)
    ensures DollarValue("-$" + t) == Negate(ParseArPlain(t))
  {
    DollarSigns(t);
    DollarReadLiteral(t);
  }

  /** A literal starts and ends with a digit, holds no `$` and no minus, and strips to itself. */
  lemma {:induction false} LiteralStrips(t: string)
    requires IsArLiteral(t)
    ensures t != [] && !IsSpace(t[0]) && !IsSpace(t[|t| - 1]) && !IsMinus(t[0])
    ensures forall i :: 0 <= i < |t| ==> t[i] != '$'
  {
    var g := t[..|t| - 3];
    GroupedEnds(g, '.');
    GroupedDigitsOnly(g, '.');
    assert t[0] == g[0];
    assert forall i :: 0 <= i < |t| ==> t[i] != '$' by {
      forall i | 0 <= i < |t|
        ensures t[i] != '$'
      {
        if i < |g| {
          assert t[i] == g[i];
        } else if i > |g| {
          assert t[i] == t[|t| - 2..][i - |t| + 2];
        }
      }
    }
  }

  /** Dropping the `$` and stripping leaves the literal, with its minus when it had one. */
  lemma {:induction false} DollarSigns(t: string)
    requires IsArLiteral(t)
    ensures Strip(RemoveChar("$" + t, '$')) == t
    ensures Strip(RemoveChar("-$" + t, '$')) == "-" + t
  {
    LiteralStrips(t);
    DollarSign("$", t);
    DollarSign("-$", t);
  }

  lemma {:induction false} DollarSign(p: string, t: string)
    requires p == "$" || p == "-$"
    requires t != [] && !IsSpace(t[0]) && !IsSpace(t[|t| - 1]) && forall i :: 0 <= i < |t| ==> t[i] != '$'
    ensures Strip(RemoveChar(p + t, '$')) == if p == "$" then t else "-" + t
  {
    var x := if p == "$" then "" else "-";
    RemoveCharAppend(p, t, '$');
    RemoveCharNoop(t, '$');
    assert RemoveChar(p, '$') == x by {
      assert p[|p| - 1] == '$';
      if p == "-$" {
        assert p[1..] == "$";
      }
    }
    var u := x + t;
    assert u[0] == (if x == "" then t[0] else '-') && u[|u| - 1] == t[|t| - 1];
    StripNoop(u);
  }

  /** The reading of a literal, and of a literal after a minus. */
  lemma {:induction false} DollarReadLiteral(t: string)
    requires IsArLiteral(t)
    ensures DollarRead(t) == ParseArPlain(t)
    ensures DollarRead("-" + t) == Negate(ParseArPlain(t))
  {
    LiteralStrips(t);
    StripNoop(t);
    DropFromIs(t, IsMinus, 0, 0);
    assert t[0..] == t;
    var u := "-" + t;
    DropFromIs(u, IsMinus, 0, 1);
    assert u[1..] == t;
  }

  /** `\$\d{1,3}(?:\.\d{3})*(,\d{2})?-` tried at `p`: a `$` amount with optional decimals, then a dash. */
  function DashedAt(s: string, p: nat): (r: Option<nat>)
    ensures r.Some? ==> p < r.value <= |s|
  {
    if p >= |s| || s[p] != '$' then None
    else
      var k := DigitEnd(s, p + 1);
      if k == p + 1 || k > p + 4 then None
      else
        var g := GroupsEnd(s, k, '.');
        var c := if g + 3 <= |s| && s[g] == ',' && IsDigit(s[g + 1]) && IsDigit(s[g + 2]) then g + 3 else g;
        if c < |s| && s[c] == '-' then Some(c + 1) else None
  }

  /** The second balance layout `$a-$b-Saldos` starts at `p`. */
  predicate PairAt(s: string, p: nat) {
    match DashedAt(s, p)
    case None => false
    case Some(x) =>
      match DashedAt(s, x)
      case None => false
      case Some(y) => OccursAt(s, BalancesKey, y)
  }

  /** `re.search` of the second layout. */
  predicate HasPair(s: string) {
    exists p | 0 <= p < |s| :: PairAt(s, p)
  }

  /**
   * The balances of the second layout, from the pieces between the `$` signs: the opening from
   * the third piece (negated, and cut at its first dash, when it has one), the closing from the
   * second without its dashes (negated when it has one). Nothing when a number does not read.
   */
  function PairValues(s: string): (r: Option<(int, int)>) {
    var parts := SplitChar(s, '$');
    if |parts| < 3 then None
    else
      var opening := if '-' in parts[2] then Negate(ParseArPlain(SplitChar(parts[2], '-')[0])) else ParseArPlain(parts[2]);
      var plain := ParseArPlain(RemoveChar(parts[1], '-'));
      var closing := if '-' in parts[1] then Negate(plain) else plain;
      if opening.Some? && closing.Some? then Some((opening.value, closing.value)) else None
  }

  /** The balances the sheet shows and uses: the account balance, the running start and the final balance. */
  datatype Balances = Balances(account: int, initial: int, final: int)

  const NoBalances := Balances(0, 0, 0)

  /**
   * What one line does to the balances: a "Saldos" line with two `$` amounts sets all three, the
   * second layout sets the running start and the final balance. A number that does not read
   * ends the whole parse.
   */
  function BalanceStep(b: Balances, line: string): (r: Option<Balances>)
    ensures !Contains(line, BalancesKey) && !HasPair(line) ==> r == Some(b)
  {
    var vs := Dollars(line);
    var first :=
      if Contains(line, BalancesKey) && |vs| >= 2 then
        match (DollarValue(vs[0]), DollarValue(vs[1]))
        case (Some(c), Some(o)) => Some(Balances(o, o, c))
        case _ => None
      else Some(b);
    match first
    case None => None
    case Some(b1) =>
      if HasPair(line) then
        match PairValues(line)
        case Some((o, c)) => Some(b1.(initial := o, final := c))
        case None => None
      else Some(b1)
  }

  /** The balance loop over every line; the last line that sets a balance wins. */
  function BalancesFrom(b: Option<Balances>, lines: seq<string>): Option<Balances>
    decreases |lines|
  {
    if lines == [] || b.None? then b else BalancesFrom(BalanceStep(b.value, lines[0]), lines[1..])
  }

  method ReadBalances(lines: seq<string>) returns (b: Option<Balances>)
    ensures b == BalancesFrom(Some(NoBalances), lines)
  {
    b := Some(NoBalances);
    var i := 0;
    while i < |lines| && b.Some?
      invariant i <= |lines|
      invariant BalancesFrom(b, lines[i..]) == BalancesFrom(Some(NoBalances), lines)
    {
      assert lines[i..][1..] == lines[i + 1..];
      b := BalanceStep(b.value, lines[i]);
      i := i + 1;
    }
  }

  /** Lines that set no balance leave the defaults: zero opening, zero closing. */
  lemma {:induction false} NoBalanceLines(b: Balances, lines: seq<string>)
    requires forall k :: 0 <= k < |lines| ==> !Contains(lines[k], BalancesKey) && !HasPair(lines[k])
    ensures BalancesFrom(Some(b), lines) == Some(b)
    decreases |lines|
  {
    if lines != [] {
      NoBalanceLines(b, lines[1..]);
    }
  }

  // ---------------------------------------------------------------------------
  // Records

  /** `texto[inicio + 1:fin]` for the first "Movimientos" line and the first "Total" line, or nothing when either is missing. */
  function Range(lines: seq<string>): (r: Option<seq<string>>)
    ensures r.None? <==> FirstIn(lines, [SectionKey], 0, |lines|).None? || FirstIn(lines, [EndKey], 0, |lines|).None?
  {
    match (FirstIn(lines, [SectionKey], 0, |lines|), FirstIn(lines, [EndKey], 0, |lines|))
    case (Some(i), Some(f)) => Some(Sub(lines, i + 1, f))
    case _ => None
  }

  /** A line that opens a record: `re.match(r"\d{2}/\d{2}/\d{2}", line)`. */
  predicate Dated(line: string) {
    DateAt(line, 0, '/', 2)
  }

  /** The joining loop's state: the records so far and the one being built. */
  datatype Joining = Joining(records: seq<string>, current: string)

  /** A dated line pushes the current record, if any, and starts a new one; any other line is appended after a blank. */
  function JoinStep(j: Joining, line: string): Joining {
    if Dated(line) then
      Joining(if j.current != [] then j.records + [Strip(j.current)] else j.records, line)
    else j.(current := j.current + " " + line)
  }

  function JoinFrom(j: Joining, lines: seq<string>): Joining
    decreases |lines|
  {
    if lines == [] then j else JoinFrom(JoinStep(j, lines[0]), lines[1..])
  }

  /** The records after the loop: the last one is pushed when it is not empty. */
  function Records(lines: seq<string>): seq<string> {
    var j := JoinFrom(Joining([], ""), lines);
    if j.current != [] then j.records + [Strip(j.current)] else j.records
  }

  method JoinRecords(lines: seq<string>) returns (records: seq<string>)
    ensures records == Records(lines)
  {
    var j := Joining([], "");
    var i := 0;
    while i < |lines|
      invariant i <= |lines|
      invariant JoinFrom(j, lines[i..]) == JoinFrom(Joining([], ""), lines)
    {
      assert lines[i..][1..] == lines[i + 1..];
      j := JoinStep(j, lines[i]);
      i := i + 1;
    }
    assert lines[i..] == [];
    records := if j.current != [] then j.records + [Strip(j.current)] else j.records;
  }

  /** Once a record has been pushed, the one being built starts with a date, and so does every record after the first. */
  predicate JoinedDated(j: Joining) {
    (j.records != [] ==> Dated(j.current))
    && forall k :: 1 <= k < |j.records| ==> Dated(j.records[k])
  }

  /** A text starting with a date still does after stripping or appending. */
  lemma {:induction false} DatedKept(x: string, y: string)
    requires Dated(x)
    ensures Dated(Strip(x)) && Dated(x + y)
  {
    StripKeepsPrefix(x, 8);
    assert (x + y)[..8] == x[..8];
  }

  lemma {:induction false} JoinStepDated(j: Joining, line: string)
    requires JoinedDated(j)
    ensures JoinedDated(JoinStep(j, line))
  {
    if !Dated(line) && j.records != [] {
      DatedKept(j.current, " " + line);
      assert j.current + " " + line == j.current + (" " + line);
    } else if Dated(line) && j.current != [] && j.records != [] {
      DatedKept(j.current, "");
    }
  }

  lemma {:induction false} JoinFromDated(j: Joining, lines: seq<string>)
    requires JoinedDated(j)
    ensures JoinedDated(JoinFrom(j, lines))
    decreases |lines|
  {
    if lines != [] {
      JoinStepDated(j, lines[0]);
      JoinFromDated(JoinStep(j, lines[0]), lines[1..]);
    }
  }

  /** Every record but the first starts with its date, so every movement has one. */
  lemma {:induction false} RecordsDated(lines: seq<string>)
    ensures forall k :: 1 <= k < |Records(lines)| ==> Dated(Records(lines)[k])
  {
    JoinFromDated(Joining([], ""), lines);
    var j := JoinFrom(Joining([], ""), lines);
    if j.current != [] && j.records != [] {
      DatedKept(j.current, "");
    }
  }

  // ---------------------------------------------------------------------------
  // Movements

  /** The balance pattern `-?\d{1,3}(?:\.\d{3})*,\d{2}-?` tried at `p`. */
  function SaldoAt(s: string, p: nat): (r: Option<nat>)
    ensures r.Some? ==> p < r.value <= |s|
  {
    if p >= |s| then None
    else
      var q := if s[p] == '-' then p + 1 else p;
      match GroupedAt(s, q, '.', ',')
      case None => None
      case Some(e) => Some(if e < |s| && s[e] == '-' then e + 1 else e)
  }

  /** Every balance the pattern matches reads as a number, so reading the last one never fails. */
  lemma {:induction false} SaldoMatchReads(s: string, p: nat)
    requires SaldoAt(s, p).Some?
    ensures SignedAr(s[p..SaldoAt(s, p).value]).Some?
  {
    var q := if s[p] == '-' then p + 1 else p;
    var e := GroupedAt(s, q, '.', ',').value;
    SaldoReads(s, p, q, e, SaldoAt(s, p).value);
  }

  /** A literal with a minus before or after it, or both, reads as a number. */
  lemma {:induction false} SaldoReads(s: string, p: nat, q: nat, e: nat, e1: nat)
    requires p <= q <= p + 1 && q < e <= e1 <= e + 1 && e1 <= |s| && IsArLiteral(s[q..e])
    requires (q == p + 1 ==> s[p] == '-') && (e1 == e + 1 ==> s[e] == '-')
    ensures SignedAr(s[p..e1]).Some?
  {
    MinusesDropped(s, p, q, e, e1);
    ArLiteralValue(s[q..e]);
    assert ParseArPlain(s[q..e]).Some?;
    SignedArReading(s[p..e1]);
  }

  /** Dropping the minuses around such a literal leaves the literal. */
  lemma {:induction false} MinusesDropped(s: string, p: nat, q: nat, e: nat, e1: nat)
    requires p <= q <= p + 1 && q < e <= e1 <= e + 1 && e1 <= |s| && IsArLiteral(s[q..e])
    requires (q == p + 1 ==> s[p] == '-') && (e1 == e + 1 ==> s[e] == '-')
    ensures RemoveChar(s[p..e1], '-') == s[q..e]
  {
    var x, lit, y := s[p..q], s[q..e], s[e..e1];
    assert s[p..e1] == x + lit + y;
    NoMinusInArLiteral(lit);
    RemoveCharNoop(lit, '-');
    OnlyMinus(x);
    OnlyMinus(y);
    DropAround(x, lit, y);
  }

  /** At most one character, a minus: nothing is left once minuses are dropped. */
  lemma OnlyMinus(x: string)
    requires |x| <= 1 && (|x| == 1 ==> x[0] == '-')
    ensures RemoveChar(x, '-') == []
  {
    if |x| == 1 {
      assert x[1..] == [];
    }
  }

  /** Dropping a character from three pieces drops it from each. */
  lemma DropAround(x: string, lit: string, y: string)
    requires RemoveChar(x, '-') == [] && RemoveChar(y, '-') == [] && RemoveChar(lit, '-') == lit
    ensures RemoveChar(x + lit + y, '-') == lit
  {
    RemoveCharAppend(x + lit, y, '-');
    RemoveCharAppend(x, lit, '-');
  }

  /** Every balance-like amount of a record, left to right; each reads as a number. */
  function Saldos(s: string): (r: seq<string>)
    ensures forall k :: 0 <= k < |r| ==> SignedAr(r[k]).Some?
  {
    var at := (q: nat) => SaldoAt(s, q);
    assert IsMatcher(s, at);
    var sp := Spans(s, at, 0);
    assert forall k :: 0 <= k < |sp| ==> SignedAr(s[sp[k].0..sp[k].1]).Some? by {
      forall k | 0 <= k < |sp|
        ensures SignedAr(s[sp[k].0..sp[k].1]).Some?
      {
        assert at(sp[k].0) == Some(sp[k].1);
        SaldoMatchReads(s, sp[k].0);
      }
    }
    Texts(s, sp)
  }

  /** Where the first `\d+\.\d+` starts at or after `p`, or the end of the text. */
  function PointNumberFrom(s: string, p: nat): (r: nat)
    requires p <= |s|
    decreases |s| - p
    ensures p <= r <= |s|
  {
    if p == |s| then p
    else
      var d := DigitEnd(s, p);
      if d > p && d + 1 < |s| && s[d] == '.' && IsDigit(s[d + 1]) then p else PointNumberFrom(s, p + 1)
  }

  /** `-?\d+[\.,]\d+` tried at `p`. */
  function NumberAt(s: string, p: nat): (r: Option<nat>)
    ensures r.Some? ==> p < r.value <= |s|
  {
    if p >= |s| then None
    else
      var k := if s[p] == '-' then p + 1 else p;
      var d := DigitEnd(s, k);
      if d > k && d + 1 < |s| && (s[d] == '.' || s[d] == ',') && IsDigit(s[d + 1]) then Some(DigitEnd(s, d + 1)) else None
  }

  /**
   * The description of a record: the text after the date up to the first decimal-point number,
   * with every remaining number removed, and then every dash.
   */
  function DescriptionOf(rest: string): string {
    var head := rest[..PointNumberFrom(rest, 0)];
    var at := (q: nat) => NumberAt(head, q);
    assert IsMatcher(head, at);
    RemoveChar(RemoveMatches(head, at, 0), '-')
  }

  /** A record's date (empty when it has none) and the text after it, stripped. */
  function DateAndRest(record: string): (string, string) {
    if Dated(record) then (record[..8], Strip(record[8..])) else ("", record)
  }

  /** Removing the dashes from any text leaves none. */
  lemma NoDashes()
    ensures forall s: string, i :: 0 <= i < |RemoveChar(s, '-')| ==> RemoveChar(s, '-')[i] != '-'
  {
    forall s: string
      ensures forall i :: 0 <= i < |RemoveChar(s, '-')| ==> RemoveChar(s, '-')[i] != '-'
    {
      RemoveCharGone(s, '-');
    }
  }

  /** What a record yields: its date, its description and the balance after it, when it holds any amount. */
  function EntryOf(record: string): (r: Option<Ledger.BalanceRow>)
    ensures r.None? <==> Saldos(record) == []
    ensures r.Some? ==> r.value.balance == SignedAr(Saldos(record)[|Saldos(record)| - 1]).value
    ensures r.Some? ==> r.value.description == DescriptionOf(DateAndRest(record).1)
    ensures r.Some? && Dated(record) ==> r.value.date == record[..8]
    ensures r.Some? && !Dated(record) ==> r.value.date == ""
    ensures r.Some? ==> forall i :: 0 <= i < |r.value.description| ==> r.value.description[i] != '-'
  {
    NoDashes();
    var ms := Saldos(record);
    if ms == [] then None
    else
      var dr := DateAndRest(record);
      Some(Ledger.BalanceRow(dr.0, DescriptionOf(dr.1), SignedAr(ms[|ms| - 1]).value))
  }

  /** The rows of the records that hold an amount, in order. */
  function Entries(records: seq<string>): (r: seq<Ledger.BalanceRow>)
    ensures |r| <= |records|
  {
    if records == [] then []
    else
      var init := Entries(records[..|records| - 1]);
      match EntryOf(records[|records| - 1])
      case None => init
      case Some(e) => init + [e]
  }

  /** The first half of the movement loop: the row of every record that holds an amount. */
  method ReadEntries(records: seq<string>) returns (es: seq<Ledger.BalanceRow>)
    ensures es == Entries(records)
  {
    es := [];
    var i := 0;
    while i < |records|
      invariant i <= |records| && es == Entries(records[..i])
    {
      var e := EntryOf(records[i]);
      EntriesSnoc(records, i);
      if e.Some? {
        es := es + [e.value];
      }
      i := i + 1;
    }
    assert records[..i] == records;
  }

  /** One more record adds its row, if it has one. */
  lemma {:induction false} EntriesSnoc(records: seq<string>, i: nat)
    requires i < |records|
    ensures Entries(records[..i + 1]) == Entries(records[..i]) + (if EntryOf(records[i]).Some? then [EntryOf(records[i]).value] else [])
  {
    assert records[..i + 1][..i] == records[..i];
  }

  // ---------------------------------------------------------------------------
  // The statement

  /** The records after the header record. */
  function Body(records: seq<string>): seq<string> {
    if records == [] then [] else records[1..]
  }

  /** The "Movimientos" sheet: the account balance as the opening, the final balance as the closing. */
  function SheetOf(b: Balances, ms: seq<Ledger.Movement>): (r: Ledger.Sheet)
    ensures r.control == Some(b.account + Ledger.Sum(Ledger.Amounts(ms)) - b.final)
  {
    Ledger.ListingSheet("Movimientos", b.account, b.final, ms)
  }

  /**
   * When the account balance is the running start, as the first layout sets them, the control
   * value is the last record's balance minus the final balance.
   */
  lemma {:induction false} SheetControl(b: Balances, es: seq<Ledger.BalanceRow>)
    requires b.account == b.initial && es != []
    ensures SheetOf(b, Ledger.FromBalances(b.initial, es)).control == Some(es[|es| - 1].balance - b.final)
  {
    Ledger.FromBalancesControl("Movimientos", b.initial, b.final, es);
  }

  /** The whole parser: nothing when a balance does not read, without the section lines or without movements. */
  method Process(lines: seq<string>) returns (sheet: Option<Ledger.Sheet>)
    ensures var text := Clean(lines);
      sheet.Some? <==> (BalancesFrom(Some(NoBalances), text).Some? && Range(text).Some?
        && Ledger.FromBalances(BalancesFrom(Some(NoBalances), text).value.initial, Entries(Body(Records(Range(text).value)))) != [])
    ensures var text := Clean(lines);
      sheet.Some? ==> sheet.value == SheetOf(BalancesFrom(Some(NoBalances), text).value,
        Ledger.FromBalances(BalancesFrom(Some(NoBalances), text).value.initial, Entries(Body(Records(Range(text).value)))))
  {
    var text := Clean(lines);
    var b := ReadBalances(text);
    if b.None? {
      return None;
    }
    var range := Range(text);
    if range.None? {
      return None;
    }
    var records := JoinRecords(range.value);
    var es := ReadEntries(Body(records));
    var ms := Ledger.BalanceDifferences(b.value.initial, es);
    if ms == [] {
      return None;
    }
    sheet := Some(SheetOf(b.value, ms));
  }
}
