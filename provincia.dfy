/**
 * Banco Provincia statements.
 *
 * The working range runs from the first "SALDO ANTERIOR" line up to, not including, the first
 * "Todas las comisiones" line. A line starting with a date `dd/mm/yyyy` closes the pending
 * record and opens a new one; any other line is appended to the pending record. A record is
 * a date, a description, a `dd-dd` code and the balance after the movement; its amount is that
 * balance minus the previous one. The last pending record is read after the loop and its
 * balance is the closing balance.
 */
module Provincia {
  import opened Text
  import opened Optional
  import opened Amounts
  import opened Lines
  import Ledger

  const OpeningKey := "SALDO ANTERIOR"
  const EndKey := "Todas las comisiones"

  /** `texto[inicio:fin]` for the first opening line and the first end line, or nothing when either is missing. */
  function Range(lines: seq<string>): (r: Option<seq<string>>)
    ensures r.None? <==> FirstIn(lines, [OpeningKey], 0, |lines|).None? || FirstIn(lines, [EndKey], 0, |lines|).None?
    ensures r.Some? && r.value != [] ==> Contains(r.value[0], OpeningKey)
  {
    match (FirstIn(lines, [OpeningKey], 0, |lines|), FirstIn(lines, [EndKey], 0, |lines|))
    case (Some(i), Some(f)) =>
      assert i < f ==> Contains(lines[i], [OpeningKey][0]);
      Some(Sub(lines, i, f))
    case _ => None
  }

  // ---------------------------------------------------------------------------
  // Numbers

  /** Where `[-+]?\d+\.\d{2}` tried at `q` ends, if it matches there. */
  function NumberAt(s: string, q: nat): (r: Option<nat>)
    ensures r.Some? ==> q < r.value <= |s| && ParseDecimal(s[q..(r.value)]).Some?
  {
    if q >= |s| then None
    else
      var k := if s[q] == '-' || s[q] == '+' then q + 1 else q;
      var d := DigitEnd(s, k);
      if d > k && d + 3 <= |s| && s[d] == '.' && IsDigit(s[d + 1]) && IsDigit(s[d + 2]) then
        NumberInText(s, q, k, d);
        Some(d + 3)
      else None
  }

  /** The number pattern matched inside a text reads as a number. */
  lemma NumberInText(s: string, q: nat, k: nat, d: nat)
    requires q < |s| && (k == q + 1 <==> s[q] == '-' || s[q] == '+') && q <= k <= q + 1
    requires k < d && d + 3 <= |s| && s[d] == '.' && IsDigit(s[d + 1]) && IsDigit(s[d + 2])
    requires forall i :: k <= i < d ==> IsDigit(s[i])
    ensures ParseDecimal(s[q..d + 3]).Some?
  {
    var t := s[q..d + 3];
    assert forall i :: k - q <= i < d - q ==> t[i] == s[q + i];
    NumberParses(t, k - q, d - q);
  }

  /** A signed decimal-point literal with two decimals reads as a number. */
  lemma NumberParses(t: string, k: nat, d: nat)
    requires k <= 1 && k < d && d + 3 == |t| && t[d] == '.' && IsDigit(t[d + 1]) && IsDigit(t[d + 2])
    requires k == 1 <==> t[0] == '-' || t[0] == '+'
    requires forall i :: k <= i < d ==> IsDigit(t[i])
    ensures ParseDecimal(t) == Some(if t[0] == '-' then -(DigitsValue(t[k..d]) * 100 + DigitsValue(t[d + 1..])) else DigitsValue(t[k..d]) * 100 + DigitsValue(t[d + 1..]))
  {
    var body, ip, fp := t[k..], t[k..d], t[d + 1..];
    assert body == ip + "." + fp;
    UnsignedCentsLiteral(ip, fp);
    if k == 1 {
      assert t == [t[0]] + body;
    } else {
      assert body == t;
    }
  }

  /**
   * `re.search(r"SALDO ANTERIOR\s+([-+]?\d+\.\d{2})", s)` tried at `p`: the key, at least one
   * blank, then the number, read with `float`.
   */
  function OpeningAt(s: string, p: nat): (r: Option<int>)
    ensures r.Some? ==> OccursAt(s, OpeningKey, p)
  {
    if !OccursAt(s, OpeningKey, p) then None
    else
      var q := SpaceEnd(s, p + |OpeningKey|);
      if q == p + |OpeningKey| then None
      else match NumberAt(s, q)
        case Some(e) => ParseDecimal(s[q..e])
        case None => None
  }

  /** The first match of the opening pattern from `p` on. */
  function OpeningFrom(s: string, p: nat): (r: Option<int>)
    decreases |s| - p
    ensures r.Some? ==> exists q :: p <= q && OpeningAt(s, q) == r
    ensures r.None? ==> forall q :: p <= q ==> OpeningAt(s, q).None?
  {
    if p >= |s| then
      assert forall q :: p <= q ==> !OccursAt(s, OpeningKey, q);
      None
    else if OpeningAt(s, p).Some? then OpeningAt(s, p)
    else OpeningFrom(s, p + 1)
  }

  // ---------------------------------------------------------------------------
  // Records

  /**
   * The end of `\s+(\d{2}-\d{2})\s+([-+]?\d+\.\d{2})$` tried at `e`: blanks, the code, blanks and
   * a number reaching the end of the record; the result is where the number starts.
   */
  function TailAt(s: string, e: nat): (r: Option<nat>)
    ensures r.Some? ==> e < r.value < |s| && NumberAt(s, r.value) == Some(|s|)
  {
    if e >= |s| || !IsSpace(s[e]) then None
    else CodeAt(s, SpaceEnd(s, e))
  }

  /** `(\d{2}-\d{2})\s+([-+]?\d+\.\d{2})$` at `c`, giving where the number starts. */
  function CodeAt(s: string, c: nat): (r: Option<nat>)
    ensures r.Some? ==> c + 5 < r.value < |s| && NumberAt(s, r.value) == Some(|s|)
  {
    if !(DigitsAt(s, c, 2) && CharAt(s, c + 2, '-') && DigitsAt(s, c + 3, 2)) then None
    else
      var a := SpaceEnd(s, c + 5);
      if a > c + 5 && NumberAt(s, a) == Some(|s|) then Some(a) else None
  }

  /** Whether the tail matches at each position of the record, its end included. */
  function TailHits(s: string): (hits: seq<bool>)
    ensures |hits| == |s| + 1 && forall q :: 0 <= q <= |s| ==> hits[q] == TailAt(s, q).Some?
  {
    seq(|s| + 1, q requires 0 <= q <= |s| => TailAt(s, q).Some?)
  }

  /** The first position from `e` on where the tail matches: where the lazy description stops. */
  function FirstTail(s: string, e: nat): (r: Option<nat>)
    ensures r.Some? ==> e <= r.value && TailAt(s, r.value).Some?
    ensures r.Some? ==> forall j :: e <= j < r.value ==> TailAt(s, j).None?
    ensures r.None? ==> forall j :: e <= j ==> TailAt(s, j).None?
  {
    FirstHit(TailHits(s), e)
  }

  /** A record as read: its date, its description, its balance and where the balance is written. */
  datatype Record = Record(date: string, description: string, balance: int, at: nat)

  /**
   * The record pattern `^(\d{2}/\d{2}/\d{4})\s+(.*?)\s+(\d{2}-\d{2})\s+([-+]?\d+\.\d{2})$` on a
   * stripped record. The lazy description ends at the first place the tail matches; when none
   * does, the engine gives back one of the blanks after the date and the description is empty.
   */
  function RecordOf(s: string): (r: Option<Record>)
    ensures r.Some? ==> DateAt(s, 0, '/', 4) && r.value.date == s[..10]
    ensures r.Some? ==> 10 < r.value.at < |s| && NumberAt(s, r.value.at) == Some(|s|)
    ensures r.Some? ==> ParseDecimal(s[r.value.at..]) == Some(r.value.balance)
    ensures r.Some? ==> var q0 := SpaceEnd(s, 10);
      10 < q0 && (FirstTail(s, q0).Some? ==> r.value.description == s[q0..FirstTail(s, q0).value])
      && (FirstTail(s, q0).None? ==> r.value.description == "" && TailAt(s, q0 - 1).Some?)
  {
    if !DateAt(s, 0, '/', 4) then None
    else
      var q0 := SpaceEnd(s, 10);
      if q0 == 10 then None
      else match FirstTail(s, q0)
        case Some(e) => Some(RecordWith(s, s[q0..e], TailAt(s, e).value))
        case None =>
          if q0 >= 12 && CodeAt(s, q0).Some? then Some(RecordWith(s, "", CodeAt(s, q0).value))
          else None
  }

  /** The record with the date at the start of `s`, the given description and the balance written from `a`. */
  function RecordWith(s: string, description: string, a: nat): (r: Record)
    requires 10 < a < |s| && NumberAt(s, a) == Some(|s|)
    ensures r.date == s[..10] && r.description == description && r.at == a
    ensures ParseDecimal(s[a..]) == Some(r.balance)
  {
    assert s[a..|s|] == s[a..];
    Record(s[..10], description, ParseDecimal(s[a..]).value, a)
  }

  // ---------------------------------------------------------------------------
  // The scan

  /** The loop's state: the previous balance, the opening balance, the pending record and the movements so far. */
  datatype State = State(previous: Option<int>, opening: Option<int>, pending: string, movements: seq<Ledger.Movement>)

  const Start := State(None, None, "", [])

  /** Reading the pending record: with a known previous balance, a matching record adds its movement. */
  function Close(st: State): (r: State)
    ensures r.opening == st.opening && r.pending == st.pending
    ensures r == st || (st.previous.Some? && RecordOf(Strip(st.pending)).Some?)
  {
    CloseWith(st, RecordOf(Strip(st.pending)))
  }

  /** Adding the movement of a record read from the pending text, if any. */
  function CloseWith(st: State, rec: Option<Record>): (r: State)
    ensures r.opening == st.opening && r.pending == st.pending
    ensures r == st || (st.previous.Some? && rec.Some?)
  {
    match (rec, st.previous)
    case (Some(rec), Some(p)) =>
      st.(previous := Some(rec.balance), movements := st.movements + [Ledger.Movement(rec.date, Strip(rec.description), rec.balance - p)])
    case _ => st
  }

  /**
   * One pass of the loop. The opening line sets both balances when its number is found and starts
   * the pending record; a dated line reads the pending record, if any, and starts a new one; any
   * other line is appended to the pending record after a blank.
   */
  function Step(st: State, line: string): (r: State)
    ensures !Contains(line, OpeningKey) ==> r.opening == st.opening
  {
    if Contains(line, OpeningKey) then
      match OpeningFrom(line, 0)
      case Some(o) => st.(previous := Some(o), opening := Some(o), pending := Strip(line))
      case None => st.(pending := Strip(line))
    else if DateAt(line, 0, '/', 4) then
      (if st.pending != [] then Close(st) else st).(pending := Strip(line))
    else st.(pending := st.pending + " " + Strip(line))
  }

  function Run(st: State, lines: seq<string>): State
    decreases |lines|
  {
    if lines == [] then st else Run(Step(st, lines[0]), lines[1..])
  }

  /** The loop of the source over the lines of the range. */
  method Scan(range: seq<string>) returns (st: State)
    ensures st == Run(Start, range)
  {
    st := Start;
    var i := 0;
    while i < |range|
      invariant i <= |range|
      invariant Run(st, range[i..]) == Run(Start, range)
    {
      assert range[i..][1..] == range[i + 1..];
      st := Step(st, range[i]);
      i := i + 1;
    }
    assert range[i..] == [];
  }

  /** After the loop: the last pending record is read, and when it adds a movement its balance is the closing balance. */
  function Finish(st: State): (r: (State, Option<int>))
    ensures r.1.Some? ==> r.0.previous == r.1
  {
    FinishWith(st, RecordOf(Strip(st.pending)))
  }

  /** The end of the loop, given what the last pending record reads as. */
  function FinishWith(st: State, rec: Option<Record>): (r: (State, Option<int>))
    ensures r.1.Some? ==> r.0.previous == r.1
  {
    if Strip(st.pending) == [] then (st, None)
    else
      var st' := CloseWith(st, rec);
      if st' == st then (st, None) else (st', st'.previous)
  }

  // ---------------------------------------------------------------------------
  // Balances

  /**
   * The amounts so far are the previous balance minus the opening balance; with no opening
   * balance there is no previous balance and no movement.
   */
  predicate Balanced(st: State) {
    if st.opening.None? then st.previous.None? && st.movements == []
    else st.previous.Some? && Ledger.Sum(Ledger.Amounts(st.movements)) == st.previous.value - st.opening.value
  }

  /** Reading a record keeps the amounts equal to the balance change since the opening. */
  lemma CloseBalanced(st: State)
    requires Balanced(st)
    ensures Balanced(Close(st))
  {
    CloseWithBalanced(st, RecordOf(Strip(st.pending)));
  }

  lemma CloseWithBalanced(st: State, rec: Option<Record>)
    requires Balanced(st)
    ensures Balanced(CloseWith(st, rec))
  {
    match (rec, st.previous)
    case (Some(rec), Some(p)) =>
      Ledger.SumAmountsSnoc(st.movements, Ledger.Movement(rec.date, Strip(rec.description), rec.balance - p));
    case _ =>
  }

  /** Every line keeps the balance, provided an opening line comes before any movement. */
  lemma StepBalanced(st: State, line: string)
    requires Balanced(st) && (Contains(line, OpeningKey) ==> st.movements == [])
    ensures Balanced(Step(st, line))
  {
    if !Contains(line, OpeningKey) && DateAt(line, 0, '/', 4) && st.pending != [] {
      CloseBalanced(st);
    }
  }

  /** No line mentions "SALDO ANTERIOR". */
  predicate NoOpening(lines: seq<string>)
    decreases |lines|
  {
    lines == [] || (!Contains(lines[0], OpeningKey) && NoOpening(lines[1..]))
  }

  /** Over lines none of which reopens the statement, the balance is kept. */
  lemma {:induction false} RunBalanced(st: State, lines: seq<string>)
    requires Balanced(st)
    requires NoOpening(lines)
    ensures Balanced(Run(st, lines))
    decreases |lines|
  {
    if lines != [] {
      StepBalanced(st, lines[0]);
      RunBalanced(Step(st, lines[0]), lines[1..]);
    }
  }

  /** Over a range whose only "SALDO ANTERIOR" line is its first, the loop keeps the balance. */
  lemma ScanBalanced(range: seq<string>)
    requires range != [] && NoOpening(range[1..])
    ensures Balanced(Run(Start, range))
  {
    StepBalanced(Start, range[0]);
    RunBalanced(Step(Start, range[0]), range[1..]);
  }

  /**
   * After a balanced loop, whenever the last record gives a closing balance, the movements add
   * up to the closing balance minus the opening balance and the control value is zero.
   */
  lemma FinishBalanced(st: State)
    requires Balanced(st)
    ensures var r := Finish(st);
      r.1.Some? ==> (r.0.opening.Some? && Ledger.Sum(Ledger.Amounts(r.0.movements)) == r.1.value - r.0.opening.value
        && SheetOf(r.0, r.1).control == Some(0))
  {
    FinishWithBalanced(st, RecordOf(Strip(st.pending)));
  }

  lemma FinishWithBalanced(st: State, rec: Option<Record>)
    requires Balanced(st)
    ensures var r := FinishWith(st, rec);
      r.1.Some? ==> (r.0.opening.Some? && Ledger.Sum(Ledger.Amounts(r.0.movements)) == r.1.value - r.0.opening.value
        && SheetOf(r.0, r.1).control == Some(0))
  {
    CloseWithBalanced(st, rec);
    var r := FinishWith(st, rec);
    if r.1.Some? {
      assert r.0 == CloseWith(st, rec);
      BalancedClosing(r.0, r.1);
    }
  }

  /** A balanced state closed at its previous balance: the amounts are the balance change and the control value is zero. */
  lemma BalancedClosing(st: State, closing: Option<int>)
    requires Balanced(st) && closing.Some? && closing == st.previous
    ensures st.opening.Some? && Ledger.Sum(Ledger.Amounts(st.movements)) == closing.value - st.opening.value
    ensures SheetOf(st, closing).control == Some(0)
  {
  }

  // ---------------------------------------------------------------------------
  // The statement

  /** The "Movimientos" sheet; a balance that was never found shows as an empty cell, which counts as zero. */
  function SheetOf(st: State, closing: Option<int>): (r: Ledger.Sheet)
    ensures r.control == Some(st.opening.GetOr(0) + Ledger.Sum(Ledger.Amounts(st.movements)) - closing.GetOr(0))
  {
    Ledger.ListingSheet("Movimientos", st.opening.GetOr(0), closing.GetOr(0), st.movements)
  }

  /** The whole parser: nothing without both marker lines or without movements, else the sheet of the scan. */
  method Process(lines: seq<string>) returns (sheet: Option<Ledger.Sheet>)
    ensures Range(lines).None? ==> sheet.None?
    ensures Range(lines).Some? ==> var r := Finish(Run(Start, Range(lines).value));
      (sheet.None? <==> r.0.movements == []) && (sheet.Some? ==> sheet.value == SheetOf(r.0, r.1))
  {
    var range := Range(lines);
    if range.None? {
      return None;
    }
    var st := Scan(range.value);
    var r := Finish(st);
    if r.0.movements == [] {
      return None;
    }
    sheet := Some(SheetOf(r.0, r.1));
  }
}
