/**
 * Banco Nación statements.
 *
 * The working range runs from the line before the first "SALDO ANTERIOR" to the line after
 * the first "SALDO FINAL". Each line is split into tokens: the opening line sets the previous
 * balance from its last token, the closing line sets the closing balance from its first
 * Argentine literal, and any other line with at least three tokens is a movement whose last
 * two tokens are the amount and the balance. The amount takes the sign of the balance change.
 */
module Nacion {
  import opened Text
  import opened Optional
  import opened Amounts
  import opened Lines
  import Ledger

  const OpeningKey := "SALDO ANTERIOR"
  const ClosingKey := "SALDO FINAL"
  const HeaderKey := "FECHA MOVIMIENTOS"

  // ---------------------------------------------------------------------------
  // The working range

  /**
   * `texto[inicio - 1 : fin + 1]` for the first opening line `inicio` and the first closing
   * line `fin`, or nothing when either is missing. Python reads the start `-1` as the last line.
   */
  function Range(lines: seq<string>): (r: Option<seq<string>>)
    ensures r.None? <==> FirstIn(lines, [OpeningKey], 0, |lines|).None? || FirstIn(lines, [ClosingKey], 0, |lines|).None?
  {
    match (FirstIn(lines, [OpeningKey], 0, |lines|), FirstIn(lines, [ClosingKey], 0, |lines|))
    case (Some(i), Some(f)) => Some(Sub(lines, if i == 0 then |lines| - 1 else i - 1, f + 1))
    case _ => None
  }

  /** When the opening line is not the first line and the closing line does not precede it, the range runs from the line before the opening line through the closing line. */
  lemma {:induction false} RangeAround(lines: seq<string>, i: nat, f: nat)
    requires FirstIn(lines, [OpeningKey], 0, |lines|) == Some(i)
    requires FirstIn(lines, [ClosingKey], 0, |lines|) == Some(f)
    requires 1 <= i <= f + 1
    ensures Range(lines) == Some(lines[i - 1..f + 1])
  {
  }

  /**
   * When "SALDO ANTERIOR" is on the very first line, the start index `-1` wraps around to the
   * last line, so the range is at most that last line.
   */
  lemma RangeFromFirstLine(lines: seq<string>)
    requires lines != [] && Contains(lines[0], OpeningKey)
    requires FirstIn(lines, [ClosingKey], 0, |lines|).Some?
    ensures Range(lines).Some? && |Range(lines).value| <= 1
    ensures FirstIn(lines, [ClosingKey], 0, |lines|).value < |lines| - 1 ==> Range(lines) == Some([])
  {
    assert Contains(lines[0], [OpeningKey][0]);
    FirstInAt(lines, [OpeningKey], 0, |lines|, 0);
  }

  // ---------------------------------------------------------------------------
  // Polarity

  /**
   * The amount as recorded: with a known previous balance, its magnitude with the sign of the
   * balance change, or as read when the balance did not move; as read when no balance is known.
   */
  function Polarized(previous: Option<int>, balance: int, amount: int): (r: int)
    ensures Abs(r) == Abs(amount)
    ensures previous.None? || balance == previous.value ==> r == amount
    ensures previous.Some? && balance != previous.value && amount != 0 ==> (r < 0 <==> balance < previous.value)
  {
    match previous
    case None => amount
    case Some(p) => if balance < p then -Abs(amount) else if balance > p then Abs(amount) else amount
  }

  /** When the amount's magnitude is the balance change, the recorded amount is exactly that change. */
  lemma PolarityMatchesBalance(p: int, balance: int, amount: int)
    requires Abs(amount) == Abs(balance - p)
    ensures p + Polarized(Some(p), balance, amount) == balance
  {
    if balance == p {
      assert amount == 0;
    }
  }

  // ---------------------------------------------------------------------------
  // Movement lines

  /** A movement line: its date, description, amount and balance as read. */
  datatype Entry = Entry(date: string, description: string, amount: int, balance: int)

  /**
   * A line read as a movement: at least three tokens, the first the date, the ones from the
   * second up to the fourth-to-last the description, and the last two the amount and the
   * balance, both of which must read as numbers.
   */
  function EntryOf(line: string): (r: Option<Entry>) {
    EntryOfParts(Split(line))
  }

  /** The movement the tokens of a line denote. */
  function EntryOfParts(parts: seq<string>): (r: Option<Entry>) {
    if |parts| < 3 then None
    else
      var n := |parts|;
      match (SignedAr(parts[n - 2]), SignedAr(parts[n - 1]))
      case (Some(a), Some(b)) => Some(Entry(parts[0], Join(if n >= 4 then parts[1..n - 3] else [], " "), a, b))
      case _ => None
  }

  /**
   * A line printed as the date, the description words, a reference, the amount and the balance,
   * separated by blanks, reads back as that movement.
   */
  lemma {:induction false} LineRoundTrip(date: string, words: seq<string>, reference: string, amount: string, balance: string, a: int, b: int)
    requires IsWord(date) && IsWord(reference) && IsWord(amount) && IsWord(balance)
    requires forall k :: 0 <= k < |words| ==> IsWord(words[k])
    requires SignedAr(amount) == Some(a) && SignedAr(balance) == Some(b)
    ensures EntryOf(Join([date] + words + [reference, amount, balance], " ")) == Some(Entry(date, Join(words, " "), a, b))
  {
    var ws := [date] + words + [reference, amount, balance];
    assert forall k :: 0 <= k < |ws| ==> IsWord(ws[k]);
    SplitJoin(ws);
    PartsRoundTrip(date, words, reference, amount, balance, a, b);
  }

  lemma PartsRoundTrip(date: string, words: seq<string>, reference: string, amount: string, balance: string, a: int, b: int)
    requires SignedAr(amount) == Some(a) && SignedAr(balance) == Some(b)
    ensures EntryOfParts([date] + words + [reference, amount, balance]) == Some(Entry(date, Join(words, " "), a, b))
  {
    var ws := [date] + words + [reference, amount, balance];
    var n := |ws|;
    assert ws[n - 2] == amount && ws[n - 1] == balance && ws[0] == date;
    assert ws[1..n - 3] == words;
  }

  /** What a line contributes: nothing on the opening line or the column header line, else its movement if it reads as one. */
  function Recorded(line: string): (r: Option<Entry>)
    ensures r.Some? ==> !Contains(line, OpeningKey) && !Contains(line, HeaderKey) && r == EntryOf(line)
  {
    if Contains(line, OpeningKey) || Contains(line, HeaderKey) then None else EntryOf(line)
  }

  // ---------------------------------------------------------------------------
  // The scan

  /** The loop's state: the previous balance, the opening and closing balances, and the movements so far. */
  datatype State = State(previous: Option<int>, opening: Option<int>, closing: Option<int>, movements: seq<Ledger.Movement>)

  const Start := State(None, None, None, [])

  /** The last token of the opening line, read the Argentine way. */
  function OpeningValue(line: string): Option<int> {
    var parts := Split(line);
    if parts == [] then None else ParseArPlain(parts[|parts| - 1])
  }

  /** The closing line's first Argentine literal, read as a number. */
  function ClosingValue(line: string): Option<int> {
    match FirstAr(line)
    case Some(t) => ParseArPlain(t)
    case None => None
  }

  /**
   * One pass of the loop. The opening line sets the previous and opening balances when its last
   * token reads as a number, and is not a movement. The closing line sets the closing balance and
   * goes on to be read as a movement like any other line.
   */
  function Step(st: State, line: string): (r: State)
    ensures Contains(line, OpeningKey) ==> r.movements == st.movements && r.closing == st.closing
    ensures !Contains(line, OpeningKey) ==> r.opening == st.opening
    ensures Recorded(line).None? ==> r.movements == st.movements
    ensures Recorded(line).Some? ==> |r.movements| == |st.movements| + 1 && r.previous == Some(Recorded(line).value.balance)
  {
    if Contains(line, OpeningKey) then
      match OpeningValue(line)
      case Some(v) => st.(previous := Some(v), opening := Some(v))
      case None => st
    else
      var st1 := if Contains(line, ClosingKey) && ClosingValue(line).Some? then st.(closing := ClosingValue(line)) else st;
      match Recorded(line)
      case None => st1
      case Some(e) =>
        var m := Ledger.Movement(e.date, e.description, Polarized(st1.previous, e.balance, e.amount));
        st1.(previous := Some(e.balance), movements := st1.movements + [m])
  }

  /** The loop over the range, from a given state. */
  function Run(st: State, lines: seq<string>): State
    decreases |lines|
  {
    if lines == [] then st else Run(Step(st, lines[0]), lines[1..])
  }

  /** The loop of the source over the lines of the range. */
  method Scan(range: seq<string>) returns (st: State)
    ensures st == Run(Start, range)
  {
    st := Start;
    var i := 0;
    while i < |range|
      invariant i <= |range|
      invariant Run(st, range[i..]) == Run(Start, range)
    {
      assert range[i..][1..] == range[i + 1..];
      st := Step(st, range[i]);
      i := i + 1;
    }
    assert range[i..] == [];
  }

  /** Running over two stretches of lines is running over the first, then over the second. */
  lemma {:induction false} RunAppend(st: State, a: seq<string>, b: seq<string>)
    ensures Run(st, a + b) == Run(Run(st, a), b)
    decreases |a|
  {
    if a == [] {
      assert a + b == b;
    } else {
      assert (a + b)[0] == a[0] && (a + b)[1..] == a[1..] + b;
      RunAppend(Step(st, a[0]), a[1..], b);
    }
  }

  /** Lines that are neither opening lines nor movements change no balance but the closing one and record nothing. */
  lemma {:induction false} RunQuiet(st: State, lines: seq<string>)
    requires forall j :: 0 <= j < |lines| ==> !Contains(lines[j], OpeningKey) && Recorded(lines[j]).None?
    ensures Run(st, lines).movements == st.movements
    ensures Run(st, lines).previous == st.previous && Run(st, lines).opening == st.opening
    decreases |lines|
  {
    if lines != [] {
      RunQuiet(Step(st, lines[0]), lines[1..]);
    }
  }

  /**
   * The printed balances agree with the printed amounts from balance `p` on: no line reopens
   * the statement, and each movement's amount has the magnitude of its balance change.
   */
  predicate Consistent(p: int, lines: seq<string>)
    decreases |lines|
  {
    lines == []
    || (!Contains(lines[0], OpeningKey)
        && match Recorded(lines[0])
           case None => Consistent(p, lines[1..])
           case Some(e) => Abs(e.amount) == Abs(e.balance - p) && Consistent(e.balance, lines[1..]))
  }

  /**
   * Over lines whose balances agree with their amounts, the recorded amounts telescope: they
   * add up to the last balance minus the balance before the first line.
   */
  lemma {:induction false} RunTelescopes(st: State, lines: seq<string>)
    requires st.previous.Some? && Consistent(st.previous.value, lines)
    ensures Run(st, lines).previous.Some? && Run(st, lines).opening == st.opening
    ensures Ledger.Sum(Ledger.Amounts(Run(st, lines).movements))
      == Ledger.Sum(Ledger.Amounts(st.movements)) + Run(st, lines).previous.value - st.previous.value
    decreases |lines|
  {
    if lines != [] {
      var l := lines[0];
      var next := Step(st, l);
      match Recorded(l)
      case None =>
        RunTelescopes(next, lines[1..]);
      case Some(e) =>
        var p := st.previous.value;
        PolarityMatchesBalance(p, e.balance, e.amount);
        var m := next.movements[|next.movements| - 1];
        assert next.movements == st.movements + [m];
        Ledger.SumAmountsSnoc(st.movements, m);
        RunTelescopes(next, lines[1..]);
    }
  }

  /**
   * A range whose opening line `k` reads as balance `o`, with nothing recorded before it and
   * balances that agree with the amounts after it: the movements add up to the last balance
   * minus the opening balance, and the control value is the last balance minus the closing one.
   */
  lemma {:induction false} ScanBalances(range: seq<string>, k: nat, o: int)
    requires k < |range| && Contains(range[k], OpeningKey) && OpeningValue(range[k]) == Some(o)
    requires forall j :: 0 <= j < k ==> !Contains(range[j], OpeningKey) && Recorded(range[j]).None?
    requires Consistent(o, range[k + 1..])
    ensures var st := Run(Start, range);
      st.opening == Some(o) && st.previous.Some?
      && Ledger.Sum(Ledger.Amounts(st.movements)) == st.previous.value - o
      && SheetOf(st).control == Some(st.previous.value - st.closing.GetOr(0))
  {
    var st1 := ReachOpening(range, k, o);
    FinishFromOpening(Run(Start, range), st1, range[k + 1..], o);
  }

  /** From the state after the opening line, the rest of the range gives the balances of `ScanBalances`. */
  lemma FinishFromOpening(st: State, st1: State, rest: seq<string>, o: int)
    requires st == Run(st1, rest) && Consistent(o, rest)
    requires st1.previous == Some(o) && st1.opening == Some(o) && st1.movements == []
    ensures st.opening == Some(o) && st.previous.Some?
      && Ledger.Sum(Ledger.Amounts(st.movements)) == st.previous.value - o
      && SheetOf(st).control == Some(st.previous.value - st.closing.GetOr(0))
  {
    RunTelescopes(st1, rest);
    ControlOfRun(st, o);
  }

  /** With the opening balance `o` and movements adding up to the last balance minus `o`, the control value is the last balance minus the closing one. */
  lemma ControlOfRun(st: State, o: int)
    requires st.opening == Some(o) && st.previous.Some?
    requires Ledger.Sum(Ledger.Amounts(st.movements)) == st.previous.value - o
    ensures SheetOf(st).control == Some(st.previous.value - st.closing.GetOr(0))
  {
  }

  /** Up to and including the opening line `k`, nothing is recorded and both balances become `o`. */
  lemma {:induction false} ReachOpening(range: seq<string>, k: nat, o: int) returns (st1: State)
    requires k < |range| && Contains(range[k], OpeningKey) && OpeningValue(range[k]) == Some(o)
    requires forall j :: 0 <= j < k ==> !Contains(range[j], OpeningKey) && Recorded(range[j]).None?
    ensures Run(Start, range) == Run(st1, range[k + 1..])
    ensures st1.previous == Some(o) && st1.opening == Some(o) && st1.movements == []
  {
    var pre := range[..k];
    assert range == pre + range[k..];
    RunAppend(Start, pre, range[k..]);
    RunQuiet(Start, pre);
    var mid := Run(Start, pre);
    st1 := OpeningStep(mid, range[k], o);
    RunFrom(mid, range, k);
  }

  /** The opening line sets the previous and opening balances and nothing else. */
  lemma OpeningStep(st: State, line: string, o: int) returns (r: State)
    requires Contains(line, OpeningKey) && OpeningValue(line) == Some(o)
    ensures r == Step(st, line) && r == st.(previous := Some(o), opening := Some(o))
  {
    r := Step(st, line);
  }

  /** Running from line `k` is running the rest after stepping over line `k`. */
  lemma RunFrom(st: State, lines: seq<string>, k: nat)
    requires k < |lines|
    ensures Run(st, lines[k..]) == Run(Step(st, lines[k]), lines[k + 1..])
  {
    assert lines[k..][1..] == lines[k + 1..];
  }

  // ---------------------------------------------------------------------------
  // The statement

  /** The "Movimientos" sheet; a balance that was never found shows as an empty cell, which counts as zero. */
  function SheetOf(st: State): (r: Ledger.Sheet)
    ensures r.control == Some(st.opening.GetOr(0) + Ledger.Sum(Ledger.Amounts(st.movements)) - st.closing.GetOr(0))
  {
    Ledger.ListingSheet("Movimientos", st.opening.GetOr(0), st.closing.GetOr(0), st.movements)
  }

  /** The whole parser: nothing without both marker lines or without movements, else the sheet of the scan. */
  method Process(lines: seq<string>) returns (sheet: Option<Ledger.Sheet>)
    ensures Range(lines).None? ==> sheet.None?
    ensures Range(lines).Some? ==> (sheet.None? <==> Run(Start, Range(lines).value).movements == [])
    ensures sheet.Some? ==> Range(lines).Some? && sheet.value == SheetOf(Run(Start, Range(lines).value))
  {
    var range := Range(lines);
    if range.None? {
      return None;
    }
    var st := Scan(range.value);
    if st.movements == [] {
      return None;
    }
    sheet := Some(SheetOf(st));
  }
}
