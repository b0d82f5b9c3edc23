/**
 * Banco Supervielle statements.
 *
 * A line with "NUMERO DE CUENTA" starts capturing and, when an account number `dd-dddddddd/d`
 * follows, adds an account and makes it the current one. While capturing, every line is
 * stripped and kept when it starts with a date `dd/mm/yy`. The line with the previous
 * period's balance sets the current account's opening balance; the "SALDO PERIODO ACTUAL"
 * line hands the kept lines to the current account, stops capturing and sets its closing
 * balance. The first kept line of an account is dropped; each other one shows the balance
 * after it, from column 85 on, and its amount is that balance minus the previous one.
 */
module Supervielle {
  import opened Text
  import opened Optional
  import opened Amounts
  import Ledger

  const AccountKey := "NUMERO DE CUENTA"
  const OpeningKey := "Saldo del período anterior"
  const ClosingKey := "SALDO PERIODO ACTUAL"

  // ---------------------------------------------------------------------------
  // Recognisers

  /** An account number `\d{2}-\d{8}/\d` starts at `q`. */
  predicate AccountNumberAt(s: string, q: nat) {
    DigitsAt(s, q, 2) && CharAt(s, q + 2, '-') && DigitsAt(s, q + 3, 8) && CharAt(s, q + 11, '/') && DigitsAt(s, q + 12, 1)
  }

  /** `NUMERO DE CUENTA\s+(\d{2}-\d{8}/\d)` tried at `p`: where the match ends. */
  function AccountMatchAt(s: string, p: nat): (r: Option<nat>)
    ensures r.Some? ==> p < r.value <= |s| && 13 <= r.value && AccountNumberAt(s, r.value - 13)
  {
    if !OccursAt(s, AccountKey, p) then None
    else
      var q := SpaceEnd(s, p + |AccountKey|);
      if q > p + |AccountKey| && AccountNumberAt(s, q) then Some(q + 13) else None
  }

  /** The account number the leftmost match captures, if any. */
  function AccountNumber(s: string): (r: Option<string>)
    ensures r.Some? ==> |r.value| == 13 && AccountNumberAt(r.value, 0)
  {
    var at := (p: nat) => AccountMatchAt(s, p);
    assert IsMatcher(s, at);
    match Search(s, at)
    case None => None
    case Some(span) =>
      assert at(span.0).Some?;
      NumberShape(s, span.1 - 13);
      Some(s[span.1 - 13..span.1])
  }

  lemma {:induction false} NumberShape(s: string, q: nat)
    requires AccountNumberAt(s, q)
    ensures AccountNumberAt(s[q..q + 13], 0)
  {
    var n := s[q..q + 13];
    assert forall i :: 0 <= i < 13 ==> n[i] == s[q + i];
  }

  predicate IsAmountChar(c: char) {
    IsDigit(c) || c == '.'
  }

  /**
   * `re.search(r"([\d\.]+,\d{2})$", s)`: the line ends in a comma and two digits after a run of
   * digits and dots, and the match is that whole run (the leftmost start), comma and decimals.
   */
  function TrailingAmount(s: string): (r: Option<string>)
    ensures r.Some? ==> 4 <= |r.value| <= |s| && r.value == s[|s| - |r.value|..]
  {
    if |s| < 4 || s[|s| - 3] != ',' || !IsDigit(s[|s| - 2]) || !IsDigit(s[|s| - 1]) then None
    else
      var b := DropUntil(s, IsAmountChar, |s| - 3);
      if b < |s| - 3 then Some(s[b..]) else None
  }

  /** The trailing amount read the Argentine way. */
  function TrailingValue(s: string): (r: Option<int>) {
    match TrailingAmount(s)
    case None => None
    case Some(t) => ParseArPlain(t)
  }

  /** Whatever the pattern captures reads as a number, never a negative one: `float()` cannot fail here. */
  lemma {:induction false} TrailingReads(s: string)
    requires TrailingAmount(s).Some?
    ensures TrailingValue(s).Some? && TrailingValue(s).value >= 0
  {
    var t := TrailingAmount(s).value;
    var b := |s| - |t|;
    var x, f := t[..|t| - 3], t[|t| - 2..];
    assert t == x + "," + f;
    assert forall i :: 0 <= i < |x| ==> x[i] == s[b + i];
    DotsRemoved(x);
    var d := RemoveChar(x, '.');
    ArRewrite(x, f);
    DecimalPartsSplit(d, f);
    var body := d + "." + f;
    assert body[0] != '-' && body[0] != '+' by {
      if d != [] {
        assert body[0] == d[0];
      }
    }
  }

  /** `re.match(r"^\d{2}/\d{2}/\d{2}", line)`. */
  predicate Dated(line: string) {
    DateAt(line, 0, '/', 2)
  }

  // ---------------------------------------------------------------------------
  // Accounts

  /** An account as the loop fills it in: absent keys are `None`. */
  datatype Account = Account(number: string, opening: Option<int>, closing: Option<int>, movements: Option<seq<string>>)

  /** `next(d for d in cuentas if d["cuenta"] == n)`: the first account with that number. */
  function FindAccount(accounts: seq<Account>, n: string): (r: Option<nat>)
    ensures r.Some? ==> r.value < |accounts| && accounts[r.value].number == n
    ensures r.Some? ==> forall k :: 0 <= k < r.value ==> accounts[k].number != n
    ensures r.None? ==> forall k :: 0 <= k < |accounts| ==> accounts[k].number != n
  {
    if accounts == [] then None
    else if accounts[0].number == n then Some(0)
    else match FindAccount(accounts[1..], n)
      case None => None
      case Some(k) => Some(k + 1)
  }

  /** The account numbers, in order. */
  function Numbers(accounts: seq<Account>): (r: seq<string>)
    ensures |r| == |accounts| && forall k :: 0 <= k < |r| ==> r[k] == accounts[k].number
  {
    if accounts == [] then [] else Numbers(accounts[..|accounts| - 1]) + [accounts[|accounts| - 1].number]
  }

  /** The kept lines of every account that received some, and the lines being kept, all start with a date. */
  predicate AllDated(st: State) {
    (forall k :: 0 <= k < |st.buffer| ==> Dated(st.buffer[k]))
    && forall a :: 0 <= a < |st.accounts| && st.accounts[a].movements.Some? ==>
      forall k :: 0 <= k < |st.accounts[a].movements.value| ==> Dated(st.accounts[a].movements.value[k])
  }

  // ---------------------------------------------------------------------------
  // The scan

  /** The loop's state: the capture flag, the current account number, the kept lines and the accounts. */
  datatype State = State(capturing: bool, current: string, buffer: seq<string>, accounts: seq<Account>)

  const Start := State(false, "", [], [])

  /** While capturing, the line is stripped and kept when it is dated. */
  function Capture(st: State, raw: string): (r: State)
    ensures r.accounts == st.accounts && r.capturing == st.capturing && r.current == st.current
    ensures st.capturing && Dated(Strip(raw)) ==> r.buffer == st.buffer + [Strip(raw)]
    ensures !(st.capturing && Dated(Strip(raw))) ==> r.buffer == st.buffer
  {
    if st.capturing && Dated(Strip(raw)) then st.(buffer := st.buffer + [Strip(raw)]) else st
  }

  /** The account line: capturing starts, and an account number adds an account and makes it current. */
  function OpenAccount(st: State, line: string): (r: State)
    ensures r.buffer == st.buffer
    ensures Numbers(r.accounts) == Numbers(st.accounts) + (if AccountNumber(line).Some? then [AccountNumber(line).value] else [])
    ensures forall k :: 0 <= k < |st.accounts| ==> r.accounts[k] == st.accounts[k]
    ensures forall k :: |st.accounts| <= k < |r.accounts| ==> r.accounts[k].movements.None?
    ensures r.capturing
    ensures AccountNumber(line).Some? ==>
      r.current == AccountNumber(line).value && r.accounts == st.accounts + [Account(AccountNumber(line).value, None, None, None)]
    ensures AccountNumber(line).None? ==> r.current == st.current && r.accounts == st.accounts
  {
    match AccountNumber(line)
    case None => st.(capturing := true)
    case Some(n) =>
      assert Numbers(st.accounts + [Account(n, None, None, None)])[..|st.accounts|] == Numbers(st.accounts);
      State(true, n, st.buffer, st.accounts + [Account(n, None, None, None)])
  }

  /** The previous period's balance goes to the current account, when it has one. */
  function SetOpening(st: State, v: int): (r: State)
    ensures r.buffer == st.buffer && Numbers(r.accounts) == Numbers(st.accounts)
    ensures FindAccount(st.accounts, st.current).None? ==> r == st
    ensures FindAccount(st.accounts, st.current).Some? ==>
      var k := FindAccount(st.accounts, st.current).value;
      r == st.(accounts := st.accounts[k := st.accounts[k].(opening := Some(v))])
  {
    match FindAccount(st.accounts, st.current)
    case None => st
    case Some(k) =>
      var accounts := st.accounts[k := st.accounts[k].(opening := Some(v))];
      assert Numbers(accounts) == Numbers(st.accounts);
      st.(accounts := accounts)
  }

  /**
   * The closing line: the current account, when it has one, takes the kept lines, which are
   * then cleared; capturing stops either way; the balance on the line becomes the closing
   * balance of the current account.
   */
  function CloseAccount(st: State, line: string): (r: State)
    ensures !r.capturing && Numbers(r.accounts) == Numbers(st.accounts)
    ensures FindAccount(st.accounts, st.current).Some? ==>
      (r.buffer == [] && r.accounts[FindAccount(st.accounts, st.current).value].movements == Some(st.buffer))
    ensures FindAccount(st.accounts, st.current).None? ==> r.buffer == st.buffer && r.accounts == st.accounts
    ensures FindAccount(st.accounts, st.current).Some? ==>
      var k := FindAccount(st.accounts, st.current).value;
      r.accounts == st.accounts[k := st.accounts[k].(movements := Some(st.buffer),
        closing := if TrailingValue(line).Some? then TrailingValue(line) else st.accounts[k].closing)]
  {
    match FindAccount(st.accounts, st.current)
    case None => st.(capturing := false)
    case Some(k) =>
      var a := st.accounts[k].(movements := Some(st.buffer));
      var a' := if TrailingValue(line).Some? then a.(closing := TrailingValue(line)) else a;
      var accounts := st.accounts[k := a'];
      assert Numbers(accounts) == Numbers(st.accounts);
      State(false, st.current, [], accounts)
  }

  /** One pass of the loop over a line. */
  function Step(st: State, raw: string): (r: State) {
    var line := Seen(st, raw);
    StepWith(st, raw, line, Opened(st, raw))
  }

  /** The line as the checks after the capture see it: stripped while capturing. */
  function Seen(st: State, raw: string): string {
    if st.capturing then Strip(raw) else raw
  }

  /** The state after the capture and the account line. */
  function Opened(st: State, raw: string): (r: State) {
    var st1 := Capture(st, raw);
    if Contains(Seen(st, raw), AccountKey) then OpenAccount(st1, Seen(st, raw)) else st1
  }

  /** The rest of the pass: the opening balance line and the closing line. */
  function StepWith(st: State, raw: string, line: string, st2: State): (r: State) {
    var st3 := if Contains(line, OpeningKey) && TrailingValue(line).Some? then SetOpening(st2, TrailingValue(line).value) else st2;
    if Contains(line, ClosingKey) then CloseAccount(st3, line) else st3
  }

  /** One pass adds an account exactly for an account line with a number, and never changes the numbers already there. */
  lemma {:induction false} StepNumbers(st: State, raw: string)
    ensures var line := Seen(st, raw);
      Numbers(Step(st, raw).accounts) == Numbers(st.accounts)
        + (if Contains(line, AccountKey) && AccountNumber(line).Some? then [AccountNumber(line).value] else [])
  {
    var line := Seen(st, raw);
    var st2 := Opened(st, raw);
    assert Numbers(st2.accounts) == Numbers(st.accounts)
      + (if Contains(line, AccountKey) && AccountNumber(line).Some? then [AccountNumber(line).value] else []);
    StepWithNumbers(st, raw, line, st2);
  }

  lemma {:induction false} StepWithNumbers(st: State, raw: string, line: string, st2: State)
    ensures Numbers(StepWith(st, raw, line, st2).accounts) == Numbers(st2.accounts)
  {
  }

  /** The loop over the lines, from a given state. */
  function Run(st: State, lines: seq<string>): State
    decreases |lines|
  {
    if lines == [] then st else Run(Step(st, lines[0]), lines[1..])
  }

  /** The loop of the source over the lines of the statement. */
  method Scan(lines: seq<string>) returns (st: State)
    ensures st == Run(Start, lines)
  {
    st := Start;
    var i := 0;
    while i < |lines|
      invariant i <= |lines|
      invariant Run(st, lines[i..]) == Run(Start, lines)
    {
      assert lines[i..][1..] == lines[i + 1..];
      st := Step(st, lines[i]);
      i := i + 1;
    }
  }

  /** Every step keeps every kept line dated. */
  lemma {:induction false} StepDated(st: State, raw: string)
    requires AllDated(st)
    ensures AllDated(Step(st, raw))
  {
    var line := Seen(st, raw);
    var st1 := Capture(st, raw);
    assert AllDated(st1);
    OpenedDated(st1, line);
    StepWithDated(st, raw, line, Opened(st, raw));
  }

  lemma {:induction false} OpenedDated(st: State, line: string)
    requires AllDated(st)
    ensures AllDated(if Contains(line, AccountKey) then OpenAccount(st, line) else st)
  {
    if Contains(line, AccountKey) {
      var r := OpenAccount(st, line);
      assert forall a :: 0 <= a < |r.accounts| && r.accounts[a].movements.Some? ==> a < |st.accounts|;
    }
  }

  lemma {:induction false} StepWithDated(st: State, raw: string, line: string, st2: State)
    requires AllDated(st2)
    ensures AllDated(StepWith(st, raw, line, st2))
  {
    var st3 := if Contains(line, OpeningKey) && TrailingValue(line).Some? then SetOpening(st2, TrailingValue(line).value) else st2;
    assert AllDated(st3) by {
      if Contains(line, OpeningKey) && TrailingValue(line).Some? {
        SetOpeningDated(st2, TrailingValue(line).value);
      }
    }
    if Contains(line, ClosingKey) {
      CloseDated(st3, line);
    }
  }

  lemma {:induction false} SetOpeningDated(st: State, v: int)
    requires AllDated(st)
    ensures AllDated(SetOpening(st, v))
  {
  }

  lemma {:induction false} CloseDated(st: State, line: string)
    requires AllDated(st)
    ensures AllDated(CloseAccount(st, line))
  {
  }

  /** So every line an account receives starts with its date `dd/mm/yy`. */
  lemma {:induction false} RunDated(st: State, lines: seq<string>)
    requires AllDated(st)
    ensures AllDated(Run(st, lines))
    decreases |lines|
  {
    if lines != [] {
      StepDated(st, lines[0]);
      RunDated(Step(st, lines[0]), lines[1..]);
    }
  }

  /** Accounts are only ever added, one per account line with a number, and never renumbered. */
  lemma {:induction false} RunKeepsNumbers(st: State, lines: seq<string>)
    ensures |Run(st, lines).accounts| >= |st.accounts|
    ensures Numbers(Run(st, lines).accounts)[..|st.accounts|] == Numbers(st.accounts)
    decreases |lines|
  {
    if lines != [] {
      var st1 := Step(st, lines[0]);
      StepNumbers(st, lines[0]);
      RunKeepsNumbers(st1, lines[1..]);
    }
  }

  // ---------------------------------------------------------------------------
  // Movements

  /** A kept line as a row: the date in columns 0-7, the description in 9-39, the balance from 85 on. */
  function RowOf(line: string): (r: Option<Ledger.BalanceRow>)
    ensures r.None? <==> SignedAr(Strip(From(line, 85))).None?
    ensures r.Some? ==> SignedAr(Strip(From(line, 85))) == Some(r.value.balance)
    ensures r.Some? ==> r.value.date == Slice(line, 0, 8) && r.value.description == Strip(Slice(line, 9, 40))
  {
    match SignedAr(Strip(From(line, 85)))
    case None => None
    case Some(b) => Some(Ledger.BalanceRow(Slice(line, 0, 8), Strip(Slice(line, 9, 40)), b))
  }

  /** Each kept line's reading. */
  function Readings(lines: seq<string>): (r: seq<Option<Ledger.BalanceRow>>)
    ensures |r| == |lines| && forall k :: 0 <= k < |lines| ==> r[k] == RowOf(lines[k])
  {
    seq(|lines|, k requires 0 <= k < |lines| => RowOf(lines[k]))
  }

  /** The rows of the kept lines, or nothing when a balance does not read (the parse then fails). */
  function RowsOf(lines: seq<string>): Option<seq<Ledger.BalanceRow>> {
    Collect(Readings(lines))
  }

  /**
   * The rows are there exactly when every kept line's balance reads; then there is one per
   * kept line, in order, and it is that line's reading.
   */
  lemma {:induction false} RowsRead(lines: seq<string>)
    ensures RowsOf(lines).Some? <==> forall k :: 0 <= k < |lines| ==> RowOf(lines[k]).Some?
    ensures RowsOf(lines).Some? ==> (|RowsOf(lines).value| == |lines|
      && forall k :: 0 <= k < |lines| ==> RowOf(lines[k]) == Some(RowsOf(lines).value[k]))
  {
    CollectAll(Readings(lines));
  }

  method ReadRows(lines: seq<string>) returns (r: Option<seq<Ledger.BalanceRow>>)
    ensures r == RowsOf(lines)
  {
    ghost var xs := Readings(lines);
    var rows: seq<Ledger.BalanceRow> := [];
    var i := 0;
    while i < |lines|
      invariant i <= |lines| && Collect(xs[..i]) == Some(rows)
    {
      var row := RowOf(lines[i]);
      CollectSnoc(xs, i);
      if row.None? {
        CollectAll(xs);
        return None;
      }
      rows := rows + [row.value];
      i := i + 1;
    }
    assert xs[..i] == xs;
    r := Some(rows);
  }

  // ---------------------------------------------------------------------------
  // The workbook

  /** The sheet name: the account number with `/` replaced by `-`. */
  function PageName(a: Account): string {
    ReplaceChar(a.number, '/', '-')
  }

  /**
   * The sheet of an account, or nothing when a kept balance does not read. The first kept
   * line is dropped; the opening and closing balances default to zero.
   */
  function PageOf(a: Account): (r: Option<Ledger.Page>)
    ensures a.movements.None? || a.movements.value == [] ==> r == Some(Ledger.NoMovements(PageName(a)))
  {
    match a.movements
    case None => Some(Ledger.NoMovements(PageName(a)))
    case Some(ls) =>
      if ls == [] then Some(Ledger.NoMovements(PageName(a)))
      else
        match RowsOf(ls[1..])
        case None => None
        case Some(rows) => Some(ListingOf(a, rows))
  }

  /** The listing of an account's rows: amounts are balance differences from the opening balance. */
  function ListingOf(a: Account, rows: seq<Ledger.BalanceRow>): Ledger.Page {
    var opening := a.opening.GetOr(0);
    Ledger.Listing(Ledger.ListingSheet(PageName(a), opening, a.closing.GetOr(0), Ledger.FromBalances(opening, rows)))
  }

  /**
   * The control value of a listing is the last printed balance minus the closing balance:
   * the amounts telescope from the opening balance.
   */
  lemma {:induction false} ListingControl(a: Account, rows: seq<Ledger.BalanceRow>)
    requires rows != []
    ensures ListingOf(a, rows).sheet.control == Some(rows[|rows| - 1].balance - a.closing.GetOr(0))
  {
    Ledger.FromBalancesControl(PageName(a), a.opening.GetOr(0), a.closing.GetOr(0), rows);
  }

  /**
   * When an account received lines past the first and they all read, its sheet is the listing
   * of their rows.
   */
  lemma {:induction false} PageListing(a: Account)
    requires a.movements.Some? && |a.movements.value| >= 2 && RowsOf(a.movements.value[1..]).Some?
    ensures PageOf(a) == Some(ListingOf(a, RowsOf(a.movements.value[1..]).value))
  {
  }

  /** Each account's page. */
  function PageReadings(accounts: seq<Account>): (r: seq<Option<Ledger.Page>>)
    ensures |r| == |accounts| && forall k :: 0 <= k < |accounts| ==> r[k] == PageOf(accounts[k])
  {
    seq(|accounts|, k requires 0 <= k < |accounts| => PageOf(accounts[k]))
  }

  /** The pages of all accounts in order, or nothing when one of them fails. */
  function PagesOf(accounts: seq<Account>): Option<seq<Ledger.Page>> {
    Collect(PageReadings(accounts))
  }

  /**
   * The workbook is there exactly when every account's page is; then it holds one sheet per
   * account, in the order the accounts were found.
   */
  lemma {:induction false} PagesRead(accounts: seq<Account>)
    ensures PagesOf(accounts).Some? <==> forall k :: 0 <= k < |accounts| ==> PageOf(accounts[k]).Some?
    ensures PagesOf(accounts).Some? ==> (|PagesOf(accounts).value| == |accounts|
      && forall k :: 0 <= k < |accounts| ==> PageOf(accounts[k]) == Some(PagesOf(accounts).value[k]))
  {
    CollectAll(PageReadings(accounts));
  }

  /** The whole parser: nothing without accounts or when a kept balance does not read. */
  method Process(lines: seq<string>) returns (pages: Option<seq<Ledger.Page>>)
    ensures var accounts := Run(Start, lines).accounts;
      pages == if accounts == [] then None else PagesOf(accounts)
  {
    var st := Scan(lines);
    if st.accounts == [] {
      return None;
    }
    ghost var xs := PageReadings(st.accounts);
    var ps: seq<Ledger.Page> := [];
    var i := 0;
    while i < |st.accounts|
      invariant i <= |st.accounts| && Collect(xs[..i]) == Some(ps)
    {
      var page := PageFor(st.accounts[i]);
      CollectSnoc(xs, i);
      if page.None? {
        CollectAll(xs);
        return None;
      }
      ps := ps + [page.value];
      i := i + 1;
    }
    assert xs[..i] == xs;
    pages := Some(ps);
  }

  /** One account's sheet, as the body of the workbook loop computes it. */
  method PageFor(a: Account) returns (page: Option<Ledger.Page>)
    ensures page == PageOf(a)
  {
    if a.movements.None? || a.movements.value == [] {
      return Some(Ledger.NoMovements(PageName(a)));
    }
    var rows := ReadRows(a.movements.value[1..]);
    if rows.None? {
      return None;
    }
    var opening := a.opening.GetOr(0);
    var ms := Ledger.BalanceDifferences(opening, rows.value);
    page := Some(Ledger.Listing(Ledger.ListingSheet(PageName(a), opening, a.closing.GetOr(0), ms)));
    assert page == Some(ListingOf(a, rows.value));
  }
}
