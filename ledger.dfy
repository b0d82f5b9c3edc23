/**
 * The balance arithmetic every statement sheet shares, in integer cents.
 *
 * A statement is an opening balance, a list of signed movements (positive money in,
 * negative money out) and a closing balance. Every sheet shows the credits (positive
 * amounts), the debits (negative amounts as magnitudes) and the control value
 * `opening + credits - debits - closing`, which is zero when the statement adds up.
 * Several parsers compute each amount as the difference of consecutive printed balances,
 * and several read the listing newest first and reverse it, inferring the opening
 * balance from the oldest row.
 */
module Ledger {
  import opened Optional

  /** A dated movement with its description and signed amount in cents. */
  datatype Movement = Movement(date: string, description: string, amount: int)

  function Sum(xs: seq<int>): int {
    if xs == [] then 0 else Sum(xs[..|xs| - 1]) + xs[|xs| - 1]
  }

  lemma {:induction false} SumAppend(a: seq<int>, b: seq<int>)
    ensures Sum(a + b) == Sum(a) + Sum(b)
  {
    if b == [] {
      assert a + b == a;
    } else {
      assert (a + b)[..|a + b| - 1] == a + b[..|b| - 1];
      SumAppend(a, b[..|b| - 1]);
    }
  }

  lemma SumSingle(x: int)
    ensures Sum([x]) == x
  {
    assert [x][..0] == [];
  }

  /** The signed amounts of a list of movements. */
  function Amounts(ms: seq<Movement>): (r: seq<int>)
    ensures |r| == |ms| && forall i :: 0 <= i < |ms| ==> r[i] == ms[i].amount
  {
    seq(|ms|, i requires 0 <= i < |ms| => ms[i].amount)
  }
  /** Appending a movement adds its amount to the net movement. */
  lemma SumAmountsSnoc(ms: seq<Movement>, m: Movement)
    ensures Sum(Amounts(ms + [m])) == Sum(Amounts(ms)) + m.amount
  {
    var xs := Amounts(ms + [m]);
    assert xs[..|xs| - 1] == Amounts(ms);
  }

  // ---------------------------------------------------------------------------
  // Credits, debits and the control value

  /** The credit column: the positive amounts, in order. */
  function Credits(xs: seq<int>): (r: seq<int>)
    ensures forall i :: 0 <= i < |r| ==> r[i] > 0
  {
    if xs == [] then []
    else Credits(xs[..|xs| - 1]) + (if xs[|xs| - 1] > 0 then [xs[|xs| - 1]] else [])
  }

  /** The debit column: the magnitudes of the negative amounts, in order. */
  function Debits(xs: seq<int>): (r: seq<int>)
    ensures forall i :: 0 <= i < |r| ==> r[i] > 0
  {
    if xs == [] then []
    else Debits(xs[..|xs| - 1]) + (if xs[|xs| - 1] < 0 then [-xs[|xs| - 1]] else [])
  }

  /**
   * Credits and debits partition the movements: a zero amount is in neither column,
   * every other amount is in exactly one, so credits minus debits is the net movement.
   */
  lemma {:induction false} CreditsMinusDebits(xs: seq<int>)
    ensures Sum(Credits(xs)) - Sum(Debits(xs)) == Sum(xs)
    ensures |Credits(xs)| + |Debits(xs)| + |ZeroAmounts(xs)| == |xs|
  {
    if xs != [] {
      var init, x := xs[..|xs| - 1], xs[|xs| - 1];
      CreditsMinusDebits(init);
      SumAppend(Credits(init), if x > 0 then [x] else []);
      SumAppend(Debits(init), if x < 0 then [-x] else []);
      if x > 0 { SumSingle(x); }
      if x < 0 { SumSingle(-x); }
    }
  }

  /** The movements whose amount is zero: the ones neither column shows. */
  function ZeroAmounts(xs: seq<int>): (r: seq<int>)
    ensures forall i :: 0 <= i < |r| ==> r[i] == 0
  {
    if xs == [] then []
    else ZeroAmounts(xs[..|xs| - 1]) + (if xs[|xs| - 1] == 0 then [0] else [])
  }

  /** The control value every sheet shows: opening + credits - debits - closing. */
  function Control(opening: int, credits: int, debits: int, closing: int): int {
    opening + credits - debits - closing
  }

  /** The control value of a list of movements is zero exactly when opening plus the net movement is the closing balance. */
  lemma ControlOfMovements(opening: int, xs: seq<int>, closing: int)
    ensures Control(opening, Sum(Credits(xs)), Sum(Debits(xs)), closing) == opening + Sum(xs) - closing
    ensures Control(opening, Sum(Credits(xs)), Sum(Debits(xs)), closing) == 0 <==> opening + Sum(xs) == closing
  {
    CreditsMinusDebits(xs);
  }

  /** The net amount of each row booked in a credit and a debit column: its credit minus its debit. */
  function Nets(credits: seq<int>, debits: seq<int>): (r: seq<int>)
    requires |credits| == |debits|
    ensures |r| == |credits| && forall k :: 0 <= k < |r| ==> r[k] == credits[k] - debits[k]
  {
    seq(|credits|, k requires 0 <= k < |credits| => credits[k] - debits[k])
  }

  /** Rows booked in two columns, each holding a non-negative value and at least one of them zero. */
  predicate OneSidedRows(credits: seq<int>, debits: seq<int>) {
    |credits| == |debits|
    && forall k :: 0 <= k < |credits| ==> credits[k] >= 0 && debits[k] >= 0 && (credits[k] == 0 || debits[k] == 0)
  }

  /**
   * Selecting the positive entries of each column (what a sheet lists) gives the credits
   * and the debits of the net amounts.
   */
  lemma {:induction false} OneSidedColumns(credits: seq<int>, debits: seq<int>)
    requires OneSidedRows(credits, debits)
    ensures Credits(credits) == Credits(Nets(credits, debits))
    ensures Credits(debits) == Debits(Nets(credits, debits))
  {
    OneSidedCredits(credits, debits);
    OneSidedDebits(credits, debits);
  }

  lemma {:induction false} OneSidedCredits(credits: seq<int>, debits: seq<int>)
    requires OneSidedRows(credits, debits)
    ensures Credits(credits) == Credits(Nets(credits, debits))
  {
    if credits != [] {
      var n := |credits|;
      assert OneSidedRows(credits[..n - 1], debits[..n - 1]);
      OneSidedCredits(credits[..n - 1], debits[..n - 1]);
      assert Nets(credits, debits)[..n - 1] == Nets(credits[..n - 1], debits[..n - 1]);
    }
  }

  lemma {:induction false} OneSidedDebits(credits: seq<int>, debits: seq<int>)
    requires OneSidedRows(credits, debits)
    ensures Credits(debits) == Debits(Nets(credits, debits))
  {
    if credits != [] {
      var n := |credits|;
      assert OneSidedRows(credits[..n - 1], debits[..n - 1]);
      OneSidedDebits(credits[..n - 1], debits[..n - 1]);
      assert Nets(credits, debits)[..n - 1] == Nets(credits[..n - 1], debits[..n - 1]);
    }
  }

  /**
   * A statement sheet: its name, the opening and closing balances, the credit and debit
   * columns, and the control value (absent on a sheet that lists no movements).
   */
  datatype Sheet = Sheet(name: string, opening: int, closing: int, credits: seq<int>, debits: seq<int>, control: Option<int>)

  /** A movement whose amount may be missing: the date, the description and the amount, when one was found. */
  datatype Entry = Entry(date: string, description: string, amount: Option<int>)

  /** The movements with an amount, as the sheet's columns see them: a missing amount is neither below nor above zero. */
  function Known(es: seq<Entry>): (r: seq<Movement>)
    ensures |r| <= |es|
  {
    if es == [] then []
    else
      var e := es[|es| - 1];
      Known(es[..|es| - 1]) + match e.amount
        case None => []
        case Some(v) => [Movement(e.date, e.description, v)]
  }

  /** Only the found amounts count: their total is the total of the entries that have one. */
  function KnownTotal(es: seq<Entry>): int {
    if es == [] then 0 else KnownTotal(es[..|es| - 1]) + es[|es| - 1].amount.GetOr(0)
  }

  lemma {:induction false} KnownSum(es: seq<Entry>)
    ensures Sum(Amounts(Known(es))) == KnownTotal(es)
  {
    if es != [] {
      var e := es[|es| - 1];
      KnownSum(es[..|es| - 1]);
      var tail: seq<Movement> := match e.amount
        case None => []
        case Some(v) => [Movement(e.date, e.description, v)];
      assert Known(es) == Known(es[..|es| - 1]) + tail;
      assert Amounts(Known(es)) == Amounts(Known(es[..|es| - 1])) + Amounts(tail);
      SumAppend(Amounts(Known(es[..|es| - 1])), Amounts(tail));
    }
  }

  /** A sheet of a workbook: a note for an account without movements, or a listing. */
  datatype Page = NoMovements(name: string) | Listing(sheet: Sheet)

  /**
   * The sheet of a listing: the credit and debit columns of its amounts and the control
   * value, which is the opening balance plus the net movement minus the closing balance.
   */
  function ListingSheet(name: string, opening: int, closing: int, ms: seq<Movement>): (r: Sheet)
    ensures r.name == name && r.opening == opening && r.closing == closing
    ensures r.credits == Credits(Amounts(ms)) && r.debits == Debits(Amounts(ms))
    ensures r.control.Some? && r.control.value == opening + Sum(Amounts(ms)) - closing
  {
    var xs := Amounts(ms);
    ControlOfMovements(opening, xs, closing);
    Sheet(name, opening, closing, Credits(xs), Debits(xs), Some(Control(opening, Sum(Credits(xs)), Sum(Debits(xs)), closing)))
  }

  // ---------------------------------------------------------------------------
  // Balances and their differences

  function Last(xs: seq<int>): int
    requires xs != []
  {
    xs[|xs| - 1]
  }

  /** The balance after each movement, starting from `opening`. */
  function Running(opening: int, xs: seq<int>): (r: seq<int>)
    ensures |r| == |xs|
  {
    if xs == [] then []
    else
      var prev := Running(opening, xs[..|xs| - 1]);
      prev + [(if prev == [] then opening else Last(prev)) + xs[|xs| - 1]]
  }

  /** The amounts a list of printed balances implies: each balance minus the one before, the first minus `opening`. */
  function Diffs(opening: int, bs: seq<int>): (r: seq<int>)
    ensures |r| == |bs|
  {
    if bs == [] then []
    else Diffs(opening, bs[..|bs| - 1]) + [bs[|bs| - 1] - (if |bs| == 1 then opening else bs[|bs| - 2])]
  }

  /** Balance differences telescope: opening plus all the differences is the last balance. */
  lemma {:induction false} DiffsTelescope(opening: int, bs: seq<int>)
    requires bs != []
    ensures opening + Sum(Diffs(opening, bs)) == Last(bs)
  {
    var init := bs[..|bs| - 1];
    if |bs| > 1 {
      DiffsTelescope(opening, init);
    }
  }

  /** The running balances end at opening plus the net movement. */
  lemma {:induction false} RunningEnds(opening: int, xs: seq<int>)
    requires xs != []
    ensures Last(Running(opening, xs)) == opening + Sum(xs)
  {
    if |xs| > 1 {
      RunningEnds(opening, xs[..|xs| - 1]);
    }
  }

  /** Differencing the running balances gives back the amounts. */
  lemma {:induction false} DiffsOfRunning(opening: int, xs: seq<int>)
    ensures Diffs(opening, Running(opening, xs)) == xs
  {
    if xs != [] {
      var r := Running(opening, xs);
      var init := xs[..|xs| - 1];
      assert r[..|r| - 1] == Running(opening, init);
      DiffsOfRunning(opening, init);
      assert xs == init + [xs[|xs| - 1]];
    }
  }

  /** Accumulating the differences of printed balances gives back the balances. */
  lemma {:induction false} RunningOfDiffs(opening: int, bs: seq<int>)
    ensures Running(opening, Diffs(opening, bs)) == bs
  {
    if bs != [] {
      var d := Diffs(opening, bs);
      var init := bs[..|bs| - 1];
      assert d[..|d| - 1] == Diffs(opening, init);
      RunningOfDiffs(opening, init);
      assert bs == init + [bs[|bs| - 1]];
    }
  }

  // ---------------------------------------------------------------------------
  // Listings that print only the balance after each movement

  /** A listed row that shows the balance after it rather than its amount. */
  datatype BalanceRow = BalanceRow(date: string, description: string, balance: int)

  /** The balances the rows show, in order. */
  function RowBalances(rows: seq<BalanceRow>): (r: seq<int>)
    ensures |r| == |rows| && forall k :: 0 <= k < |rows| ==> r[k] == rows[k].balance
  {
    if rows == [] then [] else RowBalances(rows[..|rows| - 1]) + [rows[|rows| - 1].balance]
  }

  /** The balance before the next row: the last one shown, or the starting balance. */
  function PriorBalance(start: int, rows: seq<BalanceRow>): int {
    if rows == [] then start else rows[|rows| - 1].balance
  }

  /** The movements of the rows: each balance minus the one before, the first minus the starting balance. */
  function FromBalances(start: int, rows: seq<BalanceRow>): (r: seq<Movement>)
    ensures |r| == |rows|
  {
    if rows == [] then []
    else
      var init := rows[..|rows| - 1];
      var row := rows[|rows| - 1];
      FromBalances(start, init) + [Movement(row.date, row.description, row.balance - PriorBalance(start, init))]
  }

  /** One more row adds its movement, and its balance becomes the prior one. */
  lemma {:induction false} FromBalancesSnoc(start: int, rows: seq<BalanceRow>, row: BalanceRow)
    ensures FromBalances(start, rows + [row]) == FromBalances(start, rows) + [Movement(row.date, row.description, row.balance - PriorBalance(start, rows))]
    ensures PriorBalance(start, rows + [row]) == row.balance
  {
    assert (rows + [row])[..|rows|] == rows;
  }

  /** The loop that carries the previous balance and records each balance minus it. */
  method BalanceDifferences(start: int, rows: seq<BalanceRow>) returns (ms: seq<Movement>)
    ensures ms == FromBalances(start, rows)
  {
    ms := [];
    var previous := start;
    var i := 0;
    while i < |rows|
      invariant i <= |rows|
      invariant ms == FromBalances(start, rows[..i]) && previous == PriorBalance(start, rows[..i])
    {
      FromBalancesSnoc(start, rows[..i], rows[i]);
      assert rows[..i + 1] == rows[..i] + [rows[i]];
      ms := ms + [Movement(rows[i].date, rows[i].description, rows[i].balance - previous)];
      previous := rows[i].balance;
      i := i + 1;
    }
    assert rows[..i] == rows;
  }

  /** The amounts are the differences of consecutive balances, starting from the starting balance. */
  lemma {:induction false} FromBalancesAreDiffs(start: int, rows: seq<BalanceRow>)
    ensures Amounts(FromBalances(start, rows)) == Diffs(start, RowBalances(rows))
  {
    if rows != [] {
      var init, row := rows[..|rows| - 1], rows[|rows| - 1];
      FromBalancesAreDiffs(start, init);
      var bs := RowBalances(rows);
      assert bs[..|bs| - 1] == RowBalances(init);
      var prior := PriorBalance(start, init);
      assert prior == if |bs| == 1 then start else bs[|bs| - 2];
      var ms := FromBalances(start, init);
      var m := Movement(row.date, row.description, row.balance - prior);
      assert FromBalances(start, rows) == ms + [m];
      assert Amounts(ms + [m]) == Amounts(ms) + [m.amount];
      assert Diffs(start, bs) == Diffs(start, RowBalances(init)) + [row.balance - prior];
    }
  }

  /** So the amounts add up to the last balance minus the starting balance. */
  lemma {:induction false} FromBalancesTelescope(start: int, rows: seq<BalanceRow>)
    requires rows != []
    ensures Sum(Amounts(FromBalances(start, rows))) == rows[|rows| - 1].balance - start
  {
    FromBalancesAreDiffs(start, rows);
    DiffsTelescope(start, RowBalances(rows));
  }

  /** On the listing sheet of such rows, the control value is the last balance minus the closing balance. */
  lemma {:induction false} FromBalancesControl(name: string, start: int, closing: int, rows: seq<BalanceRow>)
    requires rows != []
    ensures ListingSheet(name, start, closing, FromBalances(start, rows)).control == Some(rows[|rows| - 1].balance - closing)
  {
    var x := Sum(Amounts(FromBalances(start, rows)));
    FromBalancesTelescope(start, rows);
    assert x == rows[|rows| - 1].balance - start;
  }

  /** The balance before position `k`: the one at `k - 1`, or the opening balance for the first. */
  function PrevBalance(opening: int, bs: seq<int>, k: int): int {
    if 0 < k <= |bs| then bs[k - 1] else opening
  }

  /** Each balance is the one before it plus the amount at the same position. */
  predicate Steps(opening: int, xs: seq<int>, bs: seq<int>) {
    |xs| == |bs| && forall k {:trigger xs[k]} :: 0 <= k < |bs| ==> bs[k] == PrevBalance(opening, bs, k) + xs[k]
  }

  /** Balances that step by the amounts from `opening` are exactly the running balances. */
  lemma {:induction false} StepsAreRunning(opening: int, xs: seq<int>, bs: seq<int>)
    requires Steps(opening, xs, bs)
    ensures bs == Running(opening, xs)
  {
    if xs != [] {
      var n := |xs|;
      var xs', bs' := xs[..n - 1], bs[..n - 1];
      forall k | 0 <= k < n - 1
        ensures bs'[k] == PrevBalance(opening, bs', k) + xs'[k]
      {
        assert PrevBalance(opening, bs', k) == PrevBalance(opening, bs, k) && xs'[k] == xs[k];
      }
      StepsAreRunning(opening, xs', bs');
      assert bs[n - 1] == PrevBalance(opening, bs, n - 1) + xs[n - 1];
      assert PrevBalance(opening, bs, n - 1) == if bs' == [] then opening else Last(bs');
      assert bs == bs' + [bs[n - 1]];
    }
  }

  // ---------------------------------------------------------------------------
  // Newest-first listings

  function Reverse<T>(s: seq<T>): (r: seq<T>)
    ensures |r| == |s| && forall i :: 0 <= i < |s| ==> r[i] == s[|s| - 1 - i]
  {
    seq(|s|, i requires 0 <= i < |s| => s[|s| - 1 - i])
  }

  /** Reversing a listing keeps every row, so it keeps the net movement. */
  lemma {:induction false} SumReverse(xs: seq<int>)
    ensures Sum(Reverse(xs)) == Sum(xs)
  {
    if xs != [] {
      var r := Reverse(xs);
      assert r == [xs[|xs| - 1]] + Reverse(xs[..|xs| - 1]);
      SumAppend([xs[|xs| - 1]], Reverse(xs[..|xs| - 1]));
      SumSingle(xs[|xs| - 1]);
      SumReverse(xs[..|xs| - 1]);
    }
  }

  /** Each printed balance is the one before it plus the row's amount. */
  predicate Chained(amounts: seq<int>, balances: seq<int>) {
    |amounts| == |balances| && forall i :: 1 <= i < |balances| ==> balances[i] == balances[i - 1] + amounts[i]
  }

  /**
   * When the oldest row's opening balance is inferred as its balance minus its amount
   * and the rows are chained, the rows are exactly the running balances from that
   * opening, so opening plus the net movement is the newest balance.
   */
  lemma {:induction false} InferredOpening(amounts: seq<int>, balances: seq<int>)
    requires balances != [] && Chained(amounts, balances)
    ensures Running(balances[0] - amounts[0], amounts) == balances
    ensures (balances[0] - amounts[0]) + Sum(amounts) == Last(balances)
  {
    var opening := balances[0] - amounts[0];
    if |balances| > 1 {
      var a', b' := amounts[..|amounts| - 1], balances[..|balances| - 1];
      assert Chained(a', b');
      InferredOpening(a', b');
      assert b'[0] == balances[0] && a'[0] == amounts[0];
      assert amounts == a' + [amounts[|amounts| - 1]];
      assert Running(opening, amounts) == b' + [balances[|balances| - 1]];
      assert balances == b' + [balances[|balances| - 1]];
    } else {
      assert amounts[..0] == [];
    }
    RunningEnds(opening, amounts);
  }

  /** Each balance of a newest-first listing is the next older balance plus the row's own amount. */
  predicate ChainedNewestFirst(amounts: seq<int>, balances: seq<int>) {
    |amounts| == |balances| && forall k :: 0 <= k < |balances| - 1 ==> balances[k] == balances[k + 1] + amounts[k]
  }

  /**
   * A newest-first listing whose balances chain, reversed into date order, with the opening
   * balance inferred from the oldest row and the closing balance read from the newest:
   * the control value is zero.
   */
  lemma NewestFirstBalanced(name: string, ms: seq<Movement>, bs: seq<int>)
    requires ms != [] && ChainedNewestFirst(Amounts(ms), bs)
    ensures ListingSheet(name, bs[|bs| - 1] - ms[|ms| - 1].amount, bs[0], Reverse(ms)).control == Some(0)
  {
    var n := |ms|;
    var xs := Amounts(Reverse(ms));
    var rb := Reverse(bs);
    forall i | 1 <= i < |rb|
      ensures rb[i] == rb[i - 1] + xs[i]
    {
      assert rb[i - 1] == bs[n - 1 - (i - 1)] && rb[i] == bs[n - 1 - i];
      assert xs[i] == Reverse(ms)[i].amount == ms[n - 1 - i].amount == Amounts(ms)[n - 1 - i];
    }
    assert Chained(xs, rb);
    InferredOpening(xs, rb);
    assert rb[0] == bs[n - 1] && xs[0] == ms[n - 1].amount && Last(rb) == bs[0];
  }
}
