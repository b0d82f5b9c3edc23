/**
 * HSBC statements (a first, account-listing version of the parser).
 *
 * Each line is looked at three ways, in this order:
 *
 * - An account line, stripped, starts with "CAJA DE AHORRO" or "CUENTA CORRIENTE" (but not
 *   with either followed by " EN") and holds an account number `ddd-d-ddddd-d`. Its words
 *   are scanned for the account type, the word after the type being the currency. When the
 *   line holds two or more US amounts, the last but one is the current balance and the last
 *   one the previous balance; these stay set for the following account lines. The account's
 *   sheet is named `CC` or `CA`, then `U$D` for a dollar currency or `$`, then the number.
 * - A line that mentions "SALDO ANTERIOR" and "CUENTA CORRIENTE" with two or more US
 *   amounts sets the carried opening balance to the last but one and the carried closing
 *   balance to the last.
 * - A line that mentions "CUENTA CORRIENTE EN" and holds `NRO.`, blanks and a run of digits
 *   and dashes adds a checking account with that number and the carried balances.
 *
 * Every account gets a sheet whose name has the characters a sheet name cannot hold
 * replaced and is cut to 31 characters. The balances stay as the printed text.
 */
module Hsbc {
  import opened Text
  import opened Optional
  import opened Amounts

  // ---------------------------------------------------------------------------
  // Sheet names

  /** The characters a sheet name cannot hold. */
  const IllegalSheetChars: seq<char> := ['\\', '/', '*', '[', ']', ':', '?']
  const MaxSheetName := 31

  /** The name with the first `k` illegal characters replaced by `_`. */
  function ReplacedUpTo(name: string, k: nat): (r: string)
    requires k <= |IllegalSheetChars|
    ensures |r| == |name|
  {
    seq(|name|, i requires 0 <= i < |name| => if name[i] in IllegalSheetChars[..k] then '_' else name[i])
  }

  /** A valid sheet name: every illegal character replaced by `_`, then cut to 31 characters. */
  function SheetNameOf(name: string): (r: string)
    ensures |r| <= MaxSheetName && |r| == if |name| > MaxSheetName then MaxSheetName else |name|
  {
    var s := ReplacedUpTo(name, |IllegalSheetChars|);
    if |s| > MaxSheetName then s[..MaxSheetName] else s
  }

  /** The sheet name has no illegal character left; every other character is the name's own. */
  lemma SheetNameChars(name: string)
    ensures var r := SheetNameOf(name);
      (forall i :: 0 <= i < |r| ==> r[i] !in IllegalSheetChars)
      && forall i :: 0 <= i < |r| ==> r[i] == if name[i] in IllegalSheetChars then '_' else name[i]
  {
    assert IllegalSheetChars[..|IllegalSheetChars|] == IllegalSheetChars;
  }

  /** Cleaning a clean name changes nothing. */
  lemma SheetNameIdempotent(name: string)
    ensures SheetNameOf(SheetNameOf(name)) == SheetNameOf(name)
  {
    SheetNameChars(name);
    SheetNameKeepsValid(SheetNameOf(name));
  }

  /** A short name without illegal characters is its own sheet name. */
  lemma SheetNameKeepsValid(name: string)
    requires |name| <= MaxSheetName && forall i :: 0 <= i < |name| ==> name[i] !in IllegalSheetChars
    ensures SheetNameOf(name) == name
  {
    assert IllegalSheetChars[..|IllegalSheetChars|] == IllegalSheetChars;
  }

  /** The source's cleaning: one `replace` per illegal character, then the cut. */
  method CleanSheetName(name: string) returns (r: string)
    ensures r == SheetNameOf(name)
  {
    r := name;
    var k := 0;
    while k < |IllegalSheetChars|
      invariant 0 <= k <= |IllegalSheetChars|
      invariant r == ReplacedUpTo(name, k)
    {
      assert forall i :: 0 <= i < |name| ==>
        (name[i] in IllegalSheetChars[..k + 1] <==> name[i] in IllegalSheetChars[..k] || name[i] == IllegalSheetChars[k]);
      r := ReplaceChar(r, IllegalSheetChars[k], '_');
      k := k + 1;
    }
    assert IllegalSheetChars[..|IllegalSheetChars|] == IllegalSheetChars;
    if |r| > MaxSheetName {
      r := r[..MaxSheetName];
    }
  }

  // ---------------------------------------------------------------------------
  // The token scan for the account type and currency

  datatype AccountKind = NoKind | Savings | Checking

  /** The words `CAJA DE AHORRO` start at word `i`. */
  predicate SavingsAt(words: seq<string>, i: nat) {
    i + 2 < |words| && words[i] == "CAJA" && words[i + 1] == "DE" && words[i + 2] == "AHORRO"
  }

  /** The words `CUENTA CORRIENTE` start at word `i`. */
  predicate CheckingAt(words: seq<string>, i: nat) {
    i + 1 < |words| && words[i] == "CUENTA" && words[i + 1] == "CORRIENTE"
  }

  /** The account type and the currency found so far. */
  datatype Scanned = Scanned(kind: AccountKind, currency: string)

  /** Word `i` of the scan: a type sets the type, and the word after it, if there is one, the currency. */
  function ScanStep(words: seq<string>, i: nat, st: Scanned): Scanned {
    if SavingsAt(words, i) then Scanned(Savings, if i + 3 < |words| then words[i + 3] else st.currency)
    else if CheckingAt(words, i) then Scanned(Checking, if i + 2 < |words| then words[i + 2] else st.currency)
    else st
  }

  /** The scan of the first `n` words. */
  function TokenScan(words: seq<string>, n: nat): Scanned
    requires n <= |words|
  {
    if n == 0 then Scanned(NoKind, "") else ScanStep(words, n - 1, TokenScan(words, n - 1))
  }

  /** The source's loop over the words by index. */
  method ScanTokens(words: seq<string>) returns (kind: AccountKind, currency: string)
    ensures Scanned(kind, currency) == TokenScan(words, |words|)
  {
    kind, currency := NoKind, "";
    var i := 0;
    while i < |words|
      invariant 0 <= i <= |words|
      invariant Scanned(kind, currency) == TokenScan(words, i)
    {
      if i + 2 < |words| && words[i] == "CAJA" && words[i + 1] == "DE" && words[i + 2] == "AHORRO" {
        kind := Savings;
        if i + 3 < |words| {
          currency := words[i + 3];
        }
      } else if i + 1 < |words| && words[i] == "CUENTA" && words[i + 1] == "CORRIENTE" {
        kind := Checking;
        if i + 2 < |words| {
          currency := words[i + 2];
        }
      }
      i := i + 1;
    }
  }

  /** The type starting at word `k`, and how many words it takes. */
  function KindAt(words: seq<string>, k: nat): (AccountKind, nat) {
    if SavingsAt(words, k) then (Savings, 3) else if CheckingAt(words, k) then (Checking, 2) else (NoKind, 0)
  }

  /** Words without a type leave the scan as it was. */
  lemma {:induction false} ScanUnchanged(words: seq<string>, k: nat, n: nat)
    requires k <= n <= |words|
    requires forall j :: k <= j < |words| ==> !SavingsAt(words, j) && !CheckingAt(words, j)
    ensures TokenScan(words, n) == TokenScan(words, k)
    decreases n
  {
    if n > k {
      ScanUnchanged(words, k, n - 1);
    }
  }

  /**
   * The last type among the words decides: the scan ends with that type, and with the word
   * right after it as the currency.
   */
  lemma {:induction false} LastTypeDecides(words: seq<string>, k: nat)
    requires SavingsAt(words, k) || CheckingAt(words, k)
    requires k + KindAt(words, k).1 < |words|
    requires forall j :: k < j < |words| ==> !SavingsAt(words, j) && !CheckingAt(words, j)
    ensures TokenScan(words, |words|) == Scanned(KindAt(words, k).0, words[k + KindAt(words, k).1])
  {
    ScanUnchanged(words, k + 1, |words|);
  }

  /** Without a type among the words, the type and the currency stay empty. */
  lemma {:induction false} NoTypeNoScan(words: seq<string>)
    requires forall j :: 0 <= j < |words| ==> !SavingsAt(words, j) && !CheckingAt(words, j)
    ensures TokenScan(words, |words|) == Scanned(NoKind, "")
  {
    ScanUnchanged(words, 0, |words|);
  }

  // ---------------------------------------------------------------------------
  // The sheet name of an account

  /** A dollar currency: upper-cased, it is `U$S`, `USD` or `U$D`. */
  predicate IsDollar(currency: string) {
    Upper(currency) in ["U$S", "USD", "U$D"]
  }

  /** Whether a currency is the dollar does not depend on how it is written. */
  lemma DollarIgnoresCase(currency: string)
    ensures IsDollar(Lower(currency)) == IsDollar(currency) && IsDollar(Upper(currency)) == IsDollar(currency)
  {
    UpperIgnoresCase(currency);
  }

  /** `U$D` for a dollar account, `$` for any other. */
  function CurrencyMark(currency: string): (r: string)
    ensures r == "U$D" <==> IsDollar(currency)
  {
    if IsDollar(currency) then "U$D" else "$"
  }

  /** The sheet name of an account: `CC` or `CA`, the currency mark and the number; empty without a type. */
  function SheetName(kind: AccountKind, currency: string, number: string): (r: string)
    ensures kind == NoKind <==> r == []
    ensures kind != NoKind ==> |r| > 2 && r[2] == ' ' && EndsWith(r, " " + number)
    ensures kind == Checking ==> StartsWith(r, "CC")
    ensures kind == Savings ==> StartsWith(r, "CA")
  {
    match kind
    case Checking => "CC " + CurrencyMark(currency) + " " + number
    case Savings => "CA " + CurrencyMark(currency) + " " + number
    case NoKind => ""
  }

  // ---------------------------------------------------------------------------
  // Account lines

  const SavingsTitle := "CAJA DE AHORRO"
  const CheckingTitle := "CUENTA CORRIENTE"
  const SavingsIn := "CAJA DE AHORRO EN"
  const CheckingIn := "CUENTA CORRIENTE EN"
  const PreviousBalance := "SALDO ANTERIOR"
  const DollarMention := "U$S"

  /** The account number pattern `\d{3}-\d-\d{5}-\d` at `q`. */
  predicate NumberAt(s: string, q: nat) {
    DigitsAt(s, q, 3) && CharAt(s, q + 3, '-') && DigitsAt(s, q + 4, 1) && CharAt(s, q + 5, '-')
    && DigitsAt(s, q + 6, 5) && CharAt(s, q + 11, '-') && DigitsAt(s, q + 12, 1)
  }

  function NumberMatch(s: string, q: nat): (r: Option<nat>)
    ensures r.Some? ==> q < r.value <= |s|
  {
    if NumberAt(s, q) then Some(q + 13) else None
  }

  /** The first account number of a line (`re.search`). */
  function AccountNumber(s: string): (r: Option<string>)
    ensures r.Some? <==> exists q: nat :: NumberAt(s, q)
    ensures r.Some? ==> |r.value| == 13 && exists q: nat :: NumberAt(s, q) && r.value == s[q..q + 13]
  {
    var at := (q: nat) => NumberMatch(s, q);
    assert IsMatcher(s, at);
    match Search(s, at)
    case None =>
      assert forall q: nat :: !NumberAt(s, q) by {
        forall q: nat
          ensures !NumberAt(s, q)
        {
          assert at(q).None?;
        }
      }
      None
    case Some(span) =>
      assert at(span.0) == Some(span.1);
      Some(s[span.0..span.1])
  }

  /**
   * An account line: stripped, it starts with a savings or checking title not followed by
   * " EN", and it holds an account number.
   */
  predicate IsAccountLine(line: string) {
    var t := Strip(line);
    (StartsWith(t, SavingsTitle) || StartsWith(t, CheckingTitle))
    && !StartsWith(t, SavingsIn) && !StartsWith(t, CheckingIn)
    && AccountNumber(line).Some?
  }

  /** Every US amount `\d{1,3}(?:,\d{3})*\.\d{2}` of a line, left to right (`re.findall`); each is a US literal. */
  function UsAmounts(s: string): (r: seq<string>)
    ensures forall k :: 0 <= k < |r| ==> IsUsLiteral(r[k])
  {
    var at := (q: nat) => GroupedAt(s, q, ',', '.');
    assert IsMatcher(s, at);
    var sp := Spans(s, at, 0);
    assert forall k :: 0 <= k < |sp| ==> IsUsLiteral(s[sp[k].0..sp[k].1]) by {
      forall k | 0 <= k < |sp|
        ensures IsUsLiteral(s[sp[k].0..sp[k].1])
      {
        assert at(sp[k].0) == Some(sp[k].1);
      }
    }
    Texts(s, sp)
  }

  /** The last two US amounts of a line, the last but one first, when it has two or more. */
  function LastTwo(line: string): (r: Option<(string, string)>)
    ensures r.Some? <==> |UsAmounts(line)| >= 2
  {
    var nums := UsAmounts(line);
    if |nums| >= 2 then Some((nums[|nums| - 2], nums[|nums| - 1])) else None
  }

  // ---------------------------------------------------------------------------
  // The line loop

  /** An account found: its number, its sheet's name and its balances as printed. */
  datatype Account = Account(number: string, sheetName: string, opening: Option<string>, closing: Option<string>)

  /**
   * The loop's state: the accounts so far; the current and previous balances of the last
   * account line that had two amounts; and the carried opening and closing balances of the
   * last "SALDO ANTERIOR" line.
   */
  datatype State = State(accounts: seq<Account>, current: Option<string>, previous: Option<string>,
                         carriedOpening: Option<string>, carriedClosing: Option<string>)

  const Start := State([], None, None, None, None)

  /** `longer` starts with `shorter`. */
  predicate Extends(longer: seq<Account>, shorter: seq<Account>) {
    |shorter| <= |longer| && longer[..|shorter|] == shorter
  }

  lemma ExtendsTransitive(a: seq<Account>, b: seq<Account>, c: seq<Account>)
    requires (a == b || Extends(a, b)) && (b == c || Extends(b, c))
    ensures Extends(a, c)
  {
    assert a[..|b|][..|c|] == a[..|c|];
  }

  /** An account line: the balances it sets, then the account it adds. */
  function AccountStep(st: State, line: string): (r: State)
    requires IsAccountLine(line)
    ensures |r.accounts| == |st.accounts| + 1 && Extends(r.accounts, st.accounts)
  {
    var words := Split(line);
    var sc := TokenScan(words, |words|);
    var number := AccountNumber(line).value;
    var st' := match LastTwo(line)
      case Some((current, previous)) => st.(current := Some(current), previous := Some(previous))
      case None => st;
    var a := Account(number, SheetName(sc.kind, sc.currency, number), st'.previous, st'.current);
    assert (st'.accounts + [a])[..|st.accounts|] == st.accounts;
    st'.(accounts := st'.accounts + [a])
  }

  /** A "SALDO ANTERIOR" checking line with two or more amounts sets the carried balances. */
  function CarriedStep(st: State, line: string): (r: State)
    ensures r.accounts == st.accounts && r.current == st.current && r.previous == st.previous
  {
    if Contains(line, PreviousBalance) && Contains(line, CheckingTitle) then
      match LastTwo(line)
      case Some((opening, closing)) => st.(carriedOpening := Some(opening), carriedClosing := Some(closing))
      case None => st
    else st
  }

  /** A character of `[\d-]`. */
  predicate IsNumberChar(c: char) {
    IsDigit(c) || c == '-'
  }

  /** Where the run of digits and dashes from `p` ends. */
  function NumberRunEnd(s: string, p: nat): (e: nat)
    requires p <= |s|
    decreases |s| - p
    ensures p <= e <= |s| && (e == |s| || !IsNumberChar(s[e]))
    ensures forall i :: p <= i < e ==> IsNumberChar(s[i])
  {
    if p < |s| && IsNumberChar(s[p]) then NumberRunEnd(s, p + 1) else p
  }

  /** The pattern `NRO\.\s+([\d-]+)` at `q`: where its group starts. */
  function NroAt(s: string, q: nat): (r: Option<nat>)
    ensures r.Some? ==> q < r.value < |s| && IsNumberChar(s[r.value])
  {
    if OccursAt(s, "NRO.", q) && q + 4 < |s| && IsSpace(s[q + 4]) then
      var g := SpaceEnd(s, q + 4);
      if g < |s| && IsNumberChar(s[g]) then Some(g) else None
    else None
  }

  function NroMatch(s: string, q: nat): (r: Option<nat>)
    ensures r.Some? ==> q < r.value <= |s|
  {
    match NroAt(s, q)
    case None => None
    case Some(g) => Some(NumberRunEnd(s, g))
  }

  /** The number after the first `NRO.` and blanks (`re.search` and its group). */
  function NroNumber(s: string): (r: Option<string>)
    ensures r.Some? ==> r.value != [] && forall i :: 0 <= i < |r.value| ==> IsNumberChar(r.value[i])
    ensures r.Some? <==> exists q: nat :: NroAt(s, q).Some?
  {
    var at := (q: nat) => NroMatch(s, q);
    assert IsMatcher(s, at);
    match Search(s, at)
    case None =>
      assert forall q: nat :: NroAt(s, q).None? by {
        forall q: nat
          ensures NroAt(s, q).None?
        {
          assert at(q).None?;
        }
      }
      None
    case Some(span) =>
      var g := NroAt(s, span.0).value;
      Some(s[g..span.1])
  }

  /** A "CUENTA CORRIENTE EN" line with a number adds a checking account with the carried balances. */
  function NroStep(st: State, line: string): (r: State)
    ensures r.accounts == st.accounts || (|r.accounts| == |st.accounts| + 1 && Extends(r.accounts, st.accounts))
    ensures r.accounts != st.accounts <==> Contains(line, CheckingIn) && NroNumber(line).Some?
  {
    if Contains(line, CheckingIn) then
      match NroNumber(line)
      case None => st
      case Some(number) =>
        var name := (if Contains(line, DollarMention) then "CC U$D " else "CC $ ") + number;
        var a := Account(number, name, st.carriedOpening, st.carriedClosing);
        assert (st.accounts + [a])[..|st.accounts|] == st.accounts;
        st.(accounts := st.accounts + [a])
    else st
  }

  /** One line of the loop: the three blocks in order. It keeps the accounts found so far and only adds after them. */
  function Step(st: State, line: string): (r: State)
    ensures Extends(r.accounts, st.accounts)
  {
    var st1 := if IsAccountLine(line) then AccountStep(st, line) else st;
    var st2 := CarriedStep(st1, line);
    var r := NroStep(st2, line);
    ExtendsTransitive(r.accounts, st1.accounts, st.accounts);
    r
  }

  /** The state after the lines read so far. */
  function Run(lines: seq<string>): State {
    if lines == [] then Start else Step(Run(lines[..|lines| - 1]), lines[|lines| - 1])
  }

  /**
   * An account line adds the account with the line's first number, the sheet name of the
   * type and currency its words give, and as balances the line's last amount (previous)
   * and the one before it (current), or those of an earlier account line when it has
   * fewer than two.
   */
  lemma AccountLineAdds(st: State, line: string)
    requires IsAccountLine(line)
    ensures var words, nums := Split(line), UsAmounts(line);
      var sc := TokenScan(words, |words|);
      var number := AccountNumber(line).value;
      |Step(st, line).accounts| > |st.accounts|
      && Step(st, line).accounts[|st.accounts|] == Account(number, SheetName(sc.kind, sc.currency, number),
        if |nums| >= 2 then Some(nums[|nums| - 1]) else st.previous,
        if |nums| >= 2 then Some(nums[|nums| - 2]) else st.current)
  {
    var st1 := AccountStep(st, line);
    var st2 := CarriedStep(st1, line);
    var st3 := NroStep(st2, line);
    assert st3 == Step(st, line);
    assert st3.accounts[|st.accounts|] == st1.accounts[|st.accounts|];
  }

  /** A line that is neither an account line nor a "CUENTA CORRIENTE EN" line adds no account. */
  lemma OtherLineAddsNothing(st: State, line: string)
    requires !IsAccountLine(line) && !Contains(line, CheckingIn)
    ensures Step(st, line).accounts == st.accounts
  {
  }

  /** The first block: an account line sets the balances it holds and adds its account. */
  method AccountBlock(st: State, line: string) returns (r: State)
    ensures r == if IsAccountLine(line) then AccountStep(st, line) else st
  {
    r := st;
    if IsAccountLine(line) {
      var words := Split(line);
      var kind, currency := ScanTokens(words);
      var number := AccountNumber(line).value;
      var amounts := LastTwo(line);
      if amounts.Some? {
        r := r.(current := Some(amounts.value.0), previous := Some(amounts.value.1));
      }
      r := r.(accounts := r.accounts + [Account(number, SheetName(kind, currency, number), r.previous, r.current)]);
    }
  }

  /** The second block: a "SALDO ANTERIOR" checking line sets the carried balances. */
  method CarriedBlock(st: State, line: string) returns (r: State)
    ensures r == CarriedStep(st, line)
  {
    r := st;
    if Contains(line, PreviousBalance) && Contains(line, CheckingTitle) {
      var amounts := LastTwo(line);
      if amounts.Some? {
        r := r.(carriedOpening := Some(amounts.value.0), carriedClosing := Some(amounts.value.1));
      }
    }
  }

  /** The third block: a "CUENTA CORRIENTE EN" line with a number adds a checking account. */
  method NroBlock(st: State, line: string) returns (r: State)
    ensures r == NroStep(st, line)
  {
    r := st;
    if Contains(line, CheckingIn) {
      var found := NroNumber(line);
      if found.Some? {
        var number := found.value;
        var name := (if Contains(line, DollarMention) then "CC U$D " else "CC $ ") + number;
        r := r.(accounts := r.accounts + [Account(number, name, r.carriedOpening, r.carriedClosing)]);
      }
    }
  }

  /** The loop over the lines, the three blocks in turn on each. */
  method ReadAccounts(lines: seq<string>) returns (accounts: seq<Account>)
    ensures accounts == Run(lines).accounts
  {
    var st := Start;
    var i := 0;
    while i < |lines|
      invariant 0 <= i <= |lines|
      invariant st == Run(lines[..i])
    {
      assert lines[..i + 1][..i] == lines[..i];
      st := AccountBlock(st, lines[i]);
      st := CarriedBlock(st, lines[i]);
      st := NroBlock(st, lines[i]);
      i := i + 1;
    }
    assert lines[..|lines|] == lines;
    accounts := st.accounts;
  }

  /** A sheet of the workbook: its cleaned name and the balances written beside it. */
  datatype Sheet = Sheet(name: string, opening: Option<string>, closing: Option<string>)

  function SheetOf(a: Account): (r: Sheet)
    ensures |r.name| <= MaxSheetName
  {
    Sheet(SheetNameOf(a.sheetName), a.opening, a.closing)
  }

  /** An account whose line named no account type: the spreadsheet writer refuses its empty sheet title. */
  predicate Untitled(a: Account) {
    a.sheetName == []
  }

  /**
   * The workbook: one sheet per account, in order; nothing when there is no account, or when
   * an account has an empty sheet name, since writing that sheet fails and the parser then
   * gives nothing.
   */
  function Workbook(accounts: seq<Account>): (r: Option<seq<Sheet>>)
    ensures r.None? <==> accounts == [] || exists k :: 0 <= k < |accounts| && Untitled(accounts[k])
    ensures r.Some? ==> (|r.value| == |accounts|
      && forall k :: 0 <= k < |r.value| ==> r.value[k] == SheetOf(accounts[k]) && r.value[k].name != [])
  {
    if accounts == [] || exists k :: 0 <= k < |accounts| && Untitled(accounts[k]) then None
    else Some(seq(|accounts|, k requires 0 <= k < |accounts| => SheetOf(accounts[k])))
  }

  /** The parser's result: the workbook of the accounts the line loop finds. */
  function Parse(lines: seq<string>): Option<seq<Sheet>> {
    Workbook(Run(lines).accounts)
  }

  /** The writing loop: a cleaned sheet name per account. */
  method WriteSheets(accounts: seq<Account>) returns (r: Option<seq<Sheet>>)
    ensures r == Workbook(accounts)
  {
    if accounts == [] {
      return None;
    }
    var sheets: seq<Sheet> := [];
    var k := 0;
    while k < |accounts|
      invariant 0 <= k <= |accounts|
      invariant |sheets| == k && forall j :: 0 <= j < k ==> sheets[j] == SheetOf(accounts[j])
      invariant forall j :: 0 <= j < k ==> !Untitled(accounts[j])
    {
      var name := CleanSheetName(accounts[k].sheetName);
      if name == [] {
        assert Untitled(accounts[k]);
        return None;
      }
      var sheet := Sheet(name, accounts[k].opening, accounts[k].closing);
      assert sheet == SheetOf(accounts[k]);
      sheets := sheets + [sheet];
      k := k + 1;
    }
    assert Workbook(accounts).value == sheets;
    return Some(sheets);
  }

  /** The whole parser: the line loop, then the sheets. */
  method Process(lines: seq<string>) returns (r: Option<seq<Sheet>>)
    ensures r == Parse(lines)
  {
    var accounts := ReadAccounts(lines);
    r := WriteSheets(accounts);
  }
}
