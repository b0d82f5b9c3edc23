/**
 * BBVA Francés statements.
 *
 * The movements lie between the first line that mentions "Movimientos en cuentas" and
 * the first line that mentions "Transferencias". Inside, a line that starts with `CA` or
 * `CC` and a blank opens an account block, which ends at the first line from there on that
 * mentions "TOTAL MOVIMIENTOS"; an account line with no such line after it opens nothing.
 * Within a block, "SALDO ANTERIOR" and "SALDO AL" lines give the opening and closing
 * balances (their first Argentine amount); a "SIRCREB" line loses the ten characters from
 * its "F:" mark; and a line the movement pattern matches gives a movement:
 *
 *   (\d{2}/\d{2})\s([A-Za-z0-9\s\./,\-+]+)\s([-]?\d{1,3}(?:[\.,]\d{3})*(?:[\.,]\d{2}))\s
 *
 * The amount's commas become points and every point but the last is dropped.
 */
module Frances {
  import opened Text
  import opened Optional
  import opened Amounts
  import opened Lines
  import Ledger

  const SectionStart := "Movimientos en cuentas"
  const SectionEnd := "Transferencias"
  const BlockEnd := "TOTAL MOVIMIENTOS"
  const OpeningKey := "SALDO ANTERIOR"
  const ClosingKey := "SALDO AL"
  const CutKey := "SIRCREB"
  const CutMark := "F:"

  // ---------------------------------------------------------------------------
  // The amount conversion

  /** How often `c` occurs in `s` (Python's `s.count(c)`). */
  function Count(s: string, c: char): nat {
    if s == [] then 0 else (if s[0] == c then 1 else 0) + Count(s[1..], c)
  }

  /** Python's `s.replace(c, "", n)`: the first `n` occurrences of `c` removed. */
  function RemoveFirst(s: string, c: char, n: int): (r: string)
    ensures |r| <= |s|
  {
    if s == [] then []
    else if n > 0 && s[0] == c then RemoveFirst(s[1..], c, n - 1)
    else [s[0]] + RemoveFirst(s[1..], c, n)
  }

  /**
   * `float(t.replace(",", ".").replace(".", "", t.count(".") - 1))`: the commas become points,
   * then every point but the last is dropped.
   */
  function Convert(t: string): Option<int> {
    var u := ReplaceChar(t, ',', '.');
    ParseDecimal(RemoveFirst(u, '.', Count(u, '.') - 1))
  }

  lemma {:induction false} CountAppend(x: string, y: string, c: char)
    ensures Count(x + y, c) == Count(x, c) + Count(y, c)
  {
    if x != [] {
      assert (x + y)[0] == x[0] && (x + y)[1..] == x[1..] + y;
      CountAppend(x[1..], y, c);
    } else {
      assert x + y == y;
    }
  }

  lemma {:induction false} CountNone(x: string, c: char)
    requires forall i :: 0 <= i < |x| ==> x[i] != c
    ensures Count(x, c) == 0
  {
    if x != [] {
      CountNone(x[1..], c);
    }
  }

  /** Removing as many `c` as the prefix holds removes exactly the prefix's. */
  lemma {:induction false} RemoveFirstPrefix(x: string, y: string, c: char)
    ensures RemoveFirst(x + y, c, Count(x, c)) == RemoveChar(x, c) + y
  {
    if x == [] {
      assert x + y == y;
      RemoveFirstNone(y, c);
    } else {
      assert (x + y)[0] == x[0] && (x + y)[1..] == x[1..] + y;
      RemoveFirstPrefix(x[1..], y, c);
    }
  }

  lemma {:induction false} RemoveFirstNone(y: string, c: char)
    ensures RemoveFirst(y, c, 0) == y
  {
    if y != [] {
      RemoveFirstNone(y[1..], c);
    }
  }

  /** The text of an amount as the pattern matches it: an optional minus, grouped digits, a mark and two decimals. */
  predicate IsAmountText(t: string) {
    var u := if t != [] && t[0] == '-' then t[1..] else t;
    |u| >= 4 && IsMark(u[|u| - 3]) && AllDigits(u[|u| - 2..]) && IsMixedGrouped(u[..|u| - 3])
  }

  /** Grouped digits start with a digit and hold only digits and marks. */
  lemma {:induction false} MixedDigits(g: string)
    requires IsMixedGrouped(g)
    ensures g != [] && IsDigit(g[0])
    ensures forall i :: 0 <= i < |g| ==> IsDigit(g[i]) || IsMark(g[i])
    decreases |g|
  {
    if !(1 <= |g| <= 3 && AllDigits(g)) {
      var h := g[..|g| - 4];
      MixedDigits(h);
      assert g[0] == h[0];
      assert forall i :: 0 <= i < |h| ==> g[i] == h[i];
      assert forall i :: |g| - 3 <= i < |g| ==> g[i] == g[|g| - 3..][i - (|g| - 3)];
    }
  }

  /** Grouped digits start with a digit. */
  lemma {:induction false} MixedFirst(g: string)
    requires IsMixedGrouped(g)
    ensures g != [] && IsDigit(g[0])
    decreases |g|
  {
    if !(1 <= |g| <= 3 && AllDigits(g)) {
      MixedFirst(g[..|g| - 4]);
      assert g[0] == g[..|g| - 4][0];
    }
  }

  /** With its commas turned into points, a grouped literal keeps only digits and points, and its first digit. */
  lemma {:induction false} MixedPoints(g: string)
    requires IsMixedGrouped(g)
    ensures var rg := ReplaceChar(g, ',', '.');
      rg != [] && rg[0] == g[0] && IsDigit(rg[0])
      && (forall i :: 0 <= i < |rg| ==> IsDigit(rg[i]) || rg[i] == '.')
  {
    MixedDigits(g);
  }

  /** The digits of a grouped literal, read as a number. */
  lemma {:induction false} MixedValue(g: string)
    requires IsMixedGrouped(g)
    ensures var d := RemoveChar(ReplaceChar(g, ',', '.'), '.');
      d != [] && AllDigits(d) && d[0] == g[0]
  {
    var rg := ReplaceChar(g, ',', '.');
    MixedPoints(g);
    DotsRemoved(rg);
    assert rg == [rg[0]] + rg[1..];
    RemoveCharAppend([rg[0]], rg[1..], '.');
  }

  /** Turning the commas into points: the sign and the decimals have none, the mark becomes a point. */
  lemma {:induction false} ConvertReplaced(sign: string, g: string, m: char, f: string)
    requires sign == "" || sign == "-"
    requires IsMark(m) && AllDigits(f)
    ensures ReplaceChar(sign + g + [m] + f, ',', '.') == sign + ReplaceChar(g, ',', '.') + "." + f
  {
    var t := sign + g + [m] + f;
    var u := sign + ReplaceChar(g, ',', '.') + "." + f;
    assert |ReplaceChar(t, ',', '.')| == |u|;
    forall i | 0 <= i < |u|
      ensures ReplaceChar(t, ',', '.')[i] == u[i]
    {
      if i < |sign| {
      } else if i < |sign| + |g| {
        assert t[i] == g[i - |sign|];
      } else if i > |sign| + |g| {
        assert t[i] == f[i - |sign| - |g| - 1];
      }
    }
  }

  /** All points of `sign + rg + "." + f` but the last are those of `sign + rg`. */
  lemma {:induction false} CountPoints(sign: string, rg: string, f: string)
    requires sign == "" || sign == "-"
    requires AllDigits(f)
    ensures Count(sign + rg + "." + f, '.') - 1 == Count(sign + rg, '.')
  {
    assert forall i :: 0 <= i < |f| ==> f[i] != '.';
    CountNone(f, '.');
    CountAppend(sign + rg, "." + f, '.');
    CountAppend(".", f, '.');
    assert sign + rg + "." + f == (sign + rg) + ("." + f);
  }

  /** Dropping all points but the last of `sign + rg + "." + f` drops exactly those of `rg`. */
  lemma {:induction false} ConvertRemoved(sign: string, rg: string, f: string)
    requires sign == "" || sign == "-"
    requires AllDigits(f)
    ensures var u := sign + rg + "." + f;
      RemoveFirst(u, '.', Count(u, '.') - 1) == sign + RemoveChar(rg, '.') + "." + f
  {
    CountPoints(sign, rg, f);
    assert forall i :: 0 <= i < |f| ==> f[i] != '.';
    assert forall i :: 0 <= i < |"." + f| ==> ("." + f)[i] == '.' ==> i == 0;
    assert sign + rg + "." + f == (sign + rg) + ("." + f);
    RemoveFirstPrefix(sign + rg, "." + f, '.');
    RemoveCharAppend(sign, rg, '.');
    RemoveCharNoop(sign, '.');
  }

  /** The conversion drops the marks of the grouped digits and keeps the last mark as the point. */
  lemma {:induction false} ConvertDigits(sign: string, g: string, m: char, f: string)
    requires sign == "" || sign == "-"
    requires IsMark(m) && AllDigits(f)
    ensures Convert(sign + g + [m] + f) == ParseDecimal(sign + RemoveChar(ReplaceChar(g, ',', '.'), '.') + "." + f)
  {
    ConvertReplaced(sign, g, m, f);
    ConvertRemoved(sign, ReplaceChar(g, ',', '.'), f);
  }

  /** A plain decimal with two decimals, after an optional minus, reads in cents. */
  lemma {:induction false} SignedCents(sign: string, d: string, f: string)
    requires sign == "" || sign == "-"
    requires d != [] && AllDigits(d) && |f| == 2 && AllDigits(f)
    ensures ParseDecimal(sign + d + "." + f) == Some((if sign == "-" then -1 else 1) * (DigitsValue(d) * 100 + DigitsValue(f)))
  {
    var body := d + "." + f;
    assert sign + d + "." + f == sign + body;
    UnsignedCentsLiteral(d, f);
    if sign == "-" {
      ParseNegative(body);
    } else {
      assert sign + body == body;
      assert body[0] == d[0];
      ParseUnsigned(body);
    }
  }

  /**
   * A matched amount reads as its digits, marks dropped, in cents: the last mark is the
   * decimal point whether it is a point or a comma, and a leading minus negates.
   */
  lemma {:induction false} ConvertValue(sign: string, g: string, m: char, f: string)
    requires sign == "" || sign == "-"
    requires IsMixedGrouped(g) && IsMark(m) && |f| == 2 && AllDigits(f)
    ensures var d := RemoveChar(ReplaceChar(g, ',', '.'), '.');
      d != [] && AllDigits(d)
      && Convert(sign + g + [m] + f) == Some((if sign == "-" then -1 else 1) * (DigitsValue(d) * 100 + DigitsValue(f)))
  {
    MixedValue(g);
    ConvertDigits(sign, g, m, f);
    SignedCents(sign, RemoveChar(ReplaceChar(g, ',', '.'), '.'), f);
  }

  // ---------------------------------------------------------------------------
  // The movement pattern

  /** A character of the description class `[A-Za-z0-9\s\./,\-+]`. */
  predicate InClass(c: char) {
    ('A' <= c <= 'Z') || ('a' <= c <= 'z') || IsDigit(c) || IsSpace(c)
    || c == '.' || c == '/' || c == ',' || c == '-' || c == '+'
  }

  /** Where the run of class characters starting at `p` ends (how far the greedy `[...]+` reaches). */
  function ClassEnd(s: string, p: nat): (e: nat)
    requires p <= |s|
    decreases |s| - p
    ensures p <= e <= |s| && (e == |s| || !InClass(s[e]))
    ensures forall i :: p <= i < e ==> InClass(s[i])
  {
    if p < |s| && InClass(s[p]) then ClassEnd(s, p + 1) else p
  }

  /**
   * `[-]?\d{1,3}(?:[\.,]\d{3})*(?:[\.,]\d{2})\s` tried at `q`: where the amount ends, the
   * blank after it being at that index. The digits at `q` must be the whole run, of at most
   * three; every group is taken, since giving one back leaves a digit where the blank must
   * be; then a mark, two digits and a blank must follow.
   */
  function AmountEnd(s: string, q: nat): (r: Option<nat>)
    ensures r.Some? ==> q < r.value < |s| && IsSpace(s[r.value])
  {
    if q >= |s| then None
    else
      var q' := if s[q] == '-' then q + 1 else q;
      var k := DigitEnd(s, q');
      if k == q' || k - q' > 3 then None else DecimalsEnd(s, MarkGroupsEnd(s, k))
  }

  /** `[\.,]\d{2}\s` at `g`: where the amount ends, the blank after it being at that index. */
  function DecimalsEnd(s: string, g: nat): (r: Option<nat>)
    ensures r.Some? ==> r.value == g + 3 && r.value < |s| && IsSpace(s[r.value])
  {
    if g + 3 < |s| && IsMark(s[g]) && DigitsAt(s, g + 1, 2) && IsSpace(s[g + 3]) then Some(g + 3) else None
  }

  /** An amount's text split where the pattern's groups meet: the sign, the grouped digits, the mark and the decimals. */
  lemma {:induction false} AmountTextParts(sign: string, g: string, m: char, f: string)
    requires sign == "" || sign == "-"
    requires IsMixedGrouped(g) && IsMark(m) && |f| == 2 && AllDigits(f)
    ensures IsAmountText(sign + g + [m] + f)
  {
    var u := g + [m] + f;
    MixedFirst(g);
    assert u[..|u| - 3] == g && u[|u| - 3] == m && u[|u| - 2..] == f;
    assert u[0] != '-';
    if sign == "-" {
      assert (sign + g + [m] + f)[1..] == u;
    } else {
      assert sign + g + [m] + f == u;
    }
  }

  /** A run of one to three digits is grouped digits without groups. */
  lemma {:induction false} ShortRun(s: string, p: nat, k: nat)
    requires p < k <= p + 3 && k <= |s| && forall i :: p <= i < k ==> IsDigit(s[i])
    ensures IsMixedGrouped(s[p..k])
  {
    assert forall i :: 0 <= i < k - p ==> s[p..k][i] == s[p + i];
  }

  /** The slice from an optional minus through grouped digits, a mark and two digits is an amount's text. */
  lemma {:induction false} AmountSlice(s: string, q: nat, q1: nat, g: nat)
    requires q <= q1 <= g && g + 3 <= |s|
    requires q1 == q || (q1 == q + 1 && s[q] == '-')
    requires IsMixedGrouped(s[q1..g]) && IsMark(s[g]) && DigitsAt(s, g + 1, 2)
    ensures IsAmountText(s[q..g + 3])
  {
    var f := s[g + 1..g + 3];
    assert AllDigits(f) by {
      assert forall i :: 0 <= i < 2 ==> f[i] == s[g + 1 + i];
    }
    assert s[q..g + 3] == s[q..q1] + s[q1..g] + [s[g]] + f;
    if q1 == q {
      assert s[q..q1] == "";
    } else {
      assert s[q..q1] == "-";
    }
    AmountTextParts(s[q..q1], s[q1..g], s[g], f);
  }

  /** The leading digits of the amount that `AmountEnd` takes: one to three, the whole run. */
  lemma {:induction false} AmountEndRun(s: string, q: nat)
    requires AmountEnd(s, q).Some?
    ensures var q' := if s[q] == '-' then q + 1 else q;
      var k := DigitEnd(s, q');
      q' < k <= q' + 3 && DecimalsEnd(s, MarkGroupsEnd(s, k)) == AmountEnd(s, q)
  {
  }

  /** What `AmountEnd` takes is an amount's text. */
  lemma {:induction false} AmountEndText(s: string, q: nat)
    requires AmountEnd(s, q).Some?
    ensures IsAmountText(s[q..AmountEnd(s, q).value])
  {
    AmountEndRun(s, q);
    var q' := if s[q] == '-' then q + 1 else q;
    var k := DigitEnd(s, q');
    var g := MarkGroupsEnd(s, k);
    ShortRun(s, q', k);
    MarkGroupsGrouped(s, q', k);
    assert DecimalsEnd(s, g).Some?;
    AmountSlice(s, q, q', g);
  }

  /** A blank at `x`, then an amount: how the pattern continues after the description. */
  predicate Tail(s: string, x: nat) {
    x < |s| && IsSpace(s[x]) && AmountEnd(s, x + 1).Some?
  }

  /**
   * Where the description ends: the class run `[...]+` is greedy, so the engine tries the
   * longest description first and gives back one character at a time, down to a single one,
   * until a blank and an amount follow.
   */
  function DescriptionEnd(s: string, e: nat): (r: Option<nat>)
    decreases e
    ensures r.Some? ==> 7 <= r.value <= e && Tail(s, r.value)
    ensures r.Some? ==> forall x :: r.value < x <= e ==> !Tail(s, x)
    ensures r.None? ==> forall x :: 7 <= x <= e ==> !Tail(s, x)
  {
    if e < 7 then None
    else if Tail(s, e) then Some(e)
    else DescriptionEnd(s, e - 1)
  }

  /** The three groups of a match: the date, the description and the amount's text. */
  datatype Groups = Groups(date: string, description: string, amount: string)

  /** The date group `\d{2}/\d{2}` and the blank after it open the line. */
  predicate DateOpens(s: string) {
    DigitsAt(s, 0, 2) && CharAt(s, 2, '/') && DigitsAt(s, 3, 2) && 5 < |s| && IsSpace(s[5])
  }

  /** `re.match` of the movement pattern: anchored at the start of the line. */
  function MatchLine(s: string): (r: Option<Groups>)
    ensures r.Some? ==> DateOpens(s) && r.value.date == s[..5]
  {
    if !DateOpens(s) then None
    else
      match DescriptionEnd(s, ClassEnd(s, 6))
      case None => None
      case Some(e) => Some(Groups(s[..5], s[6..e], s[e + 1..AmountEnd(s, e + 1).value]))
  }

  /**
   * A match's description is a run of class characters after the date and blank, the
   * longest that a blank and an amount follow; the amount group is what that amount takes.
   */
  lemma {:induction false} MatchGroups(s: string)
    requires MatchLine(s).Some?
    ensures var gs := MatchLine(s).value;
      var e := 6 + |gs.description|;
      7 <= e < |s| && s[6..e] == gs.description
      && (forall i :: 6 <= i < e ==> InClass(s[i]))
      && Tail(s, e) && (forall x :: e < x <= ClassEnd(s, 6) ==> !Tail(s, x))
  {
    var e := DescriptionEnd(s, ClassEnd(s, 6)).value;
    assert |s[6..e]| == e - 6;
  }

  /** The amount group of a match is an amount's text. */
  lemma {:induction false} MatchAmount(s: string)
    requires MatchLine(s).Some?
    ensures IsAmountText(MatchLine(s).value.amount)
  {
    var e := DescriptionEnd(s, ClassEnd(s, 6)).value;
    AmountEndText(s, e + 1);
  }

  /** The movement a line gives: the date, the stripped description and the converted amount. */
  function MovementOf(s: string): Option<Ledger.Movement> {
    match MatchLine(s)
    case None => None
    case Some(gs) =>
      match Convert(gs.amount)
      case None => None
      case Some(v) => Some(Ledger.Movement(gs.date, Strip(gs.description), v))
  }

  /** A matched amount always converts: whatever the pattern takes is a number to `float()`. */
  lemma {:induction false} AmountConverts(t: string)
    requires IsAmountText(t)
    ensures Convert(t).Some?
  {
    if t[0] == '-' {
      var u := t[1..];
      assert t == "-" + u[..|u| - 3] + [u[|u| - 3]] + u[|u| - 2..];
      ConvertValue("-", u[..|u| - 3], u[|u| - 3], u[|u| - 2..]);
    } else {
      assert t == "" + t[..|t| - 3] + [t[|t| - 3]] + t[|t| - 2..];
      ConvertValue("", t[..|t| - 3], t[|t| - 3], t[|t| - 2..]);
    }
  }

  /** Every line the pattern matches gives a movement. */
  lemma {:induction false} MatchedMoves(s: string)
    requires MatchLine(s).Some?
    ensures MovementOf(s).Some?
    ensures MovementOf(s).value.date == s[..5]
    ensures MovementOf(s).value.description == Strip(MatchLine(s).value.description)
  {
    MatchAmount(s);
    AmountConverts(MatchLine(s).value.amount);
  }

  // ---------------------------------------------------------------------------
  // The SIRCREB cut

  /**
   * A SIRCREB line loses the ten characters from its first "F:"; a SIRCREB line without the
   * mark makes `index` raise, and the whole parse fails.
   */
  function Cut(line: string): (r: Option<string>)
    ensures !Contains(line, CutKey) ==> r == Some(line)
    ensures Contains(line, CutKey) ==> (r.None? <==> !Contains(line, CutMark))
    ensures Contains(line, CutKey) && Contains(line, CutMark) ==>
      var i := Find(line, CutMark);
      r == Some(line[..i] + From(line, i + 10))
  {
    if !Contains(line, CutKey) then Some(line)
    else
      var i := Find(line, CutMark);
      if i < 0 then None else Some(line[..i] + From(line, i + 10))
  }

  // ---------------------------------------------------------------------------
  // The section and the account blocks

  /**
   * The lines strictly between the first start line and the first end line (searched from
   * the top, so an end line before the start gives nothing); nothing when either is missing.
   */
  function Section(lines: seq<string>): (r: Option<seq<string>>)
    ensures r.Some? <==> FirstIn(lines, [SectionStart], 0, |lines|).Some? && FirstIn(lines, [SectionEnd], 0, |lines|).Some?
    ensures r.Some? ==>
      var a, b := FirstIn(lines, [SectionStart], 0, |lines|).value, FirstIn(lines, [SectionEnd], 0, |lines|).value;
      r.value == Sub(lines, a + 1, b)
  {
    match (FirstIn(lines, [SectionStart], 0, |lines|), FirstIn(lines, [SectionEnd], 0, |lines|))
    case (Some(a), Some(b)) => Some(Sub(lines, a + 1, b))
    case _ => None
  }

  /** `re.match(r"^(CA|CC)\s", line)`. */
  predicate IsAccountLine(line: string) {
    |line| >= 3 && line[0] == 'C' && (line[1] == 'A' || line[1] == 'C') && IsSpace(line[2])
  }

  /** Python's `s[:n]`, where a negative `n` counts from the end. */
  function PyPrefix(s: string, n: int): (r: string)
    ensures 0 <= n <= |s| ==> r == s[..n]
    ensures n < 0 && -n <= |s| ==> r == s[..|s| + n]
  {
    if n >= 0 then (if n <= |s| then s[..n] else s)
    else if -n <= |s| then s[..|s| + n] else []
  }

  /**
   * `line[:line.find("(") - 1]`: the account's name ends one character before the first
   * parenthesis; without one, `find` gives −1 and the last two characters are dropped.
   */
  function AccountName(line: string): string {
    PyPrefix(line, IndexOf(line, '(') - 1)
  }

  /** An account block: its name and the indices of its opening and closing lines in the section. */
  datatype Block = Block(name: string, start: nat, end: nat)

  /** The block that the line at `i` opens, if any. */
  function BlockAt(section: seq<string>, i: nat): (r: Option<Block>)
    requires i < |section|
    ensures r.Some? <==> IsAccountLine(section[i]) && FirstIn(section, [BlockEnd], i, |section|).Some?
    ensures r.Some? ==> r.value == Block(AccountName(section[i]), i, FirstIn(section, [BlockEnd], i, |section|).value)
  {
    if !IsAccountLine(section[i]) then None
    else match FirstIn(section, [BlockEnd], i, |section|)
      case None => None
      case Some(j) => Some(Block(AccountName(section[i]), i, j))
  }

  /** The blocks opened by the first `n` lines, in order. */
  function Blocks(section: seq<string>, n: nat): (r: seq<Block>)
    requires n <= |section|
    ensures forall k :: 0 <= k < |r| ==> r[k].start < n && BlockAt(section, r[k].start) == Some(r[k])
    ensures forall k, k' :: 0 <= k < k' < |r| ==> r[k].start < r[k'].start
    ensures forall i :: 0 <= i < n && BlockAt(section, i).Some? ==> BlockAt(section, i).value in r
  {
    if n == 0 then []
    else
      var before := Blocks(section, n - 1);
      match BlockAt(section, n - 1)
      case None => before
      case Some(b) => before + [b]
  }

  /** The inner search for the end of a block: the first line from `i` on with the closing text. */
  method FindEnd(section: seq<string>, i: nat) returns (j: Option<nat>)
    requires i < |section|
    ensures j == FirstIn(section, [BlockEnd], i, |section|)
  {
    var x := i;
    while x < |section|
      invariant i <= x <= |section| && FirstIn(section, [BlockEnd], i, x).None?
    {
      if Contains(section[x], BlockEnd) {
        assert Contains(section[x], [BlockEnd][0]);
        FirstInExtends(section, [BlockEnd], i, x + 1, |section|);
        return Some(x);
      }
      assert forall k | 0 <= k < 1 :: [BlockEnd][k] == BlockEnd;
      x := x + 1;
    }
    return None;
  }

  /** The loop that looks for account blocks. */
  method FindBlocks(section: seq<string>) returns (blocks: seq<Block>)
    ensures blocks == Blocks(section, |section|)
  {
    blocks := [];
    for i := 0 to |section|
      invariant blocks == Blocks(section, i)
    {
      if IsAccountLine(section[i]) {
        var j := FindEnd(section, i);
        if j.Some? {
          blocks := blocks + [Block(AccountName(section[i]), i, j.value)];
        }
      }
    }
  }

  // ---------------------------------------------------------------------------
  // An account's lines

  /** What one line of a block does: the balances it sets, whether it survives the cut, and its movement. */
  datatype Fact = Fact(opening: Option<int>, closing: Option<int>, ok: bool, movement: Option<Ledger.Movement>)

  /** The first Argentine amount of a line, read. */
  function FirstValue(line: string): Option<int> {
    match FirstAr(line)
    case None => None
    case Some(t) => ParseArPlain(t)
  }

  function FactOf(line: string): Fact {
    var cut := Cut(line);
    Fact(
      if Contains(line, OpeningKey) then FirstValue(line) else None,
      if Contains(line, ClosingKey) then FirstValue(line) else None,
      cut.Some?,
      if cut.Some? then MovementOf(cut.value) else None)
  }

  function Facts(lines: seq<string>): (r: seq<Fact>)
    ensures |r| == |lines| && forall k :: 0 <= k < |lines| ==> r[k] == FactOf(lines[k])
  {
    seq(|lines|, k requires 0 <= k < |lines| => FactOf(lines[k]))
  }

  /** An account as its block fills it in: the balances (zero until set) and the movements. */
  datatype Account = Account(opening: int, closing: int, movements: seq<Ledger.Movement>)

  const Empty := Account(0, 0, [])

  /** One line: the balances it sets replace the old ones, and its movement, if any, is appended. */
  function Apply(a: Account, f: Fact): Account {
    Account(f.opening.GetOr(a.opening), f.closing.GetOr(a.closing),
      a.movements + match f.movement case None => [] case Some(m) => [m])
  }

  /** The block's loop over what its lines do; it fails with the first line the cut fails on. */
  function Fold(fs: seq<Fact>): Option<Account> {
    if fs == [] then Some(Empty)
    else match Fold(fs[..|fs| - 1])
      case None => None
      case Some(a) => if fs[|fs| - 1].ok then Some(Apply(a, fs[|fs| - 1])) else None
  }

  /** The movements of the facts, in order. */
  function Moves(fs: seq<Fact>): seq<Ledger.Movement> {
    if fs == [] then []
    else Moves(fs[..|fs| - 1]) + match fs[|fs| - 1].movement case None => [] case Some(m) => [m]
  }

  /**
   * The block reads exactly when no line fails the cut; then its movements are those of its
   * matched lines, in order, whatever the balance lines do.
   */
  lemma {:induction false} FoldReads(fs: seq<Fact>)
    ensures Fold(fs).Some? <==> forall k :: 0 <= k < |fs| ==> fs[k].ok
    ensures Fold(fs).Some? ==> Fold(fs).value.movements == Moves(fs)
  {
    if fs != [] {
      var init := fs[..|fs| - 1];
      FoldReads(init);
      assert forall k :: 0 <= k < |init| ==> init[k] == fs[k];
    }
  }

  /** The last line that sets the opening balance decides it. */
  lemma {:induction false} LastOpening(fs: seq<Fact>, k: nat)
    requires k < |fs| && fs[k].opening.Some? && Fold(fs).Some?
    requires forall j :: k < j < |fs| ==> fs[j].opening.None?
    ensures Fold(fs).value.opening == fs[k].opening.value
  {
    var init := fs[..|fs| - 1];
    if k < |init| {
      assert forall j :: k < j < |init| ==> init[j] == fs[j];
      LastOpening(init, k);
    }
  }

  /** The last line that sets the closing balance decides it. */
  lemma {:induction false} LastClosing(fs: seq<Fact>, k: nat)
    requires k < |fs| && fs[k].closing.Some? && Fold(fs).Some?
    requires forall j :: k < j < |fs| ==> fs[j].closing.None?
    ensures Fold(fs).value.closing == fs[k].closing.value
  {
    var init := fs[..|fs| - 1];
    if k < |init| {
      assert forall j :: k < j < |init| ==> init[j] == fs[j];
      LastClosing(init, k);
    }
  }

  /** The account a block's lines give. */
  function AccountOf(lines: seq<string>): Option<Account> {
    Fold(Facts(lines))
  }

  method ReadAccount(lines: seq<string>) returns (r: Option<Account>)
    ensures r == AccountOf(lines)
  {
    ghost var fs := Facts(lines);
    var a := Empty;
    for i := 0 to |lines|
      invariant Fold(fs[..i]) == Some(a)
    {
      assert fs[..i + 1][..i] == fs[..i];
      var f := FactOf(lines[i]);
      if !f.ok {
        FoldReads(fs);
        return None;
      }
      a := Apply(a, f);
    }
    assert fs[..|lines|] == fs;
    r := Some(a);
  }

  // ---------------------------------------------------------------------------
  // The workbook

  /** The sheet name: the account's name with `/` replaced by `-`. */
  function PageName(b: Block): string {
    ReplaceChar(b.name, '/', '-')
  }

  /** A block's sheet: a note when it has no movement, else the listing of its movements. */
  function PageOf(b: Block, a: Account): (r: Ledger.Page)
    ensures a.movements == [] <==> r.NoMovements?
    ensures r.Listing? ==> r.sheet.control == Some(a.opening + Ledger.Sum(Ledger.Amounts(a.movements)) - a.closing)
  {
    if a.movements == [] then Ledger.NoMovements(PageName(b))
    else Ledger.Listing(Ledger.ListingSheet(PageName(b), a.opening, a.closing, a.movements))
  }

  /** The lines of a block: strictly between its opening and closing lines. */
  function BlockLines(section: seq<string>, b: Block): seq<string>
    requires b.end <= |section|
  {
    Sub(section, b.start + 1, b.end)
  }

  /**
   * The spreadsheet writer refuses a sheet title that is empty or holds one of
   * `\ * ? : / [ ]`, and the outer `except` then ends the parse with nothing.
   */
  predicate TitleRefused(name: string) {
    name == [] || exists i :: 0 <= i < |name| && name[i] in ['\\', '*', '?', ':', '/', '[', ']']
  }

  /**
   * Replacing `/` leaves a refused sheet name exactly when the account's name is empty or
   * holds one of `\ * ? : [ ]`; so `CC 12:34 (x)` gives the refused name `CC 12:34`.
   */
  lemma PageNameRefused(b: Block)
    ensures TitleRefused(PageName(b)) <==>
      b.name == [] || exists i :: 0 <= i < |b.name| && b.name[i] in ['\\', '*', '?', ':', '[', ']']
  {
    var n := PageName(b);
    if TitleRefused(n) && n != [] {
      var i :| 0 <= i < |n| && n[i] in ['\\', '*', '?', ':', '/', '[', ']'];
      assert b.name[i] in ['\\', '*', '?', ':', '[', ']'];
    }
    if b.name != [] && exists i :: 0 <= i < |b.name| && b.name[i] in ['\\', '*', '?', ':', '[', ']'] {
      var i :| 0 <= i < |b.name| && b.name[i] in ['\\', '*', '?', ':', '[', ']'];
      assert n[i] == b.name[i];
    }
  }

  /** Each block's sheet, or nothing when a block fails or its sheet name is refused. */
  function PageFor(section: seq<string>, b: Block): (r: Option<Ledger.Page>)
    requires b.end <= |section|
    ensures r.None? <==> AccountOf(BlockLines(section, b)).None? || TitleRefused(PageName(b))
    ensures r.Some? ==> r.value == PageOf(b, AccountOf(BlockLines(section, b)).value)
  {
    match AccountOf(BlockLines(section, b))
    case None => None
    case Some(a) => if TitleRefused(PageName(b)) then None else Some(PageOf(b, a))
  }

  function PageReadings(section: seq<string>, bs: seq<Block>): (r: seq<Option<Ledger.Page>>)
    requires forall k :: 0 <= k < |bs| ==> bs[k].end <= |section|
    ensures |r| == |bs| && forall k :: 0 <= k < |bs| ==> r[k] == PageFor(section, bs[k])
  {
    seq(|bs|, k requires 0 <= k < |bs| => PageFor(section, bs[k]))
  }

  /** The sheets of a section's blocks; nothing when it has none or a block fails. */
  function PagesIn(section: seq<string>): Option<seq<Ledger.Page>> {
    var bs := Blocks(section, |section|);
    if bs == [] then None else Collect(PageReadings(section, bs))
  }

  /** The whole parse as a function of the lines. */
  function Pages(lines: seq<string>): Option<seq<Ledger.Page>> {
    match Section(lines)
    case None => None
    case Some(section) => PagesIn(section)
  }

  /**
   * The workbook holds one sheet per account block, in order, exactly when the section and
   * at least one block exist, no block fails and the writer accepts every sheet name.
   */
  lemma {:induction false} PagesPerBlock(section: seq<string>)
    ensures var bs := Blocks(section, |section|);
      PagesIn(section).Some? <==> (bs != [] && forall k :: 0 <= k < |bs| ==>
        AccountOf(BlockLines(section, bs[k])).Some? && !TitleRefused(PageName(bs[k])))
    ensures var bs := Blocks(section, |section|);
      PagesIn(section).Some? ==> (|PagesIn(section).value| == |bs|
        && forall k :: 0 <= k < |bs| ==> PageFor(section, bs[k]) == Some(PagesIn(section).value[k]))
  {
    var bs := Blocks(section, |section|);
    if bs != [] {
      CollectAll(PageReadings(section, bs));
    }
  }

  /** The sheets of a section, block by block. */
  method ReadSection(section: seq<string>) returns (pages: Option<seq<Ledger.Page>>)
    ensures pages == PagesIn(section)
  {
    var bs := FindBlocks(section);
    if bs == [] {
      return None;
    }
    ghost var xs := PageReadings(section, bs);
    var ps: seq<Ledger.Page> := [];
    for i := 0 to |bs|
      invariant Collect(xs[..i]) == Some(ps)
    {
      CollectSnoc(xs, i);
      var a := ReadAccount(BlockLines(section, bs[i]));
      if a.None? || TitleRefused(PageName(bs[i])) {
        CollectAll(xs);
        return None;
      }
      ps := ps + [PageOf(bs[i], a.value)];
    }
    assert xs[..|bs|] == xs;
    pages := Some(ps);
  }

  /** The whole parser. */
  method Process(lines: seq<string>) returns (pages: Option<seq<Ledger.Page>>)
    ensures pages == Pages(lines)
  {
    var start := FindFirst(lines, SectionStart);
    var end := FindFirst(lines, SectionEnd);
    if start.None? || end.None? {
      return None;
    }
    pages := ReadSection(Sub(lines, start.value + 1, end.value));
  }

  /** `next(i for i, line in enumerate(lines) if key in line)`. */
  method FindFirst(lines: seq<string>, key: string) returns (r: Option<nat>)
    ensures r == FirstIn(lines, [key], 0, |lines|)
  {
    var x := 0;
    while x < |lines|
      invariant x <= |lines| && FirstIn(lines, [key], 0, x).None?
    {
      if Contains(lines[x], key) {
        assert Contains(lines[x], [key][0]);
        FirstInExtends(lines, [key], 0, x + 1, |lines|);
        return Some(x);
      }
      assert forall k | 0 <= k < 1 :: [key][k] == key;
      x := x + 1;
    }
    return None;
  }
}
