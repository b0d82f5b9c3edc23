/**
 * The Mercado Pago account statement (mercadopago.py).
 *
 * A movement starts on a line whose first `dd-mm-yyyy` date lies within its first 20
 * characters; the text before the date is dropped, and the following lines are merged in
 * until the text holds a `$` amount. The numbers of the merged text are re-assembled into
 * Argentine amounts; the second to last is the movement's amount (the only one when there
 * is just one), negative when `$ -` comes right before it. The opening and closing
 * balances come from the `Saldo inicial:` and `Saldo final:` lines; without both there is
 * no sheet.
 */
module Mercadopago {
  import opened Optional
  import opened Text
  import opened Amounts
  import Ledger

  // ---------------------------------------------------------------------------
  // Sheet names

  /** The characters a sheet name cannot hold. */
  const Forbidden: seq<char> := ['\\', '/', '*', '[', ']', ':', '?']

  /** `s` with every character of `Forbidden[..n]` replaced by `_`. */
  function Replaced(s: string, n: nat): (r: string)
    requires n <= |Forbidden|
    ensures |r| == |s|
  {
    seq(|s|, i requires 0 <= i < |s| => if s[i] in Forbidden[..n] then '_' else s[i])
  }

  /** A valid sheet name: every forbidden character replaced by `_`, then cut to 31 characters. */
  function SheetName(s: string): string {
    Slice(Replaced(s, |Forbidden|), 0, 31)
  }

  /** Cleans a sheet name with one replacement pass per forbidden character, then the cut. */
  method CleanSheetName(name: string) returns (r: string)
    ensures r == SheetName(name)
  {
    r := name;
    for j := 0 to |Forbidden|
      invariant r == Replaced(name, j)
    {
      assert Forbidden[..j + 1] == Forbidden[..j] + [Forbidden[j]];
      r := ReplaceChar(r, Forbidden[j], '_');
    }
    if |r| > 31 {
      r := r[..31];
    }
  }

  /** A cleaned name has at most 31 characters and none of the forbidden ones. */
  lemma SheetNameValid(s: string)
    ensures |SheetName(s)| <= 31
    ensures forall i :: 0 <= i < |SheetName(s)| ==> SheetName(s)[i] !in Forbidden
  {
    assert Forbidden[..|Forbidden|] == Forbidden;
  }

  /** A name that is already valid is kept as it is. */
  lemma SheetNameKeepsValid(s: string)
    requires |s| <= 31 && forall i :: 0 <= i < |s| ==> s[i] !in Forbidden
    ensures SheetName(s) == s
  {
    assert Forbidden[..|Forbidden|] == Forbidden;
    assert Replaced(s, |Forbidden|) == s;
  }

  /** Cleaning a name twice is cleaning it once. */
  lemma SheetNameIdempotent(s: string)
    ensures SheetName(SheetName(s)) == SheetName(s)
  {
    SheetNameValid(s);
    SheetNameKeepsValid(SheetName(s));
  }

  /** The sheet title: the CVU when there is one, else `MercadoPago` and the holder's first 15 characters. */
  function SheetTitle(cvu: Option<string>, holder: Option<string>): (t: string)
    ensures cvu.Some? && cvu.value != [] ==> t == cvu.value
  {
    if cvu.Some? && cvu.value != [] then cvu.value
    else if holder.Some? && holder.value != [] then "MercadoPago " + Slice(holder.value, 0, 15)
    else "MercadoPago Cuenta"
  }

  // ---------------------------------------------------------------------------
  // Reading an amount text: `convertir_a_numerico`

  predicate IsMinus(c: char) {
    c == '-'
  }

  /** The first two pieces `s.split(",")` gives, for a text holding a comma. */
  function CommaParts(s: string): (string, string)
    requires IndexOf(s, ',') >= 0
  {
    var c := IndexOf(s, ',');
    var rest := s[c + 1..];
    var d := IndexOf(rest, ',');
    (s[..c], if d < 0 then rest else rest[..d])
  }

  /** The plain decimal literal handed to `float()`: points dropped, the first comma as the decimal point. */
  function DecimalText(body: string): string {
    if IndexOf(body, ',') >= 0 then
      var parts := CommaParts(body);
      RemoveChar(parts.0, '.') + "." + parts.1
    else RemoveChar(body, '.')
  }

  /**
   * The value of an amount text, in cents: zero when empty; negative after a leading
   * minus; points are thousands separators and the first comma is the decimal mark; zero
   * when `float()` rejects what is left.
   */
  function ToNumber(s: string): int {
    if s == [] then 0
    else
      var t := Strip(s);
      var v := ParseDecimal(DecimalText(Strip(LTrim(t, IsMinus)))).GetOr(0);
      if StartsWith(t, "-") then -v else v
  }

  /** A text that starts and ends with a digit is not changed by stripping. */
  lemma StripDigits(t: string)
    requires t != [] && IsDigit(t[0]) && IsDigit(t[|t| - 1])
    ensures Strip(t) == t && LTrim(t, IsMinus) == t
  {
    StripNoop(t);
    assert DropFrom(t, IsMinus, 0) == 0;
  }

  /** A leading minus is taken off before the number is read. */
  lemma MinusTaken(t: string)
    requires t != [] && IsDigit(t[0]) && IsDigit(t[|t| - 1])
    ensures Strip("-" + t) == "-" + t && LTrim("-" + t, IsMinus) == t
  {
    var s := "-" + t;
    StripNoop(s);
    assert DropFrom(s, IsMinus, 1) == 1;
    assert DropFrom(s, IsMinus, 0) == 1;
    assert s[1..] == t;
  }

  /** A text of digits and separators that starts and ends with a digit reads as its decimal literal, and with a minus as its opposite. */
  lemma Unsigned(t: string)
    requires t != [] && IsDigit(t[0]) && IsDigit(t[|t| - 1])
    ensures ToNumber(t) == ParseDecimal(DecimalText(t)).GetOr(0)
    ensures ToNumber("-" + t) == -ToNumber(t)
  {
    StripDigits(t);
    MinusTaken(t);
    assert !StartsWith(t, "-");
    assert StartsWith("-" + t, "-");
  }

  /** The decimal literal of an Argentine literal `1.234,56` is `1234.56`. */
  lemma ArDecimalText(t: string)
    requires IsArLiteral(t)
    ensures DecimalText(t) == RemoveChar(t[..|t| - 3], '.') + "." + t[|t| - 2..]
  {
    var g, f := t[..|t| - 3], t[|t| - 2..];
    assert t == g + "," + f;
    GroupedDigitsOnly(g, '.');
    IndexOfAfter(g, ',', f);
    assert t[..|g|] == g && t[|g| + 1..] == f;
    IndexOfAbsent(f, ',');
    assert CommaParts(t) == (g, f);
  }

  /** An Argentine literal `1.234,56` reads as `float("1234.56")`, and with a minus as its opposite. */
  lemma ArLiteralNumber(t: string)
    requires IsArLiteral(t)
    ensures ParseArPlain(t).Some? && ToNumber(t) == ParseArPlain(t).value
    ensures ToNumber("-" + t) == -ToNumber(t)
  {
    var g, f := t[..|t| - 3], t[|t| - 2..];
    var d := RemoveChar(g, '.') + "." + f;
    ArEnds(t);
    Unsigned(t);
    assert DecimalText(t) == d by {
      ArDecimalText(t);
    }
    ArPlainDecimal(t);
    assert ParseArPlain(t).Some? by {
      ArLiteralValue(t);
    }
  }

  /** Reading an Argentine literal the plain way goes through the same decimal literal. */
  lemma ArPlainDecimal(t: string)
    requires IsArLiteral(t)
    ensures ParseArPlain(t) == ParseDecimal(RemoveChar(t[..|t| - 3], '.') + "." + t[|t| - 2..])
  {
    var g, f := t[..|t| - 3], t[|t| - 2..];
    assert t == g + "," + f;
    GroupedDigitsOnly(g, '.');
    ArRewrite(g, f);
  }

  /** An Argentine literal starts and ends with a digit. */
  lemma ArEnds(t: string)
    requires IsArLiteral(t)
    ensures IsDigit(t[0]) && IsDigit(t[|t| - 1])
  {
    var g := t[..|t| - 3];
    GroupedEnds(g, '.');
    assert t[0] == g[0];
    assert t[|t| - 1] == t[|t| - 2..][1];
  }

  /** A grouped integer without a comma reads with every point dropped: `1.400` is 1400. */
  lemma GroupedNumber(g: string)
    requires IsGrouped(g, '.')
    ensures RemoveChar(g, '.') != [] && AllDigits(RemoveChar(g, '.'))
    ensures ToNumber(g) == DigitsValue(RemoveChar(g, '.')) * 100
    ensures ToNumber("-" + g) == -ToNumber(g)
  {
    GroupedEnds(g, '.');
    Unsigned(g);
    GroupedRemoved(g, '.');
    GroupedDecimalText(g);
    WholeNumber(RemoveChar(g, '.'));
  }

  /** A grouped integer has no comma, so its decimal literal is its digits. */
  lemma GroupedDecimalText(g: string)
    requires IsGrouped(g, '.')
    ensures DecimalText(g) == RemoveChar(g, '.')
  {
    GroupedDigitsOnly(g, '.');
    IndexOfAbsent(g, ',');
  }

  /** A run of digits reads as a whole number. */
  lemma WholeNumber(d: string)
    requires d != [] && AllDigits(d)
    ensures ParseDecimal(d).Some? && ParseDecimal(d).value == DigitsValue(d) * 100
  {
    IndexOfAbsent(d, '.');
    assert DecimalParts(d) == (d, "");
    ParseUnsigned(d);
    assert DigitsValue("") == 0;
  }

  /** The canonical Argentine literal of an amount reads back as that amount, and with a minus as its opposite. */
  lemma NumberRoundTrip(c: nat)
    ensures ToNumber(FormatAr(c)) == c && ToNumber("-" + FormatAr(c)) == -(c as int)
  {
    ArFormatShape(c);
    ArRoundTrip(c);
    ArLiteralNumber(FormatAr(c));
  }

  /** Text `float()` cannot read counts as zero. */
  lemma UnreadableIsZero(s: string)
    requires s != [] && ParseDecimal(DecimalText(Strip(LTrim(Strip(s), IsMinus)))).None?
    ensures ToNumber(s) == 0
  {
  }

  // ---------------------------------------------------------------------------
  // Amounts rebuilt from the number fragments of a text

  predicate IsNumberChar(c: char) {
    IsDigit(c) || c == '.' || c == ','
  }

  /** A non-empty run of digits, points and commas. */
  predicate IsNumberText(f: string) {
    f != [] && forall i :: 0 <= i < |f| ==> IsNumberChar(f[i])
  }

  /** `re.findall(r"[\d.,]+", s)`: the runs of digits, points and commas, in order. */
  function Fragments(s: string): (r: seq<string>)
    decreases |s|
    ensures forall k :: 0 <= k < |r| ==> IsNumberText(r[k])
  {
    if s == [] then []
    else if IsNumberChar(s[0]) then
      var e := DropFrom(s, IsNumberChar, 0);
      [s[..e]] + Fragments(s[e..])
    else Fragments(s[1..])
  }

  /** `^\d{1,3}(?:\.\d{3})*(?:,\d{2})?$`: an Argentine amount, with or without decimals. */
  predicate IsAmountText(f: string) {
    IsGrouped(f, '.') || IsArLiteral(f)
  }

  /** `^\d{2}$`. */
  predicate IsCents(f: string) {
    |f| == 2 && AllDigits(f)
  }

  /** A fragment ending in a comma joined with the two digits that follow it. */
  predicate IsJoinedAmount(a: string) {
    |a| >= 3 && a[|a| - 3] == ',' && IsCents(a[|a| - 2..])
  }

  /**
   * The amounts rebuilt from the fragments: a fragment ending in a comma takes a following
   * two-digit fragment as its decimals; any other fragment is kept only when it is an amount.
   */
  function Rebuild(frags: seq<string>): seq<string> {
    if frags == [] then []
    else if EndsWith(frags[0], ",") && |frags| >= 2 && IsCents(frags[1]) then
      [frags[0] + frags[1]] + Rebuild(frags[2..])
    else (if IsAmountText(frags[0]) then [frags[0]] else []) + Rebuild(frags[1..])
  }

  /** A fragment ending in a comma takes the two digits after it as decimals. */
  lemma RebuildPair(frags: seq<string>, i: nat)
    requires i + 1 < |frags| && EndsWith(frags[i], ",") && IsCents(frags[i + 1])
    ensures Rebuild(frags[i..]) == [frags[i] + frags[i + 1]] + Rebuild(frags[i + 2..])
  {
    assert frags[i..][2..] == frags[i + 2..];
  }

  /** Any other fragment is kept when it is an amount and dropped otherwise. */
  lemma RebuildSingle(frags: seq<string>, i: nat)
    requires i < |frags| && !(EndsWith(frags[i], ",") && i + 1 < |frags| && IsCents(frags[i + 1]))
    ensures Rebuild(frags[i..]) == (if IsAmountText(frags[i]) then [frags[i]] else []) + Rebuild(frags[i + 1..])
  {
    assert frags[i..][1..] == frags[i + 1..];
  }

  /** Concatenation regroups. */
  lemma Regroup(a: seq<string>, b: seq<string>, c: seq<string>)
    ensures a + b + c == a + (b + c)
  {
  }

  /** Rebuilds the amounts with a cursor over the fragments. */
  method ValidAmounts(frags: seq<string>) returns (ms: seq<string>)
    ensures ms == Rebuild(frags)
  {
    ms := [];
    var i := 0;
    assert frags[0..] == frags;
    while i < |frags|
      invariant 0 <= i <= |frags|
      invariant ms + Rebuild(frags[i..]) == Rebuild(frags)
    {
      var f := frags[i];
      if EndsWith(f, ",") && i + 1 < |frags| && IsCents(frags[i + 1]) {
        var joined := f + frags[i + 1];
        RebuildPair(frags, i);
        Regroup(ms, [joined], Rebuild(frags[i + 2..]));
        ms := ms + [joined];
        i := i + 2;
      } else {
        var kept := if IsAmountText(f) then [f] else [];
        RebuildSingle(frags, i);
        Regroup(ms, kept, Rebuild(frags[i + 1..]));
        ms := ms + kept;
        i := i + 1;
      }
    }
    assert frags[i..] == [];
  }

  /** A rebuilt amount: digits, points and commas, in the shape of an amount or of a comma fragment joined with two decimals. */
  predicate Rebuilt(a: string) {
    IsNumberText(a) && (IsAmountText(a) || IsJoinedAmount(a))
  }

  /** Every amount rebuilt from number fragments is an Argentine amount or a comma fragment joined with its two decimals. */
  lemma {:induction false} RebuildShape(frags: seq<string>)
    requires forall k :: 0 <= k < |frags| ==> IsNumberText(frags[k])
    ensures forall k :: 0 <= k < |Rebuild(frags)| ==> Rebuilt(Rebuild(frags)[k])
  {
    if frags != [] {
      if EndsWith(frags[0], ",") && |frags| >= 2 && IsCents(frags[1]) {
        RebuildShape(frags[2..]);
        var a := frags[0] + frags[1];
        assert a[|a| - 3] == frags[0][|frags[0]| - 1] && a[|a| - 2..] == frags[1];
        assert IsNumberText(a) by {
          forall i | 0 <= i < |a|
            ensures IsNumberChar(a[i])
          {
            if i < |frags[0]| {
              assert a[i] == frags[0][i];
            } else {
              assert a[i] == frags[1][i - |frags[0]|];
            }
          }
        }
      } else {
        RebuildShape(frags[1..]);
      }
    }
  }

  /** An amount never ends in a comma. */
  lemma AmountEndsInDigit(f: string)
    requires IsAmountText(f)
    ensures f != [] && IsDigit(f[|f| - 1]) && !EndsWith(f, ",")
  {
    if IsGrouped(f, '.') {
      GroupedEnds(f, '.');
    }
  }

  /** Fragments that are all amounts are kept as they are. */
  lemma {:induction false} RebuildKeepsAmounts(frags: seq<string>)
    requires forall k :: 0 <= k < |frags| ==> IsAmountText(frags[k])
    ensures Rebuild(frags) == frags
  {
    if frags != [] {
      AmountEndsInDigit(frags[0]);
      RebuildKeepsAmounts(frags[1..]);
    }
  }

  /** A fragment ending in a comma and a two-digit fragment after it make one amount. */
  lemma RebuildJoins(a: string, b: string, rest: seq<string>)
    requires EndsWith(a, ",") && IsCents(b)
    ensures Rebuild([a, b] + rest) == [a + b] + Rebuild(rest)
  {
    assert ([a, b] + rest)[2..] == rest;
  }

  // ---------------------------------------------------------------------------
  // The date's numbers among the amounts

  /** `\d{2}-\d{2}-\d{4}` at the start of a text, ending there or followed by a non-number character. */
  predicate LeadingDate(s: string) {
    DateAt(s, 0, '-', 4) && (|s| == 10 || !IsNumberChar(s[10]))
  }

  /** The fragments of a text that starts with a date are its day, month and year, then those of the rest. */
  lemma DateFragments(s: string)
    requires LeadingDate(s)
    ensures Fragments(s) == [s[..2], s[3..5], s[6..10]] + Fragments(s[10..])
  {
    var s2, s3, s5, s6 := s[2..], s[3..], s[5..], s[6..];
    assert DropFrom(s6, IsNumberChar, 4) == 4;
    assert DropFrom(s6, IsNumberChar, 0) == 4;
    assert s6[..4] == s[6..10] && s6[4..] == s[10..];
    assert Fragments(s6) == [s[6..10]] + Fragments(s[10..]);
    assert s5[1..] == s6;
    assert Fragments(s5) == Fragments(s6);
    assert DropFrom(s3, IsNumberChar, 2) == 2;
    assert DropFrom(s3, IsNumberChar, 0) == 2;
    assert s3[..2] == s[3..5] && s3[2..] == s5;
    assert Fragments(s3) == [s[3..5]] + Fragments(s5);
    assert s2[1..] == s3;
    assert Fragments(s2) == Fragments(s3);
    assert DropFrom(s, IsNumberChar, 2) == 2;
    assert DropFrom(s, IsNumberChar, 0) == 2;
    assert Fragments(s) == [s[..2]] + Fragments(s2);
  }

  /** As written: the day and month of the leading date always pass as amounts. */
  lemma DateAmounts(s: string)
    requires LeadingDate(s)
    ensures Rebuild(Fragments(s)) == [s[..2], s[3..5]] + Rebuild(Fragments(s[10..]))
  {
    DateFragments(s);
    DateNumbers(s);
    RebuildThree(s[..2], s[3..5], s[6..10], Fragments(s[10..]));
  }

  /** The day and month of a date are amounts; its year is not; none ends in a comma. */
  lemma DateNumbers(s: string)
    requires LeadingDate(s)
    ensures IsAmountText(s[..2]) && IsAmountText(s[3..5]) && !IsAmountText(s[6..10])
    ensures !EndsWith(s[..2], ",") && !EndsWith(s[3..5], ",") && !EndsWith(s[6..10], ",")
  {
    assert IsGrouped(s[..2], '.') && IsGrouped(s[3..5], '.');
    AmountEndsInDigit(s[..2]);
    AmountEndsInDigit(s[3..5]);
    assert !IsGrouped(s[6..10], '.') && !IsArLiteral(s[6..10]);
  }

  /** Two amounts and a non-amount, none ending in a comma, rebuild to the two amounts. */
  lemma RebuildThree(a: string, b: string, c: string, rest: seq<string>)
    requires IsAmountText(a) && IsAmountText(b) && !IsAmountText(c)
    requires !EndsWith(a, ",") && !EndsWith(b, ",") && !EndsWith(c, ",")
    ensures Rebuild([a, b, c] + rest) == [a, b] + Rebuild(rest)
  {
    RebuildCons(c, rest);
    RebuildCons(b, [c] + rest);
    assert [b] + ([c] + rest) == [b, c] + rest;
    RebuildCons(a, [b, c] + rest);
    assert [a] + ([b, c] + rest) == [a, b, c] + rest;
  }

  /** A fragment that does not end in a comma is kept when it is an amount and dropped otherwise. */
  lemma RebuildCons(f: string, rest: seq<string>)
    requires !EndsWith(f, ",")
    ensures Rebuild([f] + rest) == (if IsAmountText(f) then [f] else []) + Rebuild(rest)
  {
    assert ([f] + rest)[1..] == rest;
  }

  /**
   * As written, a movement text with a single amount after its date still has at least
   * three amounts, and the one taken is the date's month.
   */
  lemma MonthTakenAsAmount(s: string, a: string)
    requires LeadingDate(s) && Rebuild(Fragments(s[10..])) == [a]
    ensures |Rebuild(Fragments(s))| == 3 && Chosen(Rebuild(Fragments(s))) == s[3..5]
  {
    DateAmounts(s);
  }

  /** The amounts of a movement text, found after its date. */
  function AmountsAfterDate(text: string): seq<string> {
    Rebuild(Fragments(From(text, 10)))
  }

  /** Counting only the amounts after the date, a single amount is the one taken. */
  lemma SingleAmountTaken(s: string, a: string)
    requires LeadingDate(s) && Rebuild(Fragments(s[10..])) == [a]
    ensures AmountsAfterDate(s) == [a] && Chosen(AmountsAfterDate(s)) == a
  {
  }

  /** With two or more amounts after the date, the date's numbers do not change the amount taken. */
  lemma DateDoesNotMatter(s: string)
    requires LeadingDate(s) && |AmountsAfterDate(s)| >= 2
    ensures Chosen(Rebuild(Fragments(s))) == Chosen(AmountsAfterDate(s))
  {
    DateAmounts(s);
    assert From(s, 10) == s[10..];
    ChosenAfter([s[..2], s[3..5]], AmountsAfterDate(s));
  }

  /** Amounts put in front of two or more others do not change the one taken. */
  lemma ChosenAfter(front: seq<string>, ms: seq<string>)
    requires |ms| >= 2
    ensures Chosen(front + ms) == Chosen(ms)
  {
    assert (front + ms)[|front + ms| - 2] == ms[|ms| - 2];
  }

  /** The amount a movement takes: the second to last of two or more, the only one of one. */
  function Chosen(ms: seq<string>): string
    requires ms != []
  {
    if |ms| >= 2 then ms[|ms| - 2] else ms[0]
  }

  // ---------------------------------------------------------------------------
  // Where a movement starts and where its text ends

  /** The leftmost `dd-dd-dddd` date at or after `p`. */
  function DateFrom(s: string, p: nat): (r: Option<nat>)
    requires p <= |s|
    decreases |s| - p
    ensures r.Some? ==> p <= r.value && DateAt(s, r.value, '-', 4)
    ensures r.Some? ==> forall q :: p <= q < r.value ==> !DateAt(s, q, '-', 4)
    ensures r.None? ==> forall q :: p <= q <= |s| ==> !DateAt(s, q, '-', 4)
  {
    if DateAt(s, p, '-', 4) then Some(p)
    else if p == |s| then None
    else DateFrom(s, p + 1)
  }

  /** `\$\s*-?[\d,]+` at `p`: a dollar sign, spaces, an optional minus, then a digit or a comma. */
  predicate AmountMarkAt(s: string, p: nat) {
    CharAt(s, p, '$')
    && var q := SpaceEnd(s, p + 1);
    var r := if CharAt(s, q, '-') then q + 1 else q;
    r < |s| && (IsDigit(s[r]) || s[r] == ',')
  }

  /** The leftmost `$` amount at or after `p`. */
  function AmountFrom(s: string, p: nat): (r: Option<nat>)
    requires p <= |s|
    decreases |s| - p
    ensures r.Some? ==> p <= r.value < |s| && AmountMarkAt(s, r.value)
    ensures r.None? ==> forall q :: p <= q < |s| ==> !AmountMarkAt(s, q)
  {
    if p == |s| then None
    else if AmountMarkAt(s, p) then Some(p)
    else AmountFrom(s, p + 1)
  }

  /** The text holds a `$` amount somewhere. */
  predicate HasAmount(s: string) {
    AmountFrom(s, 0).Some?
  }

  /** `^\d+/\d+\s*Fecha`: the column heading repeated at the top of a page. */
  predicate IsPageHeading(l: string) {
    var a := DigitEnd(l, 0);
    a > 0 && CharAt(l, a, '/')
    && var b := DigitEnd(l, a + 1);
    b > a + 1 && OccursAt(l, "Fecha", SpaceEnd(l, b))
  }

  // `^\d+\s*/\s*\d+$`: a page number such as `2 / 6`.
  predicate IsPageNumber(l: string) {
    var a := DigitEnd(l, 0);
    a > 0
    && var b := SpaceEnd(l, a);
    CharAt(l, b, '/')
    && var c := SpaceEnd(l, b + 1);
    var d := DigitEnd(l, c);
    d > c && d == |l|
  }

  predicate IsPageHeader(l: string) {
    IsPageHeading(l) || IsPageNumber(l)
  }

  /**
   * A stripped line with the tests the scan makes on it: whether it is a page header, where
   * its first `dd-dd-dddd` date begins, and the statement fields it holds.
   */
  datatype Row = Row(text: string, header: bool, date: Option<nat>, fields: Fields)

  /** The row of line `lines[k]`; the line above it decides whether it may name the holder. */
  function RowOf(lines: seq<string>, k: nat): (w: Row)
    requires k < |lines|
    ensures w.text == Strip(lines[k]) && Stripped(w.text) && FieldsOk(w.fields)
    ensures w.header == IsPageHeader(w.text) && w.date == DateFrom(w.text, 0)
    ensures w.date.Some? ==> w.date.value <= |w.text|
    ensures w.fields == FieldsOf(if k > 0 then lines[k - 1] else "", k > 0, w.text)
  {
    var t := Strip(lines[k]);
    Row(t, IsPageHeader(t), DateFrom(t, 0), FieldsOf(if k > 0 then lines[k - 1] else "", k > 0, t))
  }

  /** The rows of every line. */
  function RowsOf(lines: seq<string>): (ws: seq<Row>)
    ensures |ws| == |lines| && forall k :: 0 <= k < |lines| ==> ws[k] == RowOf(lines, k)
  {
    seq(|lines|, k requires 0 <= k < |lines| => RowOf(lines, k))
  }

  /** Every row's text is stripped and its fields are values of their kind. */
  predicate RowsOk(rows: seq<Row>) {
    forall k :: 0 <= k < |rows| ==>
      Stripped(rows[k].text) && FieldsOk(rows[k].fields) && (rows[k].date.Some? ==> rows[k].date.value <= |rows[k].text|)
  }

  /** A row starts a movement when its first date begins within its first 20 characters. */
  predicate Starts(w: Row) {
    w.date.Some? && w.date.value < 20
  }

  /** What a following row adds to a movement's text: nothing for a page header, else a space and the line. */
  function Piece(w: Row): string {
    if w.header then "" else " " + w.text
  }

  /** The text `first` followed by the pieces of `rows[lo..hi]`, in order. */
  function Merged(rows: seq<Row>, first: string, lo: nat, hi: nat): string
    requires lo <= hi <= |rows|
    decreases hi
  {
    if hi == lo then first else Merged(rows, first, lo, hi - 1) + Piece(rows[hi - 1])
  }

  /** How many of `rows[lo..hi]` are not page headers: the lines the merge counts. */
  function Counted(rows: seq<Row>, lo: nat, hi: nat): (n: nat)
    requires lo <= hi <= |rows|
    decreases hi
    ensures n <= hi - lo
  {
    if hi == lo then 0 else Counted(rows, lo, hi - 1) + (if rows[hi - 1].header then 0 else 1)
  }

  /** The merge goes on past `rows[i]`: no amount yet, fewer than 20 lines added, and the next row does not start a movement. */
  predicate MergeGoesOn(rows: seq<Row>, text: string, extra: nat, i: nat) {
    !HasAmount(text) && extra < 20 && i + 1 < |rows| && (rows[i + 1].header || !Starts(rows[i + 1]))
  }

  /**
   * The merge from `rows[i]` on, with `text` merged and `extra` lines added so far: the
   * merged text, the index of the last row used and the number of lines added.
   */
  function MergeRun(rows: seq<Row>, text: string, extra: nat, i: nat): (r: (string, nat, nat))
    requires i < |rows|
    decreases |rows| - i
    ensures i <= r.1 < |rows| && extra <= r.2
  {
    if MergeGoesOn(rows, text, extra, i) then
      var w := rows[i + 1];
      MergeRun(rows, if w.header then text else text + " " + w.text, if w.header then extra else extra + 1, i + 1)
    else (text, i, extra)
  }

  /**
   * From a state the merge of `first` after `rows[i0]` reaches, the merge ends with the
   * pieces of every row it used.
   */
  lemma {:induction false} MergeRunShape(rows: seq<Row>, i0: nat, first: string, text: string, extra: nat, i: nat)
    requires i0 <= i < |rows| && text == Merged(rows, first, i0 + 1, i + 1)
    decreases |rows| - i
    ensures var r := MergeRun(rows, text, extra, i);
      r.0 == Merged(rows, first, i0 + 1, r.1 + 1)
  {
    if MergeGoesOn(rows, text, extra, i) {
      var w := rows[i + 1];
      assert Merged(rows, first, i0 + 1, i + 2) == text + Piece(w);
      if w.header {
        assert text + Piece(w) == text;
      } else {
        assert text + Piece(w) == text + " " + w.text;
      }
      MergeRunShape(rows, i0, first, if w.header then text else text + " " + w.text,
        if w.header then extra else extra + 1, i + 1);
    }
  }

  /** From a state the merge after `rows[i0]` reaches, the merge ends with the count of the lines it added. */
  lemma {:induction false} MergeRunCount(rows: seq<Row>, i0: nat, text: string, extra: nat, i: nat)
    requires i0 <= i < |rows| && extra == Counted(rows, i0 + 1, i + 1)
    decreases |rows| - i
    ensures var r := MergeRun(rows, text, extra, i);
      r.2 == Counted(rows, i0 + 1, r.1 + 1)
  {
    if MergeGoesOn(rows, text, extra, i) {
      var w := rows[i + 1];
      MergeRunCount(rows, i0, if w.header then text else text + " " + w.text, if w.header then extra else extra + 1, i + 1);
    }
  }

  /** The merge stops for a reason, having added at most 20 lines. */
  lemma {:induction false} MergeRunStops(rows: seq<Row>, text: string, extra: nat, i: nat)
    requires i < |rows| && extra <= 20
    decreases |rows| - i
    ensures var r := MergeRun(rows, text, extra, i);
      r.2 <= 20 && !MergeGoesOn(rows, r.0, r.2, r.1)
  {
    if MergeGoesOn(rows, text, extra, i) {
      var w := rows[i + 1];
      MergeRunStops(rows, if w.header then text else text + " " + w.text, if w.header then extra else extra + 1, i + 1);
    }
  }

  /** Every row the merge passes over is a page header or does not start a movement. */
  lemma {:induction false} MergeRunPasses(rows: seq<Row>, text: string, extra: nat, i: nat, k: nat)
    requires i < |rows| && i < k <= MergeRun(rows, text, extra, i).1
    decreases |rows| - i
    ensures rows[k].header || !Starts(rows[k])
  {
    assert MergeGoesOn(rows, text, extra, i);
    if k > i + 1 {
      var w := rows[i + 1];
      MergeRunPasses(rows, if w.header then text else text + " " + w.text, if w.header then extra else extra + 1, i + 1, k);
    }
  }

  /**
   * The merge of `first` with the rows after `rows[i0]`: its text is `first` followed by
   * every later non-header line it used, it adds at most 20 lines, every row it passes is a
   * page header or does not start a movement, and it stops at an amount, at 20 added
   * lines, at the last row or before a row that starts another movement.
   */
  lemma MergeOf(rows: seq<Row>, i0: nat, first: string)
    requires i0 < |rows|
    ensures var r := MergeRun(rows, first, 0, i0);
      r.0 == Merged(rows, first, i0 + 1, r.1 + 1) && r.2 == Counted(rows, i0 + 1, r.1 + 1) <= 20
      && (forall k :: i0 < k <= r.1 ==> rows[k].header || !Starts(rows[k]))
      && (HasAmount(r.0) || r.2 == 20 || r.1 + 1 == |rows| || (!rows[r.1 + 1].header && Starts(rows[r.1 + 1])))
  {
    MergeRunShape(rows, i0, first, first, 0, i0);
    MergeRunCount(rows, i0, first, 0, i0);
    MergeRunStops(rows, first, 0, i0);
    forall k | i0 < k <= MergeRun(rows, first, 0, i0).1
      ensures rows[k].header || !Starts(rows[k])
    {
      MergeRunPasses(rows, first, 0, i0, k);
    }
  }

  /**
   * Merges the rows after `rows[i0]` into the movement text `first` until it holds an
   * amount, 20 lines have been added, the rows run out or the next row starts another
   * movement; page headers are skipped. Returns the text and the index of the last row used.
   */
  method MergeLines(rows: seq<Row>, i0: nat, first: string) returns (text: string, i: nat)
    requires i0 < |rows|
    ensures i0 <= i < |rows| && text == MergeRun(rows, first, 0, i0).0 && i == MergeRun(rows, first, 0, i0).1
  {
    text := first;
    i := i0;
    var extra := 0;
    while !HasAmount(text) && extra < 20 && i + 1 < |rows| && (rows[i + 1].header || !Starts(rows[i + 1]))
      invariant i0 <= i < |rows|
      invariant extra <= 20 && MergeRun(rows, text, extra, i) == MergeRun(rows, first, 0, i0)
      decreases |rows| - i
    {
      var next := rows[i + 1];
      if !next.header {
        text := text + " " + next.text;
        extra := extra + 1;
      }
      i := i + 1;
    }
  }

  // ---------------------------------------------------------------------------
  // One movement

  /** `\$\s*-\s*$`: the text ends with a dollar sign and a minus, spaces allowed around the minus. */
  predicate EndsWithDollarMinus(t: string) {
    var u := RStrip(t);
    u != [] && u[|u| - 1] == '-'
    && var v := RStrip(u[..|u| - 1]);
    v != [] && v[|v| - 1] == '$'
  }

  /** The amount with a minus when `$ -` comes right before its first occurrence in the text. */
  function Signed(text: string, amount: string): (r: string)
    ensures r == amount || r == "-" + amount
    ensures r == "-" + amount <==> Find(text, amount) > 0 && EndsWithDollarMinus(text[..Find(text, amount)])
  {
    var p := Find(text, amount);
    if p > 0 && EndsWithDollarMinus(text[..p]) then "-" + amount else amount
  }

  /** A text without digits cannot hold an amount that starts with a digit. */
  lemma FirstAfter(pre: string, mark: string, a: string, post: string)
    requires forall i :: 0 <= i < |pre| ==> !IsDigit(pre[i])
    requires forall i :: 0 <= i < |mark| ==> !IsDigit(mark[i])
    requires a != [] && IsDigit(a[0])
    ensures Find(pre + mark + a + post, a) == |pre| + |mark|
  {
    var s := pre + mark + a + post;
    assert OccursAt(s, a, |pre| + |mark|) by {
      assert s[|pre| + |mark|..|pre| + |mark| + |a|] == a;
    }
    forall q | 0 <= q < |pre| + |mark|
      ensures !OccursAt(s, a, q)
    {
      assert !IsDigit(s[q]) by {
        if q < |pre| {
          assert s[q] == pre[q];
        } else {
          assert s[q] == mark[q - |pre|];
        }
      }
      if q + |a| <= |s| {
        assert s[q..q + |a|][0] == s[q];
      }
    }
  }

  /** An amount written after `$ -` is negative, one written after `$ ` is not. */
  lemma SignedAfterDollar(pre: string, a: string, post: string)
    requires forall i :: 0 <= i < |pre| ==> !IsDigit(pre[i])
    requires a != [] && IsDigit(a[0])
    ensures Signed(pre + "$ -" + a + post, a) == "-" + a
    ensures Signed(pre + "$ " + a + post, a) == a
  {
    SignedAfter(pre, "$ -", a, post);
    SignedAfter(pre, "$ ", a, post);
  }

  /** The sign an amount gets from the mark written just before it. */
  lemma SignedAfter(pre: string, mark: string, a: string, post: string)
    requires mark == "$ -" || mark == "$ "
    requires forall i :: 0 <= i < |pre| ==> !IsDigit(pre[i])
    requires a != [] && IsDigit(a[0])
    ensures Signed(pre + mark + a + post, a) == if mark == "$ -" then "-" + a else a
  {
    FirstAfter(pre, mark, a, post);
    var s := pre + mark + a + post;
    assert s[..|pre| + |mark|] == pre + mark;
    RStripEnds(pre, mark);
  }

  lemma RStripEnds(pre: string, mark: string)
    requires mark == "$ -" || mark == "$ "
    ensures EndsWithDollarMinus(pre + mark) <==> mark == "$ -"
  {
    if mark == "$ -" {
      EndsWithMinus(pre);
    } else {
      EndsWithSpace(pre);
    }
  }

  lemma EndsWithMinus(pre: string)
    ensures EndsWithDollarMinus(pre + "$ -")
  {
    var t := pre + "$ -";
    assert DropUntil(t, IsSpace, |t|) == |t|;
    var u := RStrip(t);
    assert u == t;
    var w := pre + "$ ";
    assert u[..|u| - 1] == w;
    assert DropUntil(w, IsSpace, |pre| + 1) == |pre| + 1;
    assert DropUntil(w, IsSpace, |pre| + 2) == |pre| + 1;
    assert RStrip(w)[|pre|] == '$';
  }

  lemma EndsWithSpace(pre: string)
    ensures !EndsWithDollarMinus(pre + "$ ")
  {
    var t := pre + "$ ";
    var u := RStrip(t);
    assert DropUntil(t, IsSpace, |t| - 1) == |t| - 1;
    assert DropUntil(t, IsSpace, |t|) == |t| - 1;
    assert u[|u| - 1] == '$';
  }

  /** Ten digits in a row starting at `p`: the operation's reference number. */
  function ReferenceFrom(s: string, p: nat): (r: Option<nat>)
    requires p <= |s|
    decreases |s| - p
    ensures r.Some? ==> p <= r.value && DigitsAt(s, r.value, 10)
    ensures r.Some? ==> forall q :: p <= q < r.value ==> !DigitsAt(s, q, 10)
    ensures r.None? ==> forall q :: p <= q <= |s| ==> !DigitsAt(s, q, 10)
  {
    if DigitsAt(s, p, 10) then Some(p)
    else if p == |s| then None
    else ReferenceFrom(s, p + 1)
  }

  /** The text holds no run of ten digits. */
  predicate NoReference(s: string) {
    forall q :: 0 <= q <= |s| ==> !DigitsAt(s, q, 10)
  }

  /** A slice of a text without a reference has none either. */
  lemma NoReferenceSlice(s: string, a: nat, b: nat)
    requires a <= b <= |s| && NoReference(s)
    ensures NoReference(s[a..b])
  {
    var t := s[a..b];
    forall q | 0 <= q <= |t|
      ensures !DigitsAt(t, q, 10)
    {
      if DigitsAt(t, q, 10) {
        assert DigitsAt(s, a + q, 10) by {
          forall i | a + q <= i < a + q + 10
            ensures IsDigit(s[i])
          {
            assert s[i] == t[i - a];
          }
        }
      }
    }
  }

  /** Stripping keeps a text free of references. */
  lemma NoReferenceStrip(s: string)
    requires NoReference(s)
    ensures NoReference(Strip(s))
  {
    var l := LStrip(s);
    assert s[|s| - |l|..|s|] == l;
    NoReferenceSlice(s, |s| - |l|, |s|);
    assert l[0..|RStrip(l)|] == RStrip(l);
    NoReferenceSlice(l, 0, |RStrip(l)|);
  }

  /** The text before the first reference holds none. */
  lemma NoReferenceBefore(s: string, p: nat)
    requires p <= |s| && forall q :: 0 <= q < p ==> !DigitsAt(s, q, 10)
    ensures NoReference(s[..p])
  {
    var t := s[..p];
    forall q | 0 <= q <= |t|
      ensures !DigitsAt(t, q, 10)
    {
      if DigitsAt(t, q, 10) {
        assert DigitsAt(s, q, 10) by {
          forall i | q <= i < q + 10
            ensures IsDigit(s[i])
          {
            assert s[i] == t[i];
          }
        }
      }
    }
  }

  predicate Stripped(s: string) {
    s == [] || (!IsSpace(s[0]) && !IsSpace(s[|s| - 1]))
  }

  /**
   * The description: the text after the date, up to its reference number and without a
   * trailing comma; with no reference, up to the amount and without the `$` before it; when
   * the amount is not found, the whole text after the date.
   */
  function Description(text: string, amount: string): (d: string)
    ensures Stripped(d) && NoReference(d)
  {
    var rest := Strip(From(text, 10));
    match ReferenceFrom(rest, 0)
    case Some(p) => BeforeReference(rest, p)
    case None =>
      if amount == [] then rest
      else
        var idx := Find(rest, Strip(RemoveChar(amount, '-')));
        if idx == -1 then rest
        else
          NoReferenceSlice(rest, 0, idx);
          BeforeAmount(rest[..idx])
  }

  /** The text before the reference at `p`, stripped and without a trailing comma. */
  function BeforeReference(rest: string, p: nat): (d: string)
    requires p <= |rest| && forall q :: 0 <= q < p ==> !DigitsAt(rest, q, 10)
    ensures Stripped(d) && NoReference(d)
  {
    NoReferenceBefore(rest, p);
    var d := Strip(rest[..p]);
    NoReferenceStrip(rest[..p]);
    if EndsWith(d, ",") then
      NoReferenceSlice(d, 0, |d| - 1);
      NoReferenceStrip(d[..|d| - 1]);
      Strip(d[..|d| - 1])
    else d
  }

  /** The text before the amount, stripped and without the `$` that ends it. */
  function BeforeAmount(sub: string): (d: string)
    requires NoReference(sub)
    ensures Stripped(d) && NoReference(d)
  {
    var t := Strip(sub);
    NoReferenceStrip(sub);
    if EndsWith(t, "$") then
      NoReferenceSlice(t, 0, |t| - 1);
      NoReferenceStrip(t[..|t| - 1]);
      Strip(t[..|t| - 1])
    else t
  }

  datatype Movement = Movement(date: string, description: string, amount: string)

  /** The shape of a movement's amount: an optional minus, then a rebuilt amount. */
  predicate AmountShape(a: string) {
    var b := if StartsWith(a, "-") then a[1..] else a;
    IsAmountText(b) || IsJoinedAmount(b)
  }

  /** A movement as the statement reads it: a date, a stripped description with no reference, a signed amount. */
  predicate MovementOk(m: Movement) {
    |m.date| == 10 && DateAt(m.date, 0, '-', 4) && Stripped(m.description) && NoReference(m.description)
    && AmountShape(m.amount)
  }

  /** `" ".join(s.split())`. */
  function Normalize(s: string): string {
    Join(Split(s), " ")
  }

  /**
   * The movement a merged text describes: its leading date, the amount chosen among those
   * after the date, signed, and the description; none without a leading date or an amount.
   */
  function MovementOf(text: string): (m: Option<Movement>)
    ensures m.Some? ==> MovementOk(m.value)
    ensures m.Some? ==> |text| >= 10 && m.value.date == text[..10] && AmountsAfterDate(text) != []
  {
    if !DateAt(text, 0, '-', 4) then None
    else
      var ms := AmountsAfterDate(text);
      RebuildShape(Fragments(From(text, 10)));
      if ms == [] then None
      else
        var amount := Signed(text, ChosenOk(ms));
        Some(Movement(text[..10], Description(text, amount), amount))
  }

  /** The chosen amount, with its shape. */
  function ChosenOk(ms: seq<string>): (a: string)
    requires ms != [] && forall k :: 0 <= k < |ms| ==> Rebuilt(ms[k])
    ensures a == Chosen(ms) && (IsAmountText(a) || IsJoinedAmount(a)) && !StartsWith(a, "-")
  {
    var a := Chosen(ms);
    assert Rebuilt(a);
    assert a[0] != '-';
    a
  }

  // ---------------------------------------------------------------------------
  // Labelled values: the CVU and the balances

  /** A labelled value: a run of number characters after a dollar sign, or a run of digits. */
  predicate IsValue(v: string, dollar: bool) {
    if dollar then IsNumberText(v) else v != [] && AllDigits(v)
  }

  /**
   * `key\s*\$\s*([\d,.]+)` (with `dollar`) or `key\s*(\d+)` (without) matched at `p`:
   * the captured value.
   */
  function ValueAt(s: string, key: string, dollar: bool, p: nat): (r: Option<string>)
    ensures r.Some? ==> IsValue(r.value, dollar)
  {
    if !OccursAt(s, key, p) then None
    else
      var q := SpaceEnd(s, p + |key|);
      if !dollar then RunFrom(s, IsDigit, q)
      else if !CharAt(s, q, '$') then None
      else RunFrom(s, IsNumberChar, SpaceEnd(s, q + 1))
  }

  /** The longest non-empty run of characters satisfying `keep` that starts at `p`. */
  function RunFrom(s: string, keep: char -> bool, p: nat): (r: Option<string>)
    requires p <= |s|
    ensures r.Some? ==> r.value != [] && forall i :: 0 <= i < |r.value| ==> keep(r.value[i])
  {
    var e := DropFrom(s, keep, p);
    if e == p then None
    else
      assert forall i :: 0 <= i < e - p ==> s[p..e][i] == s[p + i];
      Some(s[p..e])
  }

  /** Whether the labelled value matches, at each position of `s` and at its end. */
  function MatchesIn(s: string, key: string, dollar: bool): (ms: seq<bool>)
    ensures |ms| == |s| + 1 && forall q :: 0 <= q <= |s| ==> ms[q] == ValueAt(s, key, dollar, q).Some?
  {
    seq(|s| + 1, q requires 0 <= q <= |s| => ValueAt(s, key, dollar, q).Some?)
  }

  /** The leftmost position at or after `p` where a match is marked. */
  function FirstMatch(ms: seq<bool>, p: nat): (r: Option<nat>)
    requires p <= |ms|
    decreases |ms| - p
    ensures r.Some? ==> p <= r.value < |ms| && ms[r.value] && forall q :: p <= q < r.value ==> !ms[q]
    ensures r.None? ==> forall q :: p <= q < |ms| ==> !ms[q]
  {
    if p == |ms| then None
    else if ms[p] then Some(p)
    else FirstMatch(ms, p + 1)
  }

  /** `re.search` for a labelled value: the value of the leftmost match, if any. */
  function ValueIn(s: string, key: string, dollar: bool): (r: Option<string>)
    ensures r.Some? ==> IsValue(r.value, dollar)
    ensures r.None? <==> forall q :: 0 <= q <= |s| ==> ValueAt(s, key, dollar, q).None?
    ensures r.Some? ==> Contains(s, key)
  {
    var ms := MatchesIn(s, key, dollar);
    match FirstMatch(ms, 0)
    case Some(q) =>
      assert OccursAt(s, key, q);
      ValueAt(s, key, dollar, q)
    case None => None
  }

  /** A line `key $ v`, with `v` a number text, gives `v` as the balance. */
  lemma LabelledBalance(key: string, v: string)
    requires IsNumberText(v)
    ensures ValueIn(key + " $ " + v, key, true).Some? && ValueIn(key + " $ " + v, key, true).value == v
  {
    var s := key + " $ " + v;
    var k := |key|;
    assert OccursAt(s, key, 0) by {
      assert s[0..k] == key;
    }
    assert SpaceEnd(s, k + 1) == k + 1;
    assert SpaceEnd(s, k) == k + 1;
    assert SpaceEnd(s, k + 3) == k + 3 by {
      assert s[k + 3] == v[0];
    }
    assert SpaceEnd(s, k + 2) == k + 3;
    assert DropFrom(s, IsNumberChar, k + 3) == |s| by {
      NumberRun(s, k + 3);
    }
    assert s[k + 3..|s|] == v;
    assert ValueAt(s, key, true, 0) == Some(v);
    MatchAtStart(s, key, true);
  }

  /** A match at the start of the line is the one found. */
  lemma MatchAtStart(s: string, key: string, dollar: bool)
    requires ValueAt(s, key, dollar, 0).Some?
    ensures ValueIn(s, key, dollar) == ValueAt(s, key, dollar, 0)
  {
    var ms := MatchesIn(s, key, dollar);
    assert ms[0];
    assert FirstMatch(ms, 0) == Some(0);
  }

  /** Every character from `p` on is a number character, so the run from `p` reaches the end. */
  lemma {:induction false} NumberRun(s: string, p: nat)
    requires p <= |s| && forall i :: p <= i < |s| ==> IsNumberChar(s[i])
    ensures DropFrom(s, IsNumberChar, p) == |s|
    decreases |s| - p
  {
    if p < |s| {
      NumberRun(s, p + 1);
    }
  }

  /** A line `CVU: digits` gives the digits as the CVU. */
  lemma LabelledCvu(v: string)
    requires v != [] && AllDigits(v)
    ensures ValueIn("CVU: " + v, "CVU:", false).Some? && ValueIn("CVU: " + v, "CVU:", false).value == v
  {
    var s := "CVU: " + v;
    assert OccursAt(s, "CVU:", 0) by {
      assert s[0..4] == "CVU:";
    }
    assert SpaceEnd(s, 5) == 5 by {
      assert s[5] == v[0];
    }
    assert SpaceEnd(s, 4) == 5;
    assert DropFrom(s, IsDigit, 5) == |s| by {
      DigitRun(s, 5);
    }
    assert s[5..|s|] == v;
    assert ValueAt(s, "CVU:", false, 0) == Some(v);
    MatchAtStart(s, "CVU:", false);
  }

  lemma {:induction false} DigitRun(s: string, p: nat)
    requires p <= |s| && forall i :: p <= i < |s| ==> IsDigit(s[i])
    ensures DropFrom(s, IsDigit, p) == |s|
    decreases |s| - p
  {
    if p < |s| {
      DigitRun(s, p + 1);
    }
  }

  // ---------------------------------------------------------------------------
  // The statement and its sheet

  /** What the scan of a statement gathers. */
  datatype Statement = Statement(
    holder: Option<string>, cvu: Option<string>, opening: Option<string>, closing: Option<string>,
    movements: seq<Movement>)

  /** What the scan promises about what it gathers. */
  predicate StatementOk(st: Statement) {
    (forall k :: 0 <= k < |st.movements| ==> MovementOk(st.movements[k]))
    && (st.holder.Some? ==> st.holder.value != [] && Stripped(st.holder.value))
    && (st.cvu.Some? ==> IsValue(st.cvu.value, false))
    && (st.opening.Some? ==> IsValue(st.opening.value, true))
    && (st.closing.Some? ==> IsValue(st.closing.value, true))
  }

  /**
   * What a stripped line holds for the statement's fields: whether the line above holds
   * `RESUMEN DE CUENTA` (so the line may name the holder), the CVU after a leading `CVU:`,
   * and the balances after `Saldo inicial:` and `Saldo final:`.
   */
  datatype Fields = Fields(afterResumen: bool, cvu: Option<string>, opening: Option<string>, closing: Option<string>)

  /** The values a line holds are values of their kind. */
  predicate FieldsOk(fl: Fields) {
    (fl.cvu.Some? ==> IsValue(fl.cvu.value, false))
    && (fl.opening.Some? ==> IsValue(fl.opening.value, true))
    && (fl.closing.Some? ==> IsValue(fl.closing.value, true))
  }

  /**
   * The fields of `line`, with `above` the line before it when there is one. A balance found
   * by `ValueIn` implies its label is in the line, so the label test before each balance
   * search is implied by the search itself.
   */
  function FieldsOf(above: string, hasAbove: bool, line: string): (fl: Fields)
    ensures FieldsOk(fl)
    ensures fl.afterResumen <==> hasAbove && Contains(above, "RESUMEN DE CUENTA")
    ensures fl.cvu == if StartsWith(line, "CVU:") then ValueIn(line, "CVU:", false) else None
    ensures fl.opening == ValueIn(line, "Saldo inicial:", true) && fl.closing == ValueIn(line, "Saldo final:", true)
  {
    Fields(hasAbove && Contains(above, "RESUMEN DE CUENTA"),
           if StartsWith(line, "CVU:") then ValueIn(line, "CVU:", false) else None,
           ValueIn(line, "Saldo inicial:", true), ValueIn(line, "Saldo final:", true))
  }

  /**
   * The fields a non-empty stripped line sets: the holder when the line above holds
   * `RESUMEN DE CUENTA` and none is known yet, and the CVU and balances it holds; a later
   * line overrides an earlier one, and what a line does not hold is kept.
   */
  function ReadFields(fl: Fields, line: string, st: Statement): (r: Statement)
    requires line != [] && Stripped(line)
    ensures r.movements == st.movements
    ensures r.holder == (if fl.afterResumen && (st.holder.None? || st.holder.value == []) then Some(line) else st.holder)
    ensures r.cvu == (if fl.cvu.Some? then fl.cvu else st.cvu)
    ensures r.opening == (if fl.opening.Some? then fl.opening else st.opening)
    ensures r.closing == (if fl.closing.Some? then fl.closing else st.closing)
  {
    st.(holder := if fl.afterResumen && (st.holder.None? || st.holder.value == []) then Some(line) else st.holder,
        cvu := if fl.cvu.Some? then fl.cvu else st.cvu,
        opening := if fl.opening.Some? then fl.opening else st.opening,
        closing := if fl.closing.Some? then fl.closing else st.closing)
  }

  /** The statement with one more movement at the end. */
  function WithMovement(st: Statement, m: Movement): (r: Statement)
    ensures r.movements == st.movements + [m]
    ensures r.holder == st.holder && r.cvu == st.cvu && r.opening == st.opening && r.closing == st.closing
  {
    st.(movements := st.movements + [m])
  }

  /** Setting valid fields keeps a statement valid. */
  lemma ReadFieldsOk(fl: Fields, line: string, st: Statement)
    requires line != [] && Stripped(line) && FieldsOk(fl) && StatementOk(st)
    ensures StatementOk(ReadFields(fl, line, st))
  {
  }

  /** Appending a valid movement keeps a statement valid. */
  lemma WithMovementOk(st: Statement, m: Movement)
    requires StatementOk(st) && MovementOk(m)
    ensures StatementOk(WithMovement(st, m))
  {
    var r := WithMovement(st, m);
    assert forall k :: 0 <= k < |r.movements| ==> k == |st.movements| || r.movements[k] == st.movements[k];
  }

  /**
   * What the scan reads when it reaches a line: the stripped line, its fields, whether it
   * starts a movement, the last line the movement's text takes in and the movement.
   */
  datatype Fact = Fact(text: string, fields: Fields, start: bool, end: nat, move: Option<Movement>)

  /** The facts of line `k` of `n`: a movement ends at or after its start line. */
  predicate FactOk(f: Fact, k: nat, n: nat) {
    k <= f.end < n && Stripped(f.text) && FieldsOk(f.fields)
    && (f.start ==> f.text != []) && (f.move.Some? ==> f.start && MovementOk(f.move.value))
  }

  /** The facts of row `i`; a line that starts no movement ends where it is. */
  function FactOf(rows: seq<Row>, i: nat): Fact
    requires RowsOk(rows) && i < |rows|
  {
    var w := rows[i];
    if w.text != [] && Starts(w) then
      var mv := Moved(rows, i, w.text[w.date.value..]);
      Fact(w.text, w.fields, true, mv.0, mv.1)
    else Fact(w.text, w.fields, false, i, None)
  }

  /** The last row the movement text starting with `first` at `rows[i]` takes in, and the movement it gives. */
  function Moved(rows: seq<Row>, i: nat, first: string): (r: (nat, Option<Movement>))
    requires i < |rows|
    ensures i <= r.0 < |rows|
  {
    var r := MergeRun(rows, first, 0, i);
    (r.1, MovementOf(Normalize(r.0)))
  }

  /** The facts of a row are well formed: they keep its text and fields and start a movement exactly when the row does. */
  lemma FactOfOk(rows: seq<Row>, i: nat)
    requires RowsOk(rows) && i < |rows|
    ensures var f := FactOf(rows, i);
      FactOk(f, i, |rows|) && f.text == rows[i].text && f.fields == rows[i].fields
      && (f.start <==> rows[i].text != [] && Starts(rows[i]))
  {
    var w := rows[i];
    if w.text != [] && Starts(w) {
      var first := w.text[w.date.value..];
      var r := MergeRun(rows, first, 0, i);
      assert Moved(rows, i, first) == (r.1, MovementOf(Normalize(r.0)));
    }
  }

  /** The facts of every row. */
  function Facts(rows: seq<Row>): (fs: seq<Fact>)
    requires RowsOk(rows)
    ensures |fs| == |rows| && forall k :: 0 <= k < |rows| ==> fs[k] == FactOf(rows, k)
    ensures AllOk(fs)
  {
    var fs := seq(|rows|, k requires 0 <= k < |rows| => FactOf(rows, k));
    assert AllOk(fs) by {
      forall k | 0 <= k < |rows|
        ensures FactOk(fs[k], k, |rows|)
      {
        FactOfOk(rows, k);
      }
    }
    fs
  }

  /** Every fact is well formed. */
  predicate AllOk(fs: seq<Fact>) {
    forall k :: 0 <= k < |fs| ==> FactOk(fs[k], k, |fs|)
  }

  /** The statement before any line is read: nothing known. */
  const Empty := Statement(None, None, None, None, [])

  /**
   * What the scan does at a line with facts `f`, with `st` gathered so far: the line to go
   * on from and the new statement. A blank line is skipped; any other line sets the fields
   * it holds, and when it starts a movement the movement of the merged text is appended
   * and the scan goes on after the last line merged. A movement is only ever appended, and
   * a holder once known is kept.
   */
  function Advance(f: Fact, i: nat, st: Statement): (r: (nat, Statement))
    requires Stripped(f.text) && i <= f.end
    ensures i < r.0 <= f.end + 1
  {
    if f.text == [] then (i + 1, st)
    else
      var st1 := ReadFields(f.fields, f.text, st);
      if !f.start then (i + 1, st1)
      else (f.end + 1, if f.move.Some? then WithMovement(st1, f.move.value) else st1)
  }

  /** A step appends at most one movement, keeps a known holder and keeps the statement valid. */
  lemma AdvanceOk(f: Fact, i: nat, n: nat, st: Statement)
    requires FactOk(f, i, n)
    ensures var r := Advance(f, i, st);
      st.movements <= r.1.movements && |r.1.movements| <= |st.movements| + 1
      && (StatementOk(st) ==> StatementOk(r.1))
      && (st.holder.Some? && st.holder.value != [] ==> r.1.holder == st.holder)
  {
    if f.text != [] && StatementOk(st) {
      ReadFieldsOk(f.fields, f.text, st);
      if f.start && f.move.Some? {
        WithMovementOk(ReadFields(f.fields, f.text, st), f.move.value);
      }
    }
  }

  /**
   * The scan from line `i` on, with `st` gathered so far. Movements are only appended, at
   * most one per line, and a holder once known is kept.
   */
  function ScanFrom(fs: seq<Fact>, i: nat, st: Statement): (r: Statement)
    requires AllOk(fs) && i <= |fs|
    decreases |fs| - i
    ensures StatementOk(st) ==> StatementOk(r)
    ensures st.movements <= r.movements && |r.movements| <= |st.movements| + (|fs| - i)
    ensures st.holder.Some? && st.holder.value != [] ==> r.holder == st.holder
  {
    if i == |fs| then st
    else
      var next := Advance(fs[i], i, st);
      AdvanceOk(fs[i], i, |fs|, st);
      ScanFrom(fs, next.0, next.1)
  }

  /** From line `i` on, with no line starting a movement, no movement is added. */
  lemma {:induction false} NoDateNoMovement(fs: seq<Fact>, i: nat, st: Statement)
    requires AllOk(fs) && i <= |fs|
    requires forall k :: i <= k < |fs| ==> !fs[k].start
    ensures ScanFrom(fs, i, st).movements == st.movements
    decreases |fs| - i
  {
    if i < |fs| {
      var next := Advance(fs[i], i, st);
      assert next.1.movements == st.movements;
      assert i < next.0 <= |fs|;
      NoDateNoMovement(fs, next.0, next.1);
    }
  }

  /**
   * A line that starts a movement whose merged text reads as one records it next, and the
   * scan goes on after the lines it merged.
   */
  lemma StartRecords(fs: seq<Fact>, i: nat, st: Statement)
    requires AllOk(fs) && i < |fs| && fs[i].start && fs[i].move.Some?
    ensures var r := ScanFrom(fs, i, st);
      |r.movements| > |st.movements| && r.movements[|st.movements|] == fs[i].move.value
      && r == ScanFrom(fs, fs[i].end + 1, WithMovement(ReadFields(fs[i].fields, fs[i].text, st), fs[i].move.value))
  {
    var st1 := WithMovement(ReadFields(fs[i].fields, fs[i].text, st), fs[i].move.value);
    assert Advance(fs[i], i, st) == (fs[i].end + 1, st1);
    var r := ScanFrom(fs, fs[i].end + 1, st1);
    assert st1.movements == st.movements + [fs[i].move.value];
    assert st1.movements <= r.movements;
    assert r.movements[|st.movements|] == st1.movements[|st.movements|];
  }

  /** Merges the text of the movement that starts at `rows[i]` with `first` and reads the movement. */
  method MergeMovement(rows: seq<Row>, i: nat, first: string) returns (e: nat, m: Option<Movement>)
    requires i < |rows|
    ensures (e, m) == Moved(rows, i, first)
  {
    var text;
    text, e := MergeLines(rows, i, first);
    m := MovementOf(Normalize(text));
  }

  /** One turn of the scan at line `i`: what `Advance` says the facts of the line give. */
  method ReadLine(rows: seq<Row>, i: nat, st: Statement) returns (j: nat, after: Statement)
    requires RowsOk(rows) && i < |rows|
    ensures (j, after) == Advance(FactOf(rows, i), i, st)
  {
    var f := ReadFact(rows, i);
    FactOfOk(rows, i);
    var next := Advance(f, i, st);
    j, after := next.0, next.1;
  }

  /** Reads the facts of row `i`, merging the rows after it when it starts a movement. */
  method ReadFact(rows: seq<Row>, i: nat) returns (f: Fact)
    requires RowsOk(rows) && i < |rows|
    ensures f == FactOf(rows, i)
  {
    var w := rows[i];
    if w.text != [] && Starts(w) {
      var e, m := MergeMovement(rows, i, w.text[w.date.value..]);
      StartFact(rows, i, e, m);
      f := Fact(w.text, w.fields, true, e, m);
    } else {
      f := Fact(w.text, w.fields, false, i, None);
    }
  }

  /** The facts of a row that starts a movement, given what merging it gives. */
  lemma StartFact(rows: seq<Row>, i: nat, e: nat, m: Option<Movement>)
    requires RowsOk(rows) && i < |rows| && rows[i].text != [] && Starts(rows[i])
    requires (e, m) == Moved(rows, i, rows[i].text[rows[i].date.value..])
    ensures FactOf(rows, i) == Fact(rows[i].text, rows[i].fields, true, e, m)
  {
  }

  /**
   * Reads the lines of the statement: the holder on the line after `RESUMEN DE CUENTA`, the
   * CVU, the opening and closing balances, and one movement for each line that starts one,
   * merged with the lines after it.
   */
  method Scan(lines: seq<string>) returns (st: Statement)
    ensures st == ScanFrom(Facts(RowsOf(lines)), 0, Empty)
    ensures StatementOk(st) && |st.movements| <= |lines|
  {
    var rows := RowsOf(lines);
    assert RowsOk(rows);
    ghost var fs := Facts(rows);
    st := Empty;
    var i := 0;
    while i < |lines|
      invariant 0 <= i <= |lines| && AllOk(fs)
      invariant ScanFrom(fs, i, st) == ScanFrom(fs, 0, Empty)
      decreases |lines| - i
    {
      assert fs[i] == FactOf(rows, i);
      i, st := ReadLine(rows, i, st);
    }
  }

  /** The amounts of the movements, in cents. */
  function Values(ms: seq<Movement>): (xs: seq<int>)
    ensures |xs| == |ms|
  {
    seq(|ms|, k requires 0 <= k < |ms| => ToNumber(ms[k].amount))
  }

  /**
   * The sheet: named after the CVU or the holder, the balances read as amounts, positive
   * amounts as credits and negative ones as debits, and the control value; none without
   * both balances.
   */
  function MakeSheet(st: Statement): (s: Option<Ledger.Sheet>)
    ensures s.Some? <==> st.opening.Some? && st.opening.value != [] && st.closing.Some? && st.closing.value != []
    ensures s.Some? ==> |s.value.name| <= 31 && s.value.control.Some?
    ensures s.Some? ==> (s.value.credits == Ledger.Credits(Values(st.movements))
      && s.value.debits == Ledger.Debits(Values(st.movements)))
  {
    if st.opening.None? || st.opening.value == [] || st.closing.None? || st.closing.value == [] then None
    else
      var name := SheetName(SheetTitle(st.cvu, st.holder));
      SheetNameValid(SheetTitle(st.cvu, st.holder));
      var opening, closing := ToNumber(st.opening.value), ToNumber(st.closing.value);
      var xs := Values(st.movements);
      var cs, ds := Ledger.Credits(xs), Ledger.Debits(xs);
      Some(Ledger.Sheet(name, opening, closing, cs, ds, Some(Ledger.Control(opening, Ledger.Sum(cs), Ledger.Sum(ds), closing))))
  }

  /** The control value is the opening balance plus the net movement minus the closing balance: zero when they agree. */
  lemma SheetControl(st: Statement)
    requires MakeSheet(st).Some?
    ensures MakeSheet(st).value.control.Some?
    ensures MakeSheet(st).value.control.value
      == ToNumber(st.opening.value) + Ledger.Sum(Values(st.movements)) - ToNumber(st.closing.value)
  {
    Ledger.ControlOfMovements(ToNumber(st.opening.value), Values(st.movements), ToNumber(st.closing.value));
  }

  /** Reads a statement and builds its sheet. */
  method Process(lines: seq<string>) returns (st: Statement, sheet: Option<Ledger.Sheet>)
    ensures st == ScanFrom(Facts(RowsOf(lines)), 0, Empty)
    ensures StatementOk(st) && sheet == MakeSheet(st)
  {
    st := Scan(lines);
    sheet := MakeSheet(st);
  }
}
