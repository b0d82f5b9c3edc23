/**
 * Banco Credicoop statements, second format.
 *
 * Every movement is one line: a `dd/mm/yyyy` date, a description, the debit, credit and
 * balance columns as plain decimal-point amounts, and a code. Lines that continue a
 * description follow their movement. The listing is newest first: the closing balance is
 * the balance of the first row, the opening balance is inferred from the oldest row, and
 * the rows are reversed into date order for the sheet.
 */
module Credicoop2 {
  import opened Text
  import opened Optional
  import opened Amounts
  import Ledger

  // ---------------------------------------------------------------------------
  // Amounts: `parse_float`

  /** `float(s)`, else `float` of the Argentine reading, else zero; zero for the empty text. */
  function ParseFloat(s: string): int {
    if s == [] then 0
    else match ParseDecimal(s)
      case Some(v) => v
      case None => ParseArPlain(s).GetOr(0)
  }

  /** A plain decimal-point literal reads as itself. */
  lemma ParseFloatDecimal(c: int)
    ensures ParseFloat(FormatDecimal(c)) == c
  {
    ParseFormatDecimal(c);
  }

  /** An Argentine literal is not a decimal-point literal, so it takes the fallback reading. */
  lemma ParseFloatAr(c: nat)
    ensures ParseFloat(FormatAr(c)) == c
  {
    var g := Group(c / 100, '.');
    var s := FormatAr(c);
    assert s[|g|] == ',';
    CommaNotDecimal(s, |g|);
    ArRoundTrip(c);
  }

  /** `float()` refuses a text holding a comma. */
  lemma CommaNotDecimal(s: string, k: nat)
    requires k < |s| && s[k] == ','
    ensures ParseDecimal(s) == None
  {
    if s[0] == '-' || s[0] == '+' {
      assert s[1..][k - 1] == ',';
      CommaNotUnsigned(s[1..], k - 1);
    } else {
      CommaNotUnsigned(s, k);
    }
  }

  lemma CommaNotUnsigned(b: string, k: nat)
    requires k < |b| && b[k] == ','
    ensures UnsignedCents(b) == None
  {
    var p := IndexOf(b, '.');
    if p < 0 {
      assert !IsDigit(b[k]);
    } else if k < p {
      assert b[..p][k] == ',';
    } else {
      assert b[p + 1..][k - p - 1] == ',';
    }
  }

  // ---------------------------------------------------------------------------
  // The movement pattern:
  // `^(\d{2}/\d{2}/\d{4})\s+(.+?)\s+(-?\d+\.\d{2})\s+(-?\d+\.\d{2})\s+(-?\d+\.\d{2})\s+([A-Za-z0-9]+)$`

  /** A letter or digit of the code column, `[A-Za-z0-9]`. */
  predicate IsCodeChar(c: char) {
    IsDigit(c) || ('A' <= c <= 'Z') || ('a' <= c <= 'z')
  }

  /** `-?\d+\.\d{2}` at `p`: where the amount ends. */
  function AmountEnd(s: string, p: nat): (r: Option<nat>)
    requires p <= |s|
    ensures r.Some? ==> p < r.value <= |s|
  {
    var d := if p < |s| && s[p] == '-' then p + 1 else p;
    var e := DigitEnd(s, d);
    if d < e && e + 3 <= |s| && s[e] == '.' && IsDigit(s[e + 1]) && IsDigit(s[e + 2]) then Some(e + 3) else None
  }

  /** `\s+(-?\d+\.\d{2})` at `q`: where the amount starts and ends. */
  function FieldAt(s: string, q: nat): (r: Option<(nat, nat)>)
    requires q <= |s|
    ensures r.Some? ==> q < r.value.0 < r.value.1 <= |s|
  {
    if q < |s| && IsSpace(s[q]) then
      var a := SpaceEnd(s, q);
      match AmountEnd(s, a)
      case Some(e) => Some((a, e))
      case None => None
    else None
  }

  /** `\s+([A-Za-z0-9]+)$` at `q`. */
  predicate CodeAt(s: string, q: nat)
    requires q <= |s|
  {
    q < |s| && IsSpace(s[q]) && SpaceEnd(s, q) < |s| && forall i :: SpaceEnd(s, q) <= i < |s| ==> IsCodeChar(s[i])
  }

  /** The debit, credit and balance columns of a movement line. */
  datatype Columns = Columns(debit: string, credit: string, balance: string)

  /** The three amount columns and the code, from `q` to the end of the line. */
  function TailAt(s: string, q: nat): (r: Option<Columns>)
    requires q <= |s|
  {
    match FieldAt(s, q)
    case None => None
    case Some(d) =>
      match FieldAt(s, d.1)
      case None => None
      case Some(c) =>
        match FieldAt(s, c.1)
        case None => None
        case Some(b) => if CodeAt(s, b.1) then Some(Columns(s[d.0..d.1], s[c.0..c.1], s[b.0..b.1])) else None
  }

  /** Whether the columns match at each position of the line, its end included. */
  function TailHits(s: string): (hits: seq<bool>)
    ensures |hits| == |s| + 1 && forall q :: 0 <= q <= |s| ==> hits[q] == TailAt(s, q).Some?
  {
    seq(|s| + 1, q requires 0 <= q <= |s| => TailAt(s, q).Some?)
  }

  /** The first position from `q0` on where the columns match: where the lazy `(.+?)` stops. */
  function FirstTail(s: string, q0: nat): (r: Option<nat>)
    ensures r.Some? ==> q0 <= r.value <= |s| && TailAt(s, r.value).Some?
  {
    FirstHit(TailHits(s), q0)
  }

  /**
   * The description starts at `start` and ends where the columns first match; when they
   * never match, the `\s+` after the date gives back one blank and the search starts again.
   */
  function DescSpan(s: string, start: nat): (r: Option<(nat, nat)>)
    requires 11 <= start <= |s|
    decreases start
    ensures r.Some? ==> 11 <= r.value.0 <= start && r.value.0 < r.value.1 <= |s| && TailAt(s, r.value.1).Some?
  {
    match FirstTail(s, start + 1)
    case Some(q) => Some((start, q))
    case None => if start == 11 then None else DescSpan(s, start - 1)
  }

  /** A row of the listing: the parsed line and the raw debit and credit columns. */
  datatype Row = Row(date: string, description: string, amount: int, balance: int, debit: int, credit: int)

  /** The signed amount: the credit when there is one, else minus the debit, else zero. */
  function Importe(debit: int, credit: int): int {
    if Abs(credit) > 0 then Abs(credit) else if Abs(debit) > 0 then -Abs(debit) else 0
  }

  /** The row a movement line describes, if the movement pattern matches it. */
  function MatchRow(l: string): (r: Option<Row>)
    ensures r.Some? ==> |l| >= 11 && DateAt(l, 0, '/', 4) && IsSpace(l[10]) && r.value.date == l[..10]
    ensures r.Some? ==> r.value.amount == Importe(r.value.debit, r.value.credit)
  {
    if |l| >= 11 && DateAt(l, 0, '/', 4) && IsSpace(l[10]) then
      match DescSpan(l, SpaceEnd(l, 10))
      case None => None
      case Some(m) =>
        var cols := TailAt(l, m.1).value;
        var debit, credit := ParseFloat(cols.debit), ParseFloat(cols.credit);
        Some(Row(l[..10], Strip(l[m.0..m.1]), Importe(debit, credit), ParseFloat(cols.balance), debit, credit))
    else None
  }

  // ---------------------------------------------------------------------------
  // A printed movement line reads back as its row

  /** A movement line as the bank prints it: date, description, the three columns and the code, one blank apart. */
  function Line(date: string, desc: string, d: int, c: int, b: int, code: string): string {
    Printed(date, desc, FormatDecimal(d), FormatDecimal(c), FormatDecimal(b), code)
  }

  /** The parts of a movement line, one blank apart. */
  function Printed(date: string, desc: string, l1: string, l2: string, l3: string, code: string): string {
    date + " " + desc + " " + l1 + " " + l2 + " " + l3 + " " + code
  }

  /**
   * A description the lazy `(.+?)` reads whole: not blank at either end, and no word after
   * the first starts with a digit or a minus, so no amount column can start inside it.
   */
  predicate PlainDescription(desc: string) {
    desc != [] && !IsSpace(desc[0]) && !IsSpace(desc[|desc| - 1])
    && forall i :: 0 < i < |desc| ==> PlainWord(desc, i)
  }

  /** A word that starts at `i`, after a blank, does not start with a digit or a minus. */
  predicate PlainWord(desc: string, i: nat)
    requires 0 < i < |desc|
  {
    IsSpace(desc[i - 1]) && !IsSpace(desc[i]) ==> !IsDigit(desc[i]) && desc[i] != '-'
  }

  /** A code of letters and digits. */
  predicate IsCode(code: string) {
    code != [] && forall i :: 0 <= i < |code| ==> IsCodeChar(code[i])
  }

  /**
   * The movement pattern reads a printed line back: its date, its description, its three
   * columns, and the amount the columns give.
   */
  lemma LineRoundTrip(date: string, desc: string, d: int, c: int, b: int, code: string)
    requires |date| == 10 && DateAt(date, 0, '/', 4)
    requires PlainDescription(desc) && IsCode(code)
    ensures MatchRow(Line(date, desc, d, c, b, code)) == Some(Row(date, desc, Importe(d, c), b, d, c))
  {
    var l1, l2, l3 := FormatDecimal(d), FormatDecimal(c), FormatDecimal(b);
    var p := 11 + |desc|;
    var q1 := p + 1 + |l1|;
    var q2 := q1 + 1 + |l2|;
    var q3 := q2 + 1 + |l3|;
    DecimalIsAmount(d);
    DecimalIsAmount(c);
    DecimalIsAmount(b);
    LineLayout(date, desc, l1, l2, l3, code, p, q1, q2, q3);
    LaidOutMatches(Printed(date, desc, l1, l2, l3, code), p, q1, q2, q3, date, desc, l1, l2, l3, code);
    ParseFloatDecimal(d);
    ParseFloatDecimal(c);
    ParseFloatDecimal(b);
  }

  /** `-?\d+\.\d{2}` matches the whole of `l`. */
  predicate AmountText(l: string) {
    var k := if l != [] && l[0] == '-' then 1 else 0;
    k + 4 <= |l| && l[|l| - 3] == '.' && IsDigit(l[|l| - 2]) && IsDigit(l[|l| - 1])
    && forall i :: k <= i < |l| - 3 ==> IsDigit(l[i])
  }

  /** A plain decimal literal is an amount text. */
  lemma DecimalIsAmount(x: int)
    ensures AmountText(FormatDecimal(x))
  {
    var l := FormatDecimal(x);
    DecimalShape(x);
    if x >= 0 {
      assert IsDigit(l[0]);
    }
  }

  /**
   * `s` holds the parts of a movement line, one blank apart: the description ends at `p` and
   * the three columns at `q1`, `q2` and `q3`.
   */
  predicate LaidOut(s: string, p: nat, q1: nat, q2: nat, q3: nat,
                    date: string, desc: string, l1: string, l2: string, l3: string, code: string) {
    p == 11 + |desc| && q1 == p + 1 + |l1| && q2 == q1 + 1 + |l2| && q3 == q2 + 1 + |l3|
    && |date| == 10 && |s| == q3 + 1 + |code|
    && Placed(s, 0, date) && s[10] == ' ' && Placed(s, 11, desc) && s[p] == ' '
    && Placed(s, p + 1, l1) && s[q1] == ' ' && Placed(s, q1 + 1, l2) && s[q2] == ' '
    && Placed(s, q2 + 1, l3) && s[q3] == ' ' && Placed(s, q3 + 1, code)
  }

  /** The movement pattern reads the parts of a laid-out line back. */
  lemma LaidOutMatches(s: string, p: nat, q1: nat, q2: nat, q3: nat,
                       date: string, desc: string, l1: string, l2: string, l3: string, code: string)
    requires DateAt(date, 0, '/', 4) && PlainDescription(desc) && IsCode(code)
    requires AmountText(l1) && AmountText(l2) && AmountText(l3)
    requires LaidOut(s, p, q1, q2, q3, date, desc, l1, l2, l3, code)
    ensures var d, c := ParseFloat(l1), ParseFloat(l2);
      MatchRow(s) == Some(Row(date, desc, Importe(d, c), ParseFloat(l3), d, c))
  {
    LineParts(s, p, q1, q2, q3, date, desc, l1, l2, l3, code);
    ColumnValues(s, p, q1, q2, q3, l1, l2, l3);
    assert SpaceEnd(s, 11) == 11;
    StripNoop(desc);
  }

  /** The columns of a laid-out line read as the amounts written there. */
  lemma ColumnValues(s: string, p: nat, q1: nat, q2: nat, q3: nat, l1: string, l2: string, l3: string)
    requires q1 == p + 1 + |l1| && q2 == q1 + 1 + |l2| && q3 == q2 + 1 + |l3|
    requires Placed(s, p + 1, l1) && Placed(s, q1 + 1, l2) && Placed(s, q2 + 1, l3)
    ensures ParseFloat(s[p + 1..q1]) == ParseFloat(l1) && ParseFloat(s[q1 + 1..q2]) == ParseFloat(l2)
    ensures ParseFloat(s[q2 + 1..q3]) == ParseFloat(l3)
  {
    PlacedSlice(s, p + 1, l1, q1);
    PlacedSlice(s, q1 + 1, l2, q2);
    PlacedSlice(s, q2 + 1, l3, q3);
  }

  /** Where the movement pattern finds the parts of a laid-out line. */
  lemma {:induction false} LineParts(s: string, p: nat, q1: nat, q2: nat, q3: nat,
                                     date: string, desc: string, l1: string, l2: string, l3: string, code: string)
    requires DateAt(date, 0, '/', 4) && PlainDescription(desc) && IsCode(code)
    requires AmountText(l1) && AmountText(l2) && AmountText(l3)
    requires LaidOut(s, p, q1, q2, q3, date, desc, l1, l2, l3, code)
    ensures p < |s| && DateAt(s, 0, '/', 4) && s[..10] == date && s[10] == ' ' && !IsSpace(s[11])
    ensures s[11..p] == desc && DescSpan(s, 11) == Some((11, p)) && TailAt(s, p) == Some(Columns(s[p + 1..q1], s[q1 + 1..q2], s[q2 + 1..q3]))
  {
    ColumnSpans(s, p, q1, q2, q3, l1, l2, l3, code);
    LineHead(s, p, date, desc);
    DescFrom(s, p, desc);
  }

  /** The date and the description of a laid-out line are where they were written. */
  lemma LineHead(s: string, p: nat, date: string, desc: string)
    requires DateAt(date, 0, '/', 4) && PlainDescription(desc) && |date| == 10 && p == 11 + |desc| && p <= |s|
    requires Placed(s, 0, date) && Placed(s, 11, desc)
    ensures DateAt(s, 0, '/', 4) && s[..10] == date && !IsSpace(s[11]) && s[11..p] == desc
  {
    assert DateAt(s, 0, '/', 4) by {
      assert forall i :: 0 <= i < 10 ==> s[i] == date[i];
    }
    assert s[11 + 0] == desc[0];
    PlacedSlice(s, 0, date, 10);
    PlacedSlice(s, 11, desc, p);
  }

  /** The lazy description of a laid-out line stops where it was written to stop. */
  lemma DescFrom(s: string, p: nat, desc: string)
    requires PlainDescription(desc) && p == 11 + |desc| && p <= |s| && Placed(s, 11, desc)
    requires TailAt(s, p).Some?
    ensures DescSpan(s, 11) == Some((11, p))
  {
    NoEarlierTail(s, desc, p);
    FirstTailIs(s, 12, p);
  }

  /** Where the columns pattern finds the three amounts of a laid-out tail. */
  lemma ColumnSpans(s: string, p: nat, q1: nat, q2: nat, q3: nat, l1: string, l2: string, l3: string, code: string)
    requires IsCode(code) && AmountText(l1) && AmountText(l2) && AmountText(l3)
    requires q1 == p + 1 + |l1| && q2 == q1 + 1 + |l2| && q3 == q2 + 1 + |l3| && |s| == q3 + 1 + |code|
    requires s[p] == ' ' && Placed(s, p + 1, l1) && s[q1] == ' ' && Placed(s, q1 + 1, l2)
      && s[q2] == ' ' && Placed(s, q2 + 1, l3) && s[q3] == ' ' && Placed(s, q3 + 1, code)
    ensures TailAt(s, p) == Some(Columns(s[p + 1..q1], s[q1 + 1..q2], s[q2 + 1..q3]))
  {
    FieldIntro(s, p, l1, q1);
    FieldIntro(s, q1, l2, q2);
    FieldIntro(s, q2, l3, q3);
    CodeFrom(s, q3, code);
    TailFrom(s, p, q1, q2, q3);
  }

  /** The two parts of a text written at the start of `s` are written there in turn, the second from `k`. */
  lemma Peel(s: string, x: string, y: string, k: nat)
    requires Placed(s, 0, x + y) && k == |x|
    ensures Placed(s, 0, x) && Placed(s, k, y)
  {
    PlacedAppend(x, y);
    PlacedWithin(s, 0, x + y, 0, x);
    PlacedWithin(s, 0, x + y, |x|, y);
  }

  /** A text and a blank written at the start of `s`; the blank is at `k`. */
  lemma PeelBlank(s: string, x: string, k: nat)
    requires Placed(s, 0, x + " ") && k == |x|
    ensures Placed(s, 0, x) && k < |s| && s[k] == ' '
  {
    Peel(s, x, " ", k);
    assert s[k + 0] == " "[0];
  }

  /** Where each part of a printed line lies. */
  lemma LineLayout(date: string, desc: string, l1: string, l2: string, l3: string, code: string,
                   p: nat, q1: nat, q2: nat, q3: nat)
    requires |date| == 10 && p == 11 + |desc| && q1 == p + 1 + |l1| && q2 == q1 + 1 + |l2| && q3 == q2 + 1 + |l3|
    ensures LaidOut(Printed(date, desc, l1, l2, l3, code), p, q1, q2, q3, date, desc, l1, l2, l3, code)
  {
    var s := Printed(date, desc, l1, l2, l3, code);
    var p2 := date + " " + desc;
    var p4 := p2 + " " + l1;
    var p6 := p4 + " " + l2;
    var p8 := p6 + " " + l3;
    assert s == p8 + " " + code;
    assert Placed(s, 0, p8 + " " + code);
    PeelField(s, p8, code, q3);
    PeelField(s, p6, l3, q2);
    PeelField(s, p4, l2, q1);
    PeelField(s, p2, l1, p);
    PeelField(s, date, desc, 10);
  }

  /** A text, a blank and a second text written at the start of `s`: the blank is at `k`, the second text after it. */
  lemma PeelField(s: string, x: string, y: string, k: nat)
    requires Placed(s, 0, x + " " + y) && k == |x|
    ensures Placed(s, 0, x) && k < |s| && s[k] == ' ' && Placed(s, k + 1, y)
  {
    Peel(s, x + " ", y, k + 1);
    PeelBlank(s, x, k);
  }

  /** Three amount columns from `q` on, then a blank and the code up to the end, are what the columns pattern reads there. */
  lemma TailFrom(s: string, q: nat, q1: nat, q2: nat, q3: nat)
    requires q < q1 < q2 < q3 <= |s|
    requires FieldAt(s, q) == Some((q + 1, q1)) && FieldAt(s, q1) == Some((q1 + 1, q2)) && FieldAt(s, q2) == Some((q2 + 1, q3))
    requires CodeAt(s, q3)
    ensures TailAt(s, q) == Some(Columns(s[q + 1..q1], s[q1 + 1..q2], s[q2 + 1..q3]))
  {
  }

  /** A blank and a run of letters and digits up to the end are the code. */
  lemma CodeFrom(s: string, q: nat, code: string)
    requires q < |s| && s[q] == ' ' && IsCode(code) && Placed(s, q + 1, code) && |s| == q + 1 + |code|
    ensures CodeAt(s, q)
  {
    forall i | q + 1 <= i < |s|
      ensures IsCodeChar(s[i])
    {
      assert s[q + 1 + (i - q - 1)] == code[i - q - 1];
    }
    assert SpaceEnd(s, q + 1) == q + 1;
  }

  /** A blank and an amount text at `q` are one amount column, ending at `e`. */
  lemma FieldIntro(s: string, q: nat, l: string, e: nat)
    requires q < |s| && s[q] == ' ' && AmountText(l) && Placed(s, q + 1, l) && e == q + 1 + |l|
    ensures FieldAt(s, q) == Some((q + 1, e))
  {
    AmountAt(s, q + 1, l);
    assert SpaceEnd(s, q + 1) == q + 1;
  }

  /** An amount text at `p` is where the amount pattern matches. */
  lemma AmountAt(s: string, p: nat, l: string)
    requires AmountText(l) && Placed(s, p, l)
    ensures AmountEnd(s, p) == Some(p + |l|)
    ensures p < |s| && !IsSpace(s[p])
  {
    var k := if l[0] == '-' then 1 else 0;
    var e := p + (|l| - 3);
    assert s[p + 0] == l[0];
    assert s[p + (|l| - 3)] == l[|l| - 3];
    assert s[p + (|l| - 2)] == l[|l| - 2];
    assert s[p + (|l| - 1)] == l[|l| - 1];
    forall i | p + k <= i < e
      ensures IsDigit(s[i])
    {
      assert s[p + (i - p)] == l[i - p];
    }
    DigitEndAt(s, p + k, |l| - 3 - k);
  }

  /** A run of `n` digits at `d`, followed by a non-digit, is where `\d*` stops. */
  lemma {:induction false} DigitEndAt(s: string, d: nat, n: nat)
    requires d + n < |s| && (forall i :: d <= i < d + n ==> IsDigit(s[i])) && !IsDigit(s[d + n])
    ensures DigitEnd(s, d) == d + n
    decreases n
  {
    if n > 0 {
      DigitEndAt(s, d + 1, n - 1);
    }
  }

  /** No amount column starts inside a plain description. */
  lemma NoEarlierTail(s: string, desc: string, p: nat)
    requires p == 11 + |desc| && Placed(s, 11, desc) && PlainDescription(desc)
    ensures forall q :: 12 <= q < p ==> TailAt(s, q).None?
  {
    forall q | 12 <= q < p
      ensures TailAt(s, q).None?
    {
      if q < |s| && IsSpace(s[q]) {
        var e := SpaceEnd(s, q);
        assert s[11 + (|desc| - 1)] == desc[|desc| - 1];
        assert e < p;
        assert s[11 + (e - 11)] == desc[e - 11] && s[11 + (e - 12)] == desc[e - 12];
        assert PlainWord(desc, e - 11);
        assert AmountEnd(s, e).None?;
      }
    }
  }

  /** The first position from `q0` where the columns match is `q` when none matches before it. */
  lemma FirstTailIs(s: string, q0: nat, q: nat)
    requires q0 <= q <= |s| && TailAt(s, q).Some?
    requires forall q' :: q0 <= q' < q ==> TailAt(s, q').None?
    ensures FirstTail(s, q0) == Some(q)
  {
    TailHitsUpTo(s, q0, q);
    FirstHitIs(TailHits(s), q0, q);
  }

  /** Where the columns match and where they do not, as hits. */
  lemma TailHitsUpTo(s: string, q0: nat, q: nat)
    requires q0 <= q <= |s| && TailAt(s, q).Some?
    requires forall q' :: q0 <= q' < q ==> TailAt(s, q').None?
    ensures var hits := TailHits(s); q < |hits| && hits[q] && forall q' :: q0 <= q' < q ==> !hits[q']
  {
  }

  /** The credit wins; a row with neither column has a zero amount. */
  lemma ImporteSign(debit: int, credit: int)
    ensures Importe(debit, credit) > 0 <==> credit != 0
    ensures Importe(debit, credit) < 0 <==> credit == 0 && debit != 0
    ensures Importe(debit, credit) == 0 <==> credit == 0 && debit == 0
  {
  }

  /** For a one-sided row with non-negative columns the amount is the credit minus the debit. */
  lemma ImporteNet(debit: int, credit: int)
    requires debit >= 0 && credit >= 0 && (debit == 0 || credit == 0)
    ensures Importe(debit, credit) == credit - debit
  {
  }

  // ---------------------------------------------------------------------------
  // The line loop

  /** Header lines and blank lines are skipped. */
  predicate Skipped(l: string) {
    (Contains(l, "Fecha") && Contains(l, "Concepto")) || Contains(l, "Saldos y movimientos")
    || Contains(l, "Saldo Disponible") || Contains(l, "Saldo Contable") || l == []
  }

  /** Page furniture that is never appended to a description. */
  predicate Noise(l: string) {
    Contains(l, "P\U{e1}gina") || Contains(l, "Banco Credicoop") || Contains(l, "Adherente:")
  }

  /** What a stripped line is to the loop. */
  datatype Kind = Skip | Start(row: Row) | More(text: string) | Ignored

  /**
   * Headers and blank lines are skipped; a line the movement pattern matches starts a row;
   * an undated line that is not page furniture continues the last row; anything else is ignored.
   */
  function Classify(l: string): Kind {
    if Skipped(l) then Skip
    else match MatchRow(l)
      case Some(r) => Start(r)
      case None => if !DateAt(l, 0, '/', 4) && !Noise(l) then More(l) else Ignored
  }

  function Continued(r: Row, l: string): Row {
    r.(description := r.description + " " + l)
  }

  /** One line of the loop: a new row is appended; continuation text is added to the last row, if any. */
  function Step(rows: seq<Row>, k: Kind): seq<Row> {
    match k
    case Start(r) => rows + [r]
    case More(t) => if rows != [] then rows[|rows| - 1 := Continued(rows[|rows| - 1], t)] else rows
    case _ => rows
  }

  /** The rows after the given lines. */
  function ScanAll(lines: seq<string>): seq<Row> {
    if lines == [] then [] else Step(ScanAll(lines[..|lines| - 1]), Classify(Strip(lines[|lines| - 1])))
  }

  /** The line loop: each stripped line is skipped, starts a row, or continues the last row. */
  method Scan(lines: seq<string>) returns (rows: seq<Row>)
    ensures rows == ScanAll(lines)
  {
    rows := [];
    for i := 0 to |lines|
      invariant rows == ScanAll(lines[..i])
    {
      assert lines[..i + 1][..i] == lines[..i];
      var k := Classify(Strip(lines[i]));
      rows := Apply(rows, k);
    }
    assert lines[..|lines|] == lines;
  }

  /** The body of the loop once the line is classified: append a row, or extend the last description. */
  method Apply(rows: seq<Row>, k: Kind) returns (result: seq<Row>)
    ensures result == Step(rows, k)
  {
    result := rows;
    if k.Start? {
      result := rows + [k.row];
    } else if k.More? && rows != [] {
      result := rows[|rows| - 1 := Continued(rows[|rows| - 1], k.text)];
    }
  }

  // ---------------------------------------------------------------------------
  // What the loop keeps

  /** The same row, its description possibly extended. */
  predicate Grown(a: Row, b: Row) {
    b.date == a.date && b.amount == a.amount && b.balance == a.balance && b.debit == a.debit && b.credit == a.credit
    && |a.description| <= |b.description| && b.description[..|a.description|] == a.description
  }

  /** Every row of `a` is still in `b`, at the same place, its description possibly extended. */
  predicate Extends(a: seq<Row>, b: seq<Row>) {
    |a| <= |b| && forall k :: 0 <= k < |a| ==> Grown(a[k], b[k])
  }

  /** One line adds at most one row, and changes no more than the last row's description. */
  lemma StepExtends(rows: seq<Row>, k: Kind)
    ensures Extends(rows, Step(rows, k)) && |Step(rows, k)| <= |rows| + 1
  {
    if k.More? && rows != [] {
      var r := rows[|rows| - 1];
      assert (r.description + " " + k.text)[..|r.description|] == r.description;
    }
  }

  lemma ExtendsTrans(a: seq<Row>, b: seq<Row>, c: seq<Row>)
    requires Extends(a, b) && Extends(b, c)
    ensures Extends(a, c)
  {
    forall k | 0 <= k < |a|
      ensures Grown(a[k], c[k])
    {
      var da, db := a[k].description, b[k].description;
      assert c[k].description[..|da|] == c[k].description[..|db|][..|da|];
    }
  }

  /** Rows once recorded are never lost, and their figures never change. */
  lemma {:induction false} ScanKeeps(lines: seq<string>, n: nat)
    requires n <= |lines|
    ensures Extends(ScanAll(lines[..n]), ScanAll(lines))
    decreases |lines| - n
  {
    if n < |lines| {
      var init := lines[..|lines| - 1];
      assert init[..n] == lines[..n];
      ScanKeeps(init, n);
      StepExtends(ScanAll(init), Classify(Strip(lines[|lines| - 1])));
      ExtendsTrans(ScanAll(lines[..n]), ScanAll(init), ScanAll(lines));
    } else {
      assert lines[..n] == lines;
      forall k | 0 <= k < |ScanAll(lines)|
        ensures Grown(ScanAll(lines)[k], ScanAll(lines)[k])
      {
        var d := ScanAll(lines)[k].description;
        assert d[..|d|] == d;
      }
    }
  }

  /** The number of lines that are movement lines once stripped. */
  function MatchCount(lines: seq<string>): nat {
    if lines == [] then 0
    else
      var l := Strip(lines[|lines| - 1]);
      MatchCount(lines[..|lines| - 1]) + if !Skipped(l) && MatchRow(l).Some? then 1 else 0
  }

  /** There is one row per movement line. */
  lemma {:induction false} RowsPerMatch(lines: seq<string>)
    ensures |ScanAll(lines)| == MatchCount(lines)
  {
    if lines != [] {
      RowsPerMatch(lines[..|lines| - 1]);
      StartIffMatch(Strip(lines[|lines| - 1]));
    }
  }

  /** Every row is dated `dd/mm/yyyy`. */
  lemma {:induction false} RowsDated(lines: seq<string>)
    ensures forall k :: 0 <= k < |ScanAll(lines)| ==> DateAt(ScanAll(lines)[k].date, 0, '/', 4)
  {
    if lines != [] {
      RowsDated(lines[..|lines| - 1]);
      StartDated(Strip(lines[|lines| - 1]));
    }
  }

  /** A line starts a row exactly when it is not skipped and the movement pattern matches it. */
  lemma StartIffMatch(l: string)
    ensures Classify(l).Start? <==> !Skipped(l) && MatchRow(l).Some?
  {
  }

  /** A row a line starts is dated `dd/mm/yyyy`. */
  lemma StartDated(l: string)
    ensures Classify(l).Start? ==> DateAt(Classify(l).row.date, 0, '/', 4)
  {
    if Classify(l).Start? {
      DatePrefix(l, 10);
    }
  }

  /** A date at the start of a text is a date at the start of its first `n` characters. */
  lemma DatePrefix(l: string, n: nat)
    requires 10 <= n <= |l| && DateAt(l, 0, '/', 4)
    ensures DateAt(l[..n], 0, '/', 4)
  {
    assert forall i :: 0 <= i < n ==> l[..n][i] == l[i];
  }

  // ---------------------------------------------------------------------------
  // Balances and the sheet

  /** The opening balance the oldest row implies: its balance minus its credit plus its debit. */
  function Opening(oldest: Row): int {
    oldest.balance - oldest.credit + oldest.debit
  }

  /** The ledger movements of the rows, descriptions cleaned for a cell. */
  function Movements(rows: seq<Row>): (ms: seq<Ledger.Movement>)
    ensures |ms| == |rows| && forall k :: 0 <= k < |rows| ==> ms[k].amount == rows[k].amount && ms[k].date == rows[k].date
  {
    seq(|rows|, k requires 0 <= k < |rows| => Ledger.Movement(rows[k].date, CleanForExcel(rows[k].description), rows[k].amount))
  }

  /** The sheet: the closing balance from the newest row, the opening from the oldest, the rows in date order. */
  function SheetOf(rows: seq<Row>): Ledger.Sheet
    requires rows != []
  {
    Ledger.ListingSheet("Reporte Credicoop", Opening(rows[|rows| - 1]), rows[0].balance, Ledger.Reverse(Movements(rows)))
  }

  /** The whole statement: no sheet when no movement line is found. */
  method Process(lines: seq<string>) returns (sheet: Option<Ledger.Sheet>)
    ensures sheet.None? <==> ScanAll(lines) == []
    ensures sheet.Some? ==> ScanAll(lines) != [] && sheet.value == SheetOf(ScanAll(lines))
  {
    var rows := Scan(lines);
    if rows == [] {
      return None;
    }
    var built := Report(rows);
    sheet := Some(built);
  }

  /** The report of the rows read: balances taken before the rows are reversed into date order. */
  method Report(rows: seq<Row>) returns (sheet: Ledger.Sheet)
    requires rows != []
    ensures sheet == SheetOf(rows)
  {
    var closing := rows[0].balance;
    var oldest := rows[|rows| - 1];
    var opening := oldest.balance - oldest.credit + oldest.debit;
    var ms := Movements(rows);
    ms := Ledger.Reverse(ms);
    sheet := Ledger.ListingSheet("Reporte Credicoop", opening, closing, ms);
  }

  /** Each row's balance is the next older row's balance plus the row's amount. */
  predicate RowsChain(rows: seq<Row>) {
    forall k :: 0 <= k < |rows| - 1 ==> rows[k].balance == rows[k + 1].balance + rows[k].amount
  }

  /** The balances of the rows, in their order. */
  function Balances(rows: seq<Row>): (bs: seq<int>)
    ensures |bs| == |rows| && forall k :: 0 <= k < |rows| ==> bs[k] == rows[k].balance
  {
    seq(|rows|, k requires 0 <= k < |rows| => rows[k].balance)
  }

  /**
   * When the balances chain and the oldest row is one-sided with non-negative columns,
   * the inferred opening balance plus the net movement is the closing balance: the
   * sheet's control value is zero.
   */
  lemma BalancedSheet(rows: seq<Row>)
    requires rows != [] && RowsChain(rows)
    requires var o := rows[|rows| - 1]; o.debit >= 0 && o.credit >= 0 && (o.debit == 0 || o.credit == 0)
    requires forall k :: 0 <= k < |rows| ==> rows[k].amount == Importe(rows[k].debit, rows[k].credit)
    ensures SheetOf(rows).control == Some(0)
  {
    var o := rows[|rows| - 1];
    var xs := Ledger.Amounts(Ledger.Reverse(Movements(rows)));
    var bs := Ledger.Reverse(Balances(rows));
    ReversedChain(rows);
    ReversedRows(rows);
    Ledger.InferredOpening(xs, bs);
    ImporteNet(o.debit, o.credit);
    assert Ledger.Last(bs) == rows[0].balance;
    SheetControl(rows);
  }

  /** The control value of the sheet: the opening plus the net movement minus the closing balance. */
  lemma SheetControl(rows: seq<Row>)
    requires rows != []
    ensures SheetOf(rows).control
      == Some(Opening(rows[|rows| - 1]) + Ledger.Sum(Ledger.Amounts(Ledger.Reverse(Movements(rows)))) - rows[0].balance)
  {
  }

  /** Read oldest first, the amounts and balances are those of the rows from the last back. */
  lemma ReversedRows(rows: seq<Row>)
    ensures var n, xs, bs := |rows|, Ledger.Amounts(Ledger.Reverse(Movements(rows))), Ledger.Reverse(Balances(rows));
      |xs| == n && |bs| == n
      && (forall i :: 0 <= i < n ==> xs[i] == rows[n - 1 - i].amount)
      && (forall i :: 0 <= i < n ==> bs[i] == rows[n - 1 - i].balance)
  {
    ReversedAmounts(rows, Movements(rows));
    ReversedBalances(rows, Balances(rows));
  }

  /** The balances taken from the rows, read from the last back. */
  lemma ReversedBalances(rows: seq<Row>, b: seq<int>)
    requires |b| == |rows| && forall k :: 0 <= k < |rows| ==> b[k] == rows[k].balance
    ensures var n, bs := |rows|, Ledger.Reverse(b);
      |bs| == n && forall i :: 0 <= i < n ==> bs[i] == rows[n - 1 - i].balance
  {
    var n := |rows|;
    var bs := Ledger.Reverse(b);
    forall i | 0 <= i < n
      ensures bs[i] == rows[n - 1 - i].balance
    {
      assert bs[i] == b[n - 1 - i];
    }
  }

  /** The amounts of movements taken from the rows, read from the last back. */
  lemma ReversedAmounts(rows: seq<Row>, ms: seq<Ledger.Movement>)
    requires |ms| == |rows| && forall k :: 0 <= k < |rows| ==> ms[k].amount == rows[k].amount
    ensures var n, xs := |rows|, Ledger.Amounts(Ledger.Reverse(ms));
      |xs| == n && forall i :: 0 <= i < n ==> xs[i] == rows[n - 1 - i].amount
  {
    var n := |rows|;
    var rm := Ledger.Reverse(ms);
    var xs := Ledger.Amounts(rm);
    forall i | 0 <= i < n
      ensures xs[i] == rows[n - 1 - i].amount
    {
      assert xs[i] == rm[i].amount && rm[i] == ms[n - 1 - i];
    }
  }

  /** Read oldest first, chained rows are chained balances. */
  lemma ReversedChain(rows: seq<Row>)
    requires RowsChain(rows)
    ensures Ledger.Chained(Ledger.Amounts(Ledger.Reverse(Movements(rows))), Ledger.Reverse(Balances(rows)))
  {
    var n := |rows|;
    var xs := Ledger.Amounts(Ledger.Reverse(Movements(rows)));
    var bs := Ledger.Reverse(Balances(rows));
    ReversedRows(rows);
    forall i | 1 <= i < |bs|
      ensures bs[i] == bs[i - 1] + xs[i]
    {
      assert bs[i] == rows[n - 1 - i].balance && bs[i - 1] == rows[n - 1 - (i - 1)].balance;
      assert xs[i] == rows[n - 1 - i].amount;
    }
  }
}
