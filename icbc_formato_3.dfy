/**
 * ICBC statements in the third format (a transfer summary).
 *
 * The holder is the first of the first five lines that is not blank and does not hold the
 * spaced-out "P ER I OD O" heading. The period comes from the first of the first twenty
 * lines that, with its blanks removed, mentions "PERIODO" and holds two `dd/mm/yyyy`
 * dates; the year of the first date completes every movement date (2024 when no line
 * qualifies). A movement line, once stripped, is `^(\d{2}-\d{2})\s+(.*)$` with at least
 * one Argentine amount in the rest: the last amount is the movement's, and the description
 * is the rest with every occurrence of that amount removed, stripped. Lines that mention
 * "FECHA" or "HOJA N" are headers. A movement whose description mentions "ORD." or
 * "ORDENANTE" is a credit, any other a debit.
 */
module IcbcFormato3 {
  import opened Text
  import opened Optional
  import opened Amounts
  import Ledger

  type Movement = Ledger.Movement

  const Unknown := "Sin Especificar"
  const DefaultYear := "2024"
  const HolderLines := 5
  const PeriodLines := 20
  const SpacedHeading := "P ER I OD O"
  const PeriodKey := "PERIODO"
  const DateKey := "FECHA"
  const PageKey := "HOJA N"
  const CreditKeys := ["ORD.", "ORDENANTE"]

  // ---------------------------------------------------------------------------
  // Amounts

  /** An amount: dots dropped, the comma read as the decimal point, and 0 when that is not a number. */
  function ParseImporte(s: string): int {
    ParseArPlain(s).GetOr(0)
  }

  /** An Argentine literal reads as its value, never as the fallback. */
  lemma ImporteOfLiteral(t: string)
    requires IsArLiteral(t)
    ensures ParseArPlain(t).Some? && ParseImporte(t) == ParseArPlain(t).value
    ensures AllDigits(RemoveChar(t[..|t| - 3], '.')) && AllDigits(t[|t| - 2..])
    ensures ParseImporte(t) == DigitsValue(RemoveChar(t[..|t| - 3], '.')) * 100 + DigitsValue(t[|t| - 2..])
  {
    ArLiteralValue(t);
  }

  /** An Argentine literal reads as a non-negative amount. */
  lemma LiteralReads(t: string)
    requires IsArLiteral(t)
    ensures ParseArPlain(t).Some? && ParseArPlain(t).value >= 0 && ParseImporte(t) == ParseArPlain(t).value
  {
    ArLiteralValue(t);
  }

  /** The canonical literal of an amount reads back as that amount. */
  lemma ImporteRoundTrip(c: nat)
    ensures ParseImporte(FormatAr(c)) == c
  {
    ArRoundTrip(c);
  }

  /** An Argentine literal holds only digits, dots and commas, and its third character from the end is the comma. */
  lemma {:induction false} LiteralChars(t: string)
    requires IsArLiteral(t)
    ensures t[|t| - 3] == ','
    ensures forall i :: 0 <= i < |t| ==> IsDigit(t[i]) || t[i] == '.' || t[i] == ','
  {
    var g := t[..|t| - 3];
    GroupedDigitsOnly(g, '.');
    forall i | 0 <= i < |t|
      ensures IsDigit(t[i]) || t[i] == '.' || t[i] == ','
    {
      if i < |g| {
        assert t[i] == g[i];
      } else if i > |g| {
        assert t[i] == t[|t| - 2..][i - |t| + 2];
      }
    }
  }

  // ---------------------------------------------------------------------------
  // The holder and the period

  /** A line that names the holder: not blank, and not the spaced-out period heading. */
  function HolderOf(line: string): (r: Option<string>)
    ensures r.Some? <==> Strip(line) != [] && !Contains(line, SpacedHeading)
    ensures r.Some? ==> r.value == Strip(line)
  {
    if Strip(line) != [] && !Contains(line, SpacedHeading) then Some(Strip(line)) else None
  }

  function Min(a: nat, b: nat): nat {
    if a < b then a else b
  }

  /** What each of the first `n` lines says of the holder. */
  function HolderCandidates(lines: seq<string>): (r: seq<Option<string>>)
    ensures |r| == Min(HolderLines, |lines|) && forall k :: 0 <= k < |r| ==> r[k] == HolderOf(lines[k])
  {
    seq(Min(HolderLines, |lines|), k requires 0 <= k < Min(HolderLines, |lines|) => HolderOf(lines[k]))
  }

  /** The holder: the first naming line among the first five, or "Sin Especificar". */
  function Holder(lines: seq<string>): (r: string)
    ensures (forall k :: 0 <= k < Min(HolderLines, |lines|) ==> HolderOf(lines[k]).None?) ==> r == Unknown
  {
    FirstSome(HolderCandidates(lines)).GetOr(Unknown)
  }

  /** The first naming line among the first five names the holder. */
  lemma {:induction false} HolderIsFirst(lines: seq<string>, k: nat)
    requires k < HolderLines && k < |lines| && HolderOf(lines[k]).Some?
    requires forall j :: 0 <= j < k ==> HolderOf(lines[j]).None?
    ensures Holder(lines) == Strip(lines[k])
  {
    FirstSomeAt(HolderCandidates(lines), k);
  }

  /** The holder search: the first five lines, stopping at the first that names the holder. */
  method FindHolder(lines: seq<string>) returns (holder: string)
    ensures holder == Holder(lines)
  {
    ghost var c := HolderCandidates(lines);
    var n := Min(HolderLines, |lines|);
    var i := 0;
    while i < n
      invariant 0 <= i <= n
      invariant forall j :: 0 <= j < i ==> c[j].None?
    {
      var h := HolderOf(lines[i]);
      assert h == c[i];
      if h.Some? {
        FirstSomeAt(c, i);
        return h.value;
      }
      i := i + 1;
    }
    return Unknown;
  }

  /** The date pattern `\d{2}/\d{2}/\d{4}` tried at `q`. */
  function DateMatch(s: string, q: nat): (r: Option<nat>)
    ensures r.Some? ==> q < r.value <= |s|
  {
    if DateAt(s, q, '/', 4) then Some(q + 10) else None
  }

  /** Every `dd/mm/yyyy` date of a text, left to right (`re.findall`). */
  function Dates(s: string): (r: seq<string>)
    ensures forall k :: 0 <= k < |r| ==> |r[k]| == 10 && DateAt(r[k], 0, '/', 4)
  {
    var at := (q: nat) => DateMatch(s, q);
    assert IsMatcher(s, at);
    var sp := Spans(s, at, 0);
    var r := Texts(s, sp);
    forall k | 0 <= k < |r|
      ensures |r[k]| == 10 && DateAt(r[k], 0, '/', 4)
    {
      assert at(sp[k].0) == Some(sp[k].1);
      DateSlice(s, sp[k].0);
    }
    r
  }

  /** A date found at `q` is a date on its own. */
  lemma DateSlice(s: string, q: nat)
    requires DateAt(s, q, '/', 4)
    ensures |s[q..q + 10]| == 10 && DateAt(s[q..q + 10], 0, '/', 4)
  {
    var t := s[q..q + 10];
    assert forall i :: 0 <= i < 10 ==> t[i] == s[q + i];
  }

  /** The last part of a `dd/mm/yyyy` date split at its slashes (`split("/")[-1]`). */
  function LastPart(date: string): string {
    var parts := SplitChar(date, '/');
    parts[|parts| - 1]
  }

  /** The last slash-separated part of a date is its four-digit year. */
  lemma {:induction false} YearOfDate(t: string)
    requires |t| == 10 && DateAt(t, 0, '/', 4)
    ensures LastPart(t) == t[6..] && |LastPart(t)| == 4 && AllDigits(LastPart(t))
  {
    assert t == t[..2] + ['/'] + t[3..];
    IndexOfAfter(t[..2], '/', t[3..]);
    var u := t[3..];
    assert u == u[..2] + ['/'] + u[3..];
    IndexOfAfter(u[..2], '/', u[3..]);
    assert u[3..] == t[6..];
    IndexOfAbsent(t[6..], '/');
    assert SplitChar(t[6..], '/') == [t[6..]];
    assert SplitChar(u, '/') == [u[..2]] + [t[6..]];
    assert SplitChar(t, '/') == [t[..2]] + SplitChar(u, '/');
  }

  /** The period text and the year of a statement. */
  datatype Period = Period(text: string, year: string)

  /**
   * A period line: blanks removed, it mentions "PERIODO" and holds at least two dates. The
   * period runs between the first two; the year is the first one's.
   */
  function PeriodOf(line: string): (r: Option<Period>)
    ensures r.Some? ==> Contains(RemoveChar(line, ' '), PeriodKey) && |Dates(RemoveChar(line, ' '))| >= 2
    ensures r.Some? ==> |r.value.year| == 4 && AllDigits(r.value.year)
  {
    var clean := RemoveChar(line, ' ');
    if !Contains(clean, PeriodKey) then None
    else
      var ds := Dates(clean);
      if |ds| < 2 then None
      else
        YearOfDate(ds[0]);
        Some(Period("Del " + ds[0] + " al " + ds[1], LastPart(ds[0])))
  }

  /** What each of the first twenty lines says of the period. */
  function PeriodCandidates(lines: seq<string>): (r: seq<Option<Period>>)
    ensures |r| == Min(PeriodLines, |lines|) && forall k :: 0 <= k < |r| ==> r[k] == PeriodOf(lines[k])
  {
    seq(Min(PeriodLines, |lines|), k requires 0 <= k < Min(PeriodLines, |lines|) => PeriodOf(lines[k]))
  }

  /** The period: the first period line among the first twenty, or "Sin Especificar" in the year 2024. */
  function StatementPeriod(lines: seq<string>): (r: Period)
    ensures (forall k :: 0 <= k < Min(PeriodLines, |lines|) ==> PeriodOf(lines[k]).None?) ==> r == Period(Unknown, DefaultYear)
  {
    FirstSome(PeriodCandidates(lines)).GetOr(Period(Unknown, DefaultYear))
  }

  /** The first period line among the first twenty decides the period and the year. */
  lemma {:induction false} PeriodIsFirst(lines: seq<string>, k: nat)
    requires k < PeriodLines && k < |lines| && PeriodOf(lines[k]).Some?
    requires forall j :: 0 <= j < k ==> PeriodOf(lines[j]).None?
    ensures StatementPeriod(lines) == PeriodOf(lines[k]).value
  {
    FirstSomeAt(PeriodCandidates(lines), k);
  }

  /** The year is always four digits: the default, or a period line's. */
  lemma PeriodYear(lines: seq<string>)
    ensures |StatementPeriod(lines).year| == 4 && AllDigits(StatementPeriod(lines).year)
  {
    var c := PeriodCandidates(lines);
    var f := FirstSome(c);
    if f.Some? {
      var k :| 0 <= k < |c| && c[k] == f;
      assert f == PeriodOf(lines[k]);
    }
  }

  /** The period search: the first twenty lines, stopping at the first period line. */
  method FindPeriod(lines: seq<string>) returns (period: Period)
    ensures period == StatementPeriod(lines)
  {
    ghost var c := PeriodCandidates(lines);
    var n := Min(PeriodLines, |lines|);
    var i := 0;
    while i < n
      invariant 0 <= i <= n
      invariant forall j :: 0 <= j < i ==> c[j].None?
    {
      var p := PeriodOf(lines[i]);
      assert p == c[i];
      if p.Some? {
        FirstSomeAt(c, i);
        return p.value;
      }
      i := i + 1;
    }
    return Period(Unknown, DefaultYear);
  }

  // ---------------------------------------------------------------------------
  // Movement lines

  /** A header line: it mentions "FECHA" or "HOJA N". */
  predicate IsHeader(line: string) {
    Contains(line, DateKey) || Contains(line, PageKey)
  }

  /**
   * The line pattern `^(\d{2}-\d{2})\s+(.*)$`: the day and month, and the rest after the
   * blanks. A line holds no line break, so `.*` reaches its end.
   */
  function LineMatch(line: string): (r: Option<(string, string)>)
    ensures r.Some? <==> 6 <= |line| && DigitsAt(line, 0, 2) && line[2] == '-' && DigitsAt(line, 3, 2) && IsSpace(line[5])
    ensures r.Some? ==> r.value.0 == line[..5] && EndsWith(line, r.value.1)
    ensures r.Some? ==> r.value.1 == [] || !IsSpace(r.value.1[0])
  {
    if 6 <= |line| && DigitsAt(line, 0, 2) && line[2] == '-' && DigitsAt(line, 3, 2) && IsSpace(line[5]) then
      var e := SpaceEnd(line, 5);
      Some((line[..5], line[e..]))
    else None
  }

  /** The amount pattern `\d{1,3}(?:\.\d{3})*,\d{2}` tried at `q`. */
  function ArMatch(s: string, q: nat): Option<nat> {
    GroupedAt(s, q, '.', ',')
  }

  /** Every Argentine amount of a text, left to right (`re.findall`). */
  function ArAmounts(s: string): (r: seq<string>)
    ensures forall k :: 0 <= k < |r| ==> IsArLiteral(r[k])
  {
    var at := (q: nat) => ArMatch(s, q);
    assert IsMatcher(s, at);
    var sp := Spans(s, at, 0);
    assert forall k :: 0 <= k < |sp| ==> at(sp[k].0) == Some(sp[k].1);
    Texts(s, sp)
  }

  /** The date of a movement: the day and month with the dash made a slash, then the year. */
  function FullDate(dayMonth: string, year: string): string {
    ReplaceChar(dayMonth, '-', '/') + "/" + year
  }

  /**
   * The movement of a matched line, from its day and month and the rest: the rest must hold
   * an amount; the last one is the movement's, and the description is the rest with every
   * occurrence of it removed, stripped.
   */
  function RowFrom(dayMonth: string, rest: string, year: string): (r: Option<Movement>)
    ensures r.Some? <==> ArAmounts(rest) != []
    ensures r.Some? ==> var ams := ArAmounts(rest);
      ParseArPlain(ams[|ams| - 1]).Some? && r.value.amount == ParseArPlain(ams[|ams| - 1]).value >= 0
    ensures r.Some? ==> r.value.date == FullDate(dayMonth, year)
  {
    var ams := ArAmounts(rest);
    if ams == [] then None
    else
      var monto := ams[|ams| - 1];
      LiteralReads(monto);
      Some(Ledger.Movement(FullDate(dayMonth, year), Strip(ReplaceAll(rest, monto, "")), ParseImporte(monto)))
  }

  /** The movement of a line, if it is one: the line is stripped, a header is skipped, and the line pattern must match. */
  function RowOf(line: string, year: string): (r: Option<Movement>)
    ensures r.Some? ==> r.value.amount >= 0
  {
    var l := Strip(line);
    if IsHeader(l) then None
    else match LineMatch(l)
      case None => None
      case Some(m) => RowFrom(m.0, m.1, year)
  }

  /** A header is skipped, and so is a line the pattern does not match or whose rest holds no amount. */
  lemma RowSkipped(line: string, year: string)
    ensures RowOf(line, year).None? <==> (IsHeader(Strip(line)) || LineMatch(Strip(line)).None?
      || ArAmounts(LineMatch(Strip(line)).value.1) == [])
  {
  }

  /** A printed movement line: day, dash, month, a blank, the description, a blank and the amount. */
  function PrintedLine(day: string, month: string, description: string, amount: string): string {
    day + "-" + month + " " + description + " " + amount
  }

  /** A description the line pattern reads back: not blank at either end, and without a comma. */
  predicate IsPrintable(description: string) {
    description != [] && !IsSpace(description[0]) && !IsSpace(description[|description| - 1])
    && forall i :: 0 <= i < |description| ==> description[i] != ','
  }

  /**
   * Reading a printed line gives back its date, description and amount: its last amount is
   * the printed one, and removing it leaves the description. A header is skipped.
   */
  lemma {:induction false} RowRoundTrip(day: string, month: string, description: string, amount: string, year: string)
    requires |day| == 2 && AllDigits(day) && |month| == 2 && AllDigits(month)
    requires IsPrintable(description) && IsArLiteral(amount)
    ensures var line := PrintedLine(day, month, description, amount);
      RowOf(line, year) == if IsHeader(line) then None
        else Some(Ledger.Movement(day + "/" + month + "/" + year, description, ParseImporte(amount)))
  {
    var line := PrintedLine(day, month, description, amount);
    var dm, rest := day + "-" + month, description + " " + amount;
    PrintedParts(day, month, description, amount);
    assert Strip(line) == line && line == dm + " " + rest;
    PrintedMatch(day, month, rest);
    if !IsHeader(line) {
      assert RowOf(line, year) == RowFrom(dm, rest, year);
      RestAmounts(description, amount);
      RestRemoved(description, amount);
      ReplaceCharSingle(day, month, '-', '/');
    }
  }

  /** A printed line is already stripped. */
  lemma PrintedParts(day: string, month: string, description: string, amount: string)
    requires |day| == 2 && AllDigits(day) && IsArLiteral(amount)
    ensures var line := PrintedLine(day, month, description, amount);
      Strip(line) == line && line == (day + "-" + month) + " " + (description + " " + amount)
  {
    var line := PrintedLine(day, month, description, amount);
    LiteralChars(amount);
    assert amount[|amount| - 1] == amount[|amount| - 2..][1];
    assert line[|line| - 1] == amount[|amount| - 1];
    assert line[0] == day[0];
    StripNoop(line);
  }

  /** The line pattern splits a printed line into its date and the rest. */
  lemma PrintedMatch(day: string, month: string, rest: string)
    requires |day| == 2 && AllDigits(day) && |month| == 2 && AllDigits(month)
    requires rest != [] && !IsSpace(rest[0])
    ensures LineMatch((day + "-" + month) + " " + rest) == Some((day + "-" + month, rest))
  {
    var dm := day + "-" + month;
    var line := dm + " " + rest;
    assert line[..5] == dm && line[5] == ' ' && line[6] == rest[0];
    assert forall i :: 0 <= i < 2 ==> line[i] == day[i] && line[3 + i] == month[i];
    assert SpaceEnd(line, 6) == 6;
    assert line[6..] == rest;
  }

  /** A literal written after a blank in `s`, with no comma before it, is the only amount of `s`. */
  lemma RestAmounts(description: string, amount: string)
    requires IsPrintable(description) && IsArLiteral(amount)
    ensures ArAmounts(description + " " + amount) == [amount]
  {
    var s := description + " " + amount;
    var p := |description| + 1;
    var at := (q: nat) => ArMatch(s, q);
    assert IsMatcher(s, at);
    assert s[p..p + |amount|] == amount;
    GroupedAtLiteral(s, p, amount, '.', ',');
    forall j: nat | j < p
      ensures at(j).None?
    {
      NoAmountBefore(description, amount, j);
    }
    SingleSpan(s, at, p, 0);
    assert s[p..|s|] == amount;
  }

  /** No amount starts in a comma-free description or at the blank after it. */
  lemma NoAmountBefore(description: string, amount: string, j: nat)
    requires IsPrintable(description) && j <= |description|
    ensures ArMatch(description + " " + amount, j).None?
  {
    var s := description + " " + amount;
    if ArMatch(s, j).Some? {
      MatchInside(description, amount, j);
    }
  }

  /** A match that starts in the description ends inside it, on a comma three characters before its end. */
  lemma MatchInside(description: string, amount: string, j: nat)
    requires j <= |description| && ArMatch(description + " " + amount, j).Some?
    ensures var e := ArMatch(description + " " + amount, j).value;
      3 <= e <= |description| && description[e - 3] == ','
  {
    var s := description + " " + amount;
    var e := ArMatch(s, j).value;
    MatchChars(s, j);
    assert s[|description|] == ' ';
    BlankStops(s, j, e, |description|);
    CommaInDescription(description, amount, e);
  }

  /** A run without blanks from `j` that passes a blank at `n` cannot exist: it stops at `n` at the latest. */
  lemma BlankStops(s: string, j: nat, e: nat, n: nat)
    requires j <= n < |s| && s[n] == ' ' && e <= |s| && forall i :: j <= i < e ==> s[i] != ' '
    ensures e <= n
  {
  }

  /** Inside the description, the line's characters are the description's. */
  lemma CommaInDescription(description: string, amount: string, e: nat)
    requires 3 <= e <= |description|
    ensures (description + " " + amount)[e - 3] == description[e - 3]
  {
  }

  /** An occurrence of a literal that starts in the description ends inside it, on a comma three characters before its end. */
  lemma OccurrenceInside(description: string, amount: string, i: nat)
    requires i <= |description| && IsArLiteral(amount) && OccursAt(description + " " + amount, amount, i)
    ensures 3 <= i + |amount| <= |description| && description[i + |amount| - 3] == ','
  {
    var s := description + " " + amount;
    OccurrenceChars(s, amount, i);
    assert s[|description|] == ' ';
    BlankStops(s, i, i + |amount|, |description|);
    LiteralChars(amount);
    CommaInDescription(description, amount, i + |amount|);
  }

  /** A match holds no blank, and its comma is three characters before its end. */
  lemma MatchChars(s: string, j: nat)
    requires ArMatch(s, j).Some?
    ensures var e := ArMatch(s, j).value; s[e - 3] == ',' && forall i :: j <= i < e ==> s[i] != ' '
  {
    var e := ArMatch(s, j).value;
    var t := s[j..e];
    LiteralChars(t);
    assert forall i :: j <= i < e ==> s[i] == t[i - j];
  }

  /** An occurrence of a literal holds no blank, and its comma is three characters before its end. */
  lemma OccurrenceChars(s: string, t: string, i: nat)
    requires IsArLiteral(t) && OccursAt(s, t, i)
    ensures s[i + |t| - 3] == ',' && forall k :: i <= k < i + |t| ==> s[k] != ' '
  {
    LiteralChars(t);
    assert forall k :: i <= k < i + |t| ==> s[k] == t[k - i];
  }

  /** Removing every occurrence of the amount leaves the description and its blank. */
  lemma RestRemoved(description: string, amount: string)
    requires IsPrintable(description) && IsArLiteral(amount)
    ensures Strip(ReplaceAll(description + " " + amount, amount, "")) == description
  {
    var x := description + " ";
    forall i | 0 <= i < |x|
      ensures !OccursAt(x + amount, amount, i)
    {
      if OccursAt(x + amount, amount, i) {
        assert x + amount == description + " " + amount;
        OccurrenceInside(description, amount, i);
      }
    }
    ReplaceTail(x, amount);
    StripBlankAfter(description);
  }

  /** Removing every occurrence of `t` from `x + t`, when none starts inside `x`, leaves `x`. */
  lemma {:induction false} ReplaceTail(x: string, t: string)
    requires t != [] && forall i :: 0 <= i < |x| ==> !OccursAt(x + t, t, i)
    ensures ReplaceAll(x + t, t, "") == x
    decreases |x|
  {
    var s := x + t;
    if x == [] {
      assert s == t && s[..|t|] == t;
      assert ReplaceAll(s[|t|..], t, "") == [];
    } else {
      assert s[..|t|] != t by {
        assert !OccursAt(s, t, 0);
        assert s[0..0 + |t|] == s[..|t|];
      }
      assert s[1..] == x[1..] + t;
      forall i | 0 <= i < |x[1..]|
        ensures !OccursAt(x[1..] + t, t, i)
      {
        assert !OccursAt(s, t, i + 1);
        assert (x[1..] + t)[i..i + |t|] == s[i + 1..i + 1 + |t|];
      }
      ReplaceTail(x[1..], t);
    }
  }

  // ---------------------------------------------------------------------------
  // The movement listing

  /** What each line says: its movement, or nothing. */
  function RowsOf(lines: seq<string>, year: string): (r: seq<Option<Movement>>)
    ensures |r| == |lines| && forall i :: 0 <= i < |lines| ==> r[i] == RowOf(lines[i], year)
  {
    seq(|lines|, i requires 0 <= i < |lines| => RowOf(lines[i], year))
  }

  /** The movements of the lines, in line order. */
  function Rows(lines: seq<string>, year: string): seq<Movement> {
    Values(RowsOf(lines, year))
  }

  /** The movement loop: each line in turn, keeping those that read as a movement. */
  method ReadRows(lines: seq<string>, year: string) returns (rows: seq<Movement>)
    ensures rows == Rows(lines, year)
  {
    ghost var xs := RowsOf(lines, year);
    rows := [];
    var i := 0;
    while i < |lines|
      invariant 0 <= i <= |lines|
      invariant rows == Values(xs[..i])
    {
      assert xs[..i + 1][..i] == xs[..i];
      var m := RowOf(lines[i], year);
      assert m == xs[..i + 1][i];
      if m.Some? {
        rows := rows + [m.value];
      }
      i := i + 1;
    }
    assert xs[..|lines|] == xs;
  }

  /** The listing is empty exactly when no line reads as a movement. */
  lemma RowsEmpty(lines: seq<string>, year: string)
    ensures Rows(lines, year) == [] <==> forall i :: 0 <= i < |lines| ==> RowOf(lines[i], year).None?
  {
    ValuesEmpty(RowsOf(lines, year));
  }

  /** Every movement of the listing is the movement of one of the lines, so none is negative. */
  lemma RowsNonNegative(lines: seq<string>, year: string)
    ensures forall k :: 0 <= k < |Rows(lines, year)| ==> Rows(lines, year)[k].amount >= 0
  {
    var xs := RowsOf(lines, year);
    ValuesFrom(xs);
    forall k | 0 <= k < |Rows(lines, year)|
      ensures Rows(lines, year)[k].amount >= 0
    {
      var m := Rows(lines, year)[k];
      assert Some(m) in xs;
      var i :| 0 <= i < |xs| && xs[i] == Some(m);
      assert RowOf(lines[i], year) == Some(m);
    }
  }

  // ---------------------------------------------------------------------------
  // Credits, debits and their totals

  /** A credit: the description mentions "ORD." or "ORDENANTE". */
  predicate IsCredit(description: string) {
    ContainsAny(description, CreditKeys)
  }

  /** The credit column's total. */
  function CreditTotal(ms: seq<Movement>): int {
    if ms == [] then 0
    else CreditTotal(ms[..|ms| - 1]) + (if IsCredit(ms[|ms| - 1].description) then ms[|ms| - 1].amount else 0)
  }

  /** The debit column's total. */
  function DebitTotal(ms: seq<Movement>): int {
    if ms == [] then 0
    else DebitTotal(ms[..|ms| - 1]) + (if IsCredit(ms[|ms| - 1].description) then 0 else ms[|ms| - 1].amount)
  }

  /** Every movement lands in exactly one column, so the two totals add up to the sum of the amounts. */
  lemma {:induction false} TotalsPartition(ms: seq<Movement>)
    ensures DebitTotal(ms) + CreditTotal(ms) == Ledger.Sum(Ledger.Amounts(ms))
  {
    if ms != [] {
      var init := ms[..|ms| - 1];
      TotalsPartition(init);
      assert ms == init + [ms[|ms| - 1]];
      Ledger.SumAmountsSnoc(init, ms[|ms| - 1]);
    }
  }

  /** The totals of non-negative amounts are non-negative. */
  lemma {:induction false} TotalsNonNegative(ms: seq<Movement>)
    requires forall k :: 0 <= k < |ms| ==> ms[k].amount >= 0
    ensures DebitTotal(ms) >= 0 && CreditTotal(ms) >= 0
  {
    if ms != [] {
      TotalsNonNegative(ms[..|ms| - 1]);
    }
  }

  /** The sheet loop: each movement goes to the credit or the debit column. */
  method Totals(ms: seq<Movement>) returns (debits: int, credits: int)
    ensures debits == DebitTotal(ms) && credits == CreditTotal(ms)
  {
    debits, credits := 0, 0;
    var i := 0;
    while i < |ms|
      invariant 0 <= i <= |ms|
      invariant debits == DebitTotal(ms[..i]) && credits == CreditTotal(ms[..i])
    {
      assert ms[..i + 1][..i] == ms[..i];
      if IsCredit(ms[i].description) {
        credits := credits + ms[i].amount;
      } else {
        debits := debits + ms[i].amount;
      }
      i := i + 1;
    }
    assert ms[..|ms|] == ms;
  }

  // ---------------------------------------------------------------------------
  // The statement

  /** The transfer report: holder, period, the movements and the two column totals. */
  datatype Report = Report(holder: string, period: string, rows: seq<Movement>, debits: int, credits: int)

  /** The report of a statement, or nothing when no line reads as a movement. */
  function Parse(lines: seq<string>): (r: Option<Report>)
    ensures r.None? <==> forall i :: 0 <= i < |lines| ==> RowOf(lines[i], StatementPeriod(lines).year).None?
    ensures r.Some? ==> r.value.debits + r.value.credits == Ledger.Sum(Ledger.Amounts(r.value.rows))
    ensures r.Some? ==> r.value.debits >= 0 && r.value.credits >= 0
  {
    var period := StatementPeriod(lines);
    var rows := Rows(lines, period.year);
    RowsEmpty(lines, period.year);
    if rows == [] then None
    else
      TotalsPartition(rows);
      RowsNonNegative(lines, period.year);
      TotalsNonNegative(rows);
      Some(Report(Holder(lines), period.text, rows, DebitTotal(rows), CreditTotal(rows)))
  }

  /** The whole parser: holder, period, the movement loop, then the sheet's totals. */
  method Process(lines: seq<string>) returns (r: Option<Report>)
    ensures r == Parse(lines)
  {
    var holder := FindHolder(lines);
    var period := FindPeriod(lines);
    var rows := ReadRows(lines, period.year);
    if rows == [] {
      return None;
    }
    var debits, credits := Totals(rows);
    return Some(Report(holder, period.text, rows, debits, credits));
  }
}
