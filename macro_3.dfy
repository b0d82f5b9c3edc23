/**
 * Banco Macro statements, multi-account branch format.
 *
 * The statement lists several current accounts. Each account section opens with a header
 * `CUENTA CORRIENTE ... NRO.: <number>`, gives the balance of the last statement, one dated
 * line per movement, and the final balance. Amounts are Argentine literals; a movement's
 * sign is not printed but follows from the column its amount ends in: amounts in the debit
 * column end left of a threshold taken from the column header. The text extraction
 * sometimes fuses two movement lines into one, so those lines are split again before the
 * scan. Every account becomes one sheet, under a short name made unique by a counter.
 */
module Macro3 {
  import opened Text
  import opened Optional
  import opened Amounts
  import Ledger

  // ---------------------------------------------------------------------------
  // Amounts: `parse_monto`

  /** `float(s.strip().replace(".", "").replace(",", "."))`; zero when empty or unreadable. */
  function ParseMonto(s: string): int {
    if s == [] then 0 else ParseArPlain(Strip(s)).GetOr(0)
  }

  /** Reading a printed amount gives it back, and with a leading minus its opposite. */
  lemma MontoRoundTrip(c: nat)
    ensures ParseMonto(FormatAr(c)) == c
    ensures ParseMonto("-" + FormatAr(c)) == -(c as int)
  {
    ArSignedRoundTrip(c);
    ArFormatStartsWithDigit(c);
    ArFormatEndsInDigit(c);
    var t := FormatAr(c);
    StripNoop(t);
    assert ("-" + t)[|t|] == t[|t| - 1];
    StripNoop("-" + t);
  }

  /** What the amount pattern `-?\d{1,3}(?:\.\d{3})*,\d{2}` matches. */
  predicate IsMonto(t: string) {
    if t != [] && t[0] == '-' then IsArLiteral(t[1..]) else IsArLiteral(t)
  }

  /** A matched amount reads as its digits: not negative without a minus, the opposite of the unsigned reading with one. */
  lemma MontoSign(t: string)
    requires IsMonto(t)
    ensures t[0] != '-' ==> ParseMonto(t) >= 0 && ParseArPlain(t).Some? && ParseMonto(t) == ParseArPlain(t).value
    ensures t[0] == '-' ==> ParseMonto(t) <= 0 && ParseMonto(t) == -ParseMonto(t[1..])
  {
    if t[0] == '-' {
      MontoNegative(t);
    } else {
      ArLiteralPlain(t);
    }
  }

  /** A minus in front of an Argentine literal negates its reading. */
  lemma MontoNegative(t: string)
    requires t != [] && t[0] == '-' && IsArLiteral(t[1..])
    ensures ParseMonto(t) == -ParseMonto(t[1..]) && ParseMonto(t[1..]) >= 0
  {
    var u := t[1..];
    ArLiteralPlain(u);
    assert t == "-" + u;
    ArPlainNegative(u);
    assert t[|t| - 1] == u[|u| - 1];
    MontoOfStripped(t);
  }

  /** A text with no blank at either end is read without stripping. */
  lemma MontoOfStripped(t: string)
    requires t != [] && !IsSpace(t[0]) && !IsSpace(t[|t| - 1])
    ensures ParseMonto(t) == ParseArPlain(t).GetOr(0)
  {
    StripNoop(t);
  }

  /** An Argentine literal starts and ends with a digit and reads as a non-negative amount. */
  lemma ArLiteralPlain(u: string)
    requires IsArLiteral(u)
    ensures IsDigit(u[0]) && IsDigit(u[|u| - 1])
    ensures ParseArPlain(u).Some? && ParseArPlain(u).value >= 0 && ParseMonto(u) == ParseArPlain(u).value
  {
    ArLiteralValue(u);
    GroupedEnds(u[..|u| - 3], '.');
    assert u[0] == u[..|u| - 3][0];
    StripNoop(u);
  }

  /**
   * The amount pattern tried at position `p`, as the end of its match: an optional minus,
   * then an Argentine literal (a minus not followed by one makes the try fail, since the
   * literal cannot start at the minus).
   */
  function MontoAt(s: string, p: nat): (r: Option<nat>)
    ensures r.Some? ==> p < r.value <= |s| && IsMonto(s[p..(r.value)])
  {
    if p < |s| && s[p] == '-' then
      match GroupedAt(s, p + 1, '.', ',')
      case Some(e) =>
        assert s[p..e][1..] == s[p + 1..e];
        Some(e)
      case None => None
    else GroupedAt(s, p, '.', ',')
  }

  /** Every amount of a line, left to right (`re_monto.findall`). */
  function Montos(s: string): (r: seq<string>)
    ensures forall k :: 0 <= k < |r| ==> IsMonto(r[k])
  {
    var at := (q: nat) => MontoAt(s, q);
    assert IsMatcher(s, at);
    var sp := Spans(s, at, 0);
    assert forall k :: 0 <= k < |sp| ==> IsMonto(s[sp[k].0..sp[k].1]) by {
      forall k | 0 <= k < |sp|
        ensures IsMonto(s[sp[k].0..sp[k].1])
      {
        assert at(sp[k].0) == Some(sp[k].1);
      }
    }
    Texts(s, sp)
  }

  // ---------------------------------------------------------------------------
  // The column threshold: `_detectar_umbral`

  /** The threshold used when no column header is found. */
  const DefaultThreshold: int := 90

  /**
   * The threshold a column header gives: a line that starts with `FECHA` and names
   * `DEBITOS` before `CREDITOS` yields the midpoint between where the two words end.
   */
  function HeaderThreshold(l: string): Option<int> {
    var u := Upper(l);
    if StartsWith(Upper(Strip(l)), "FECHA") && Contains(u, "DEBITOS") && Contains(u, "CREDITOS") then
      var d, c := Find(u, "DEBITOS"), Find(u, "CREDITOS");
      if d != -1 && c != -1 && c > d then Some((d + 7 + c + 8) / 2) else None
    else None
  }

  /** A header's threshold lies between the end of `DEBITOS` and the end of `CREDITOS`, which comes after it. */
  lemma HeaderThresholdBounds(l: string)
    requires HeaderThreshold(l).Some?
    ensures var u := Upper(l);
      var d, c := Find(u, "DEBITOS"), Find(u, "CREDITOS");
      0 <= d < c && d + 7 <= HeaderThreshold(l).value <= c + 8
  {
  }

  /** The threshold of the first column header at or after `i`, or the default. */
  function ThresholdFrom(lines: seq<string>, i: nat): (r: int)
    requires i <= |lines|
    decreases |lines| - i
    ensures r == DefaultThreshold || exists k :: i <= k < |lines| && HeaderThreshold(lines[k]) == Some(r)
    ensures (forall k :: i <= k < |lines| ==> HeaderThreshold(lines[k]).None?) ==> r == DefaultThreshold
  {
    if i == |lines| then DefaultThreshold
    else match HeaderThreshold(lines[i])
      case Some(t) => t
      case None => ThresholdFrom(lines, i + 1)
  }

  /** The threshold of the statement: some column header's, or the default when there is none. */
  function Threshold(lines: seq<string>): (r: int)
    ensures r == DefaultThreshold || exists k :: 0 <= k < |lines| && HeaderThreshold(lines[k]) == Some(r)
    ensures (forall k :: 0 <= k < |lines| ==> HeaderThreshold(lines[k]).None?) ==> r == DefaultThreshold
  {
    ThresholdFrom(lines, 0)
  }

  /** The first column header decides the threshold. */
  lemma {:induction false} FirstHeaderDecides(lines: seq<string>, i: nat, k: nat)
    requires i <= k < |lines| && HeaderThreshold(lines[k]).Some?
    requires forall j :: i <= j < k ==> HeaderThreshold(lines[j]).None?
    ensures ThresholdFrom(lines, i) == HeaderThreshold(lines[k]).value
    decreases k - i
  {
    var h := HeaderThreshold(lines[i]);
    if i < k {
      assert h.None?;
      FirstHeaderDecides(lines, i + 1, k);
      assert ThresholdFrom(lines, i) == ThresholdFrom(lines, i + 1);
    } else {
      assert ThresholdFrom(lines, i) == h.value;
    }
  }

  /** Without a column header the default threshold is used. */
  lemma {:induction false} NoHeaderDefault(lines: seq<string>, i: nat)
    requires i <= |lines|
    requires forall j :: i <= j < |lines| ==> HeaderThreshold(lines[j]).None?
    ensures ThresholdFrom(lines, i) == DefaultThreshold
    decreases |lines| - i
  {
    if i < |lines| {
      NoHeaderDefault(lines, i + 1);
    }
  }

  // ---------------------------------------------------------------------------
  // Sheet names: `_nombre_hoja` and the unique-name loop

  /**
   * The short sheet name of an account: by the first keyword of `DOLAR`, `ESPECIAL` with
   * `PESOS`, `BANCARIA` and `PESOS` its name holds, else `Cuenta` and its position.
   */
  function SheetBase(name: string, idx: nat): (r: string)
    ensures |r| <= 31 && r != []
    ensures Contains(Upper(name), "DOLAR") ==> r == "CC Dolares"
    ensures !Contains(Upper(name), "DOLAR") && !Contains(Upper(name), "BANCARIA") && !Contains(Upper(name), "PESOS")
      ==> StartsWith(r, "Cuenta ")
  {
    var u := Upper(name);
    var short :=
      if Contains(u, "DOLAR") then "CC Dolares"
      else if Contains(u, "ESPECIAL") && Contains(u, "PESOS") then "CC Esp Pesos"
      else if Contains(u, "BANCARIA") then "CC Bancaria"
      else if Contains(u, "PESOS") then "CC Pesos"
      else "Cuenta " + Numeral(idx + 1);
    Slice(short, 0, 31)
  }

  /** The `n`th try at a free name: the base, a space and the counter. */
  function Candidate(base: string, n: nat): string {
    base + " " + Numeral(n)
  }

  /** A candidate is the base and a space, followed by the digits of its counter. */
  lemma CandidateShape(base: string, n: nat)
    ensures var r := Candidate(base, n);
      |r| > |base| + 1 && r[..|base| + 1] == base + " "
      && AllDigits(r[|base| + 1..]) && DigitsValue(r[|base| + 1..]) == n
  {
    var r := Candidate(base, n);
    assert r[|base| + 1..] == Numeral(n);
  }

  /** A name tried before the counter reached `m`: the base itself or a candidate below `m`. */
  predicate Earlier(base: string, t: string, m: nat) {
    t == base
    || (|t| > |base| + 1 && t[..|base| + 1] == base + " " && AllDigits(t[|base| + 1..])
        && DigitsValue(t[|base| + 1..]) < m)
  }

  /**
   * The first free name: the base when it is free, else the base with the first counter
   * from 2 on that gives a free name.
   */
  method UniqueName(base: string, used: set<string>) returns (name: string)
    ensures FirstFree(base, used, name)
  {
    name := base;
    var counter := 2;
    ghost var tried: set<string> := {};
    while name in used
      invariant Searching(base, used, tried, name, counter)
      decreases |used - tried|
    {
      TryNext(base, used, tried, name, counter);
      tried := tried + {name};
      name := Candidate(base, counter);
      counter := counter + 1;
    }
    if counter > 2 {
      assert name == Candidate(base, counter - 1);
    }
  }

  /**
   * `name` is the first free name for `base`: the base when it is not used, else the base
   * with the first counter from 2 on whose name is not used.
   */
  ghost predicate FirstFree(base: string, used: set<string>, name: string) {
    && name !in used
    && (base !in used ==> name == base)
    && (base in used ==>
         exists n :: 2 <= n && name == Candidate(base, n) && forall k :: 2 <= k < n ==> Candidate(base, k) in used)
  }

  /** The names given so far. */
  ghost function Used(sheets: seq<string>): set<string> {
    set k | 0 <= k < |sheets| :: sheets[k]
  }

  /** Each sheet name is the first free name for its account's short name, against the names given before it. */
  ghost predicate NamedInTurn(names: seq<string>, sheets: seq<string>) {
    |sheets| == |names| && forall k :: 0 <= k < |names| ==> FirstFree(SheetBase(names[k], k), Used(sheets[..k]), sheets[k])
  }

  /**
   * The state of the unique-name search: `name` is the try for `counter - 1` (the base for
   * the first try), every earlier try is taken, and `tried` holds the earlier tries.
   */
  ghost predicate Searching(base: string, used: set<string>, tried: set<string>, name: string, counter: nat) {
    && counter >= 2
    && (counter == 2 ==> name == base && tried == {})
    && (counter > 2 ==> name == Candidate(base, counter - 1) && base in used)
    && tried <= used
    && (forall t :: t in tried ==> Earlier(base, t, counter - 1))
    && (forall k :: 2 <= k < counter - 1 ==> Candidate(base, k) in used)
  }

  /** A name found taken is one not tried before: the search moves on to the next counter and nearer to exhausting the used names. */
  lemma TryNext(base: string, used: set<string>, tried: set<string>, name: string, counter: nat)
    requires Searching(base, used, tried, name, counter) && name in used
    ensures Searching(base, used, Insert(tried, name), Candidate(base, counter), counter + 1)
    ensures |used - Insert(tried, name)| < |used - tried|
  {
    if counter > 2 {
      CandidateShape(base, counter - 1);
      assert !Earlier(base, name, counter - 1);
    }
    forall t | t in tried + {name}
      ensures Earlier(base, t, counter)
    {
      if t == name && counter > 2 {
        CandidateShape(base, counter - 1);
      }
    }
    assert (used - (tried + {name})) + {name} == used - tried;
  }

  /**
   * The sheet names of the accounts, in order: each account's short name, made unique
   * against the names given before it.
   */
  method SheetNames(names: seq<string>) returns (sheets: seq<string>)
    ensures NamedInTurn(names, sheets) && Distinct(sheets)
  {
    sheets := [];
    var used: set<string> := {};
    for k := 0 to |names|
      invariant |sheets| == k && Distinct(sheets) && used == Used(sheets)
      invariant forall j :: 0 <= j < k ==> FirstFree(SheetBase(names[j], j), Used(sheets[..j]), sheets[j])
    {
      var base := SheetBase(names[k], k);
      var name := UniqueName(base, used);
      UsedSnoc(sheets, name);
      assert (sheets + [name])[..k] == sheets;
      assert forall j :: 0 <= j < k ==> (sheets + [name])[..j] == sheets[..j];
      sheets := sheets + [name];
      used := used + {name};
    }
  }

  lemma UsedSnoc(sheets: seq<string>, name: string)
    ensures Used(sheets + [name]) == Insert(Used(sheets), name)
  {
    var r := sheets + [name];
    assert r[|sheets|] == name;
    assert forall k :: 0 <= k < |sheets| ==> r[k] == sheets[k];
  }

  /** Names given in turn are all different, since each is free against those before it. */
  lemma NamedInTurnDistinct(names: seq<string>, sheets: seq<string>)
    requires NamedInTurn(names, sheets)
    ensures Distinct(sheets)
  {
    forall i, j | 0 <= i < j < |sheets|
      ensures sheets[i] != sheets[j]
    {
      assert sheets[..j][i] == sheets[i];
      assert sheets[i] in Used(sheets[..j]);
    }
  }

  // ---------------------------------------------------------------------------
  // Fused movement lines: `_split_lineas_fusionadas`

  /**
   * The pattern `\s{2,}\d{2}/\d{2}/\d{2}\s` tried at `p`, as the end of its match: two or
   * more blanks, a `dd/mm/yy` date where the blanks end, and one more blank.
   */
  function FusedAt(s: string, p: nat): (r: Option<nat>)
    ensures r.Some? ==> p < r.value <= |s|
  {
    if p + 1 < |s| && IsSpace(s[p]) && IsSpace(s[p + 1]) then
      var e := SpaceEnd(s, p);
      if DateAt(s, e, '/', 2) && e + 8 < |s| && IsSpace(s[e + 8]) then Some(e + 9) else None
    else None
  }

  /** The matches of the fused-date pattern, left to right. */
  function FusedSpans(s: string): (r: seq<(nat, nat)>)
    ensures forall k :: 0 <= k < |r| ==> r[k].0 < r[k].1 <= |s| && FusedAt(s, r[k].0) == Some(r[k].1)
    ensures forall k :: 0 <= k < |r| - 1 ==> r[k].1 <= r[k + 1].0
  {
    var at := (q: nat) => FusedAt(s, q);
    assert IsMatcher(s, at);
    Spans(s, at, 0)
  }

  /**
   * Where a match cuts the line: at the start of its date, when the match starts at
   * column 20 or later and the date after column 20.
   */
  function CutOf(s: string, span: (nat, nat)): (r: Option<nat>)
    ensures r.Some? ==> span.0 <= |s| && r.value == SpaceEnd(s, span.0) && r.value > 20
  {
    if span.0 < 20 || span.0 > |s| then None
    else
      var start := SpaceEnd(s, span.0);
      if start > 20 then Some(start) else None
  }

  /** The cuts of a list of matches, in order. */
  function CutsOf(s: string, spans: seq<(nat, nat)>): (r: seq<nat>)
    ensures |r| <= |spans|
  {
    if spans == [] then []
    else (match CutOf(s, spans[0]) case Some(c) => [c] case None => []) + CutsOf(s, spans[1..])
  }

  /**
   * The parts a line falls into at the cuts, from position `pos`: the text up to each cut
   * with its trailing blanks removed, and the rest of the line after the last cut.
   */
  function Pieces(s: string, cuts: seq<nat>, pos: nat): (r: seq<string>)
    ensures |r| == |cuts| + 1
  {
    if cuts == [] then [From(s, pos)]
    else [RStrip(Slice(s, pos, cuts[0]))] + Pieces(s, cuts[1..], cuts[0])
  }

  /** The parts that are not blank. */
  function NonBlank(parts: seq<string>): (r: seq<string>)
    ensures |r| <= |parts|
    ensures forall k :: 0 <= k < |r| ==> Strip(r[k]) != []
  {
    if parts == [] then []
    else (if Strip(parts[0]) != [] then [parts[0]] else []) + NonBlank(parts[1..])
  }

  /** The lines one line is split into. */
  function SplitLine(s: string): seq<string> {
    var sp := FusedSpans(s);
    NonBlank(Pieces(s, CutsOf(s, sp), 0))
  }

  /** The lines a statement's lines are split into, in order. */
  function SplitLines(lines: seq<string>): seq<string> {
    if lines == [] then [] else SplitLines(lines[..|lines| - 1]) + SplitLine(lines[|lines| - 1])
  }

  /** Splits every line at its fused dates and drops the blank parts. */
  method SplitFused(lines: seq<string>) returns (result: seq<string>)
    ensures result == SplitLines(lines)
  {
    result := [];
    for i := 0 to |lines|
      invariant result == SplitLines(lines[..i])
    {
      var parts := CutLine(lines[i]);
      SplitLinesStep(lines, i);
      SplitLineOf(lines[i], parts);
      result := result + NonBlank(parts);
    }
    assert lines[..|lines|] == lines;
  }

  lemma SplitLinesStep(lines: seq<string>, i: nat)
    requires i < |lines|
    ensures SplitLines(lines[..i + 1]) == SplitLines(lines[..i]) + SplitLine(lines[i])
  {
    assert lines[..i + 1][..i] == lines[..i];
  }

  lemma SplitLineOf(s: string, parts: seq<string>)
    requires parts == Pieces(s, CutsOf(s, FusedSpans(s)), 0)
    ensures NonBlank(parts) == SplitLine(s)
  {
  }

  /** The parts of one line, cut with a cursor at each fused date after column 20. */
  method CutLine(s: string) returns (parts: seq<string>)
    ensures parts == Pieces(s, CutsOf(s, FusedSpans(s)), 0)
  {
    var sp := FusedSpans(s);
    parts := [];
    var pos := 0;
    for k := 0 to |sp|
      invariant parts + Pieces(s, CutsOf(s, sp[k..]), pos) == Pieces(s, CutsOf(s, sp), 0)
    {
      var cut := CutOf(s, sp[k]);
      CutsStep(s, sp, k);
      if cut.Some? {
        var rest := CutsOf(s, sp[k + 1..]);
        PiecesStep(s, cut.value, rest, pos);
        Regroup(parts, [RStrip(Slice(s, pos, cut.value))], Pieces(s, rest, cut.value));
        parts := parts + [RStrip(Slice(s, pos, cut.value))];
        pos := cut.value;
      }
    }
    assert sp[|sp|..] == [];
    parts := parts + [From(s, pos)];
  }

  /** Cutting first at `c` gives the part before `c`, then the parts from `c` on. */
  lemma PiecesStep(s: string, c: nat, rest: seq<nat>, pos: nat)
    ensures Pieces(s, [c] + rest, pos) == [RStrip(Slice(s, pos, c))] + Pieces(s, rest, c)
  {
    assert ([c] + rest)[1..] == rest;
  }

  /** The cuts from the `k`th match on: its own cut, if any, then those of the matches after it. */
  lemma CutsStep(s: string, sp: seq<(nat, nat)>, k: nat)
    requires k < |sp|
    ensures CutOf(s, sp[k]).Some? ==> CutsOf(s, sp[k..]) == [CutOf(s, sp[k]).value] + CutsOf(s, sp[k + 1..])
    ensures CutOf(s, sp[k]).None? ==> CutsOf(s, sp[k..]) == CutsOf(s, sp[k + 1..])
  {
    assert sp[k..][1..] == sp[k + 1..];
  }

  /** Matches that all start before column 20 cut nowhere. */
  lemma {:induction false} NoEarlyCuts(s: string, spans: seq<(nat, nat)>)
    requires forall k :: 0 <= k < |spans| ==> spans[k].0 < 20
    ensures CutsOf(s, spans) == []
  {
    if spans != [] {
      NoEarlyCuts(s, spans[1..]);
    }
  }

  /** A line with no fused date from column 20 on is kept as it is, or dropped when blank. */
  lemma UnfusedLineKept(s: string)
    requires forall q: nat :: 20 <= q ==> FusedAt(s, q).None?
    ensures SplitLine(s) == if Strip(s) != [] then [s] else []
  {
    var sp := FusedSpans(s);
    NoEarlyCuts(s, sp);
    assert Pieces(s, [], 0) == [s];
  }

  /**
   * Cuts that each start a `dd/mm/yy` date followed by a blank, and that lie at least the
   * length of that date and blank apart.
   */
  predicate DatedCuts(s: string, cuts: seq<nat>) {
    forall k :: 0 <= k < |cuts| ==>
      DateAt(s, cuts[k], '/', 2) && cuts[k] + 9 <= |s| && (k + 1 < |cuts| ==> cuts[k] + 9 <= cuts[k + 1])
  }

  /** Every cut comes at or after the start of the first match it was drawn from. */
  lemma {:induction false} CutsFrom(s: string, spans: seq<(nat, nat)>, m: nat)
    requires forall k :: 0 <= k < |spans| ==> m <= spans[k].0
    ensures forall k :: 0 <= k < |CutsOf(s, spans)| ==> m <= CutsOf(s, spans)[k]
  {
    if spans != [] {
      CutsFrom(s, spans[1..], m);
    }
  }

  /** The cuts drawn from the fused-date matches are dated and spaced. */
  lemma {:induction false} CutsAreDated(s: string, spans: seq<(nat, nat)>)
    requires forall k :: 0 <= k < |spans| ==> spans[k].0 < spans[k].1 <= |s| && FusedAt(s, spans[k].0) == Some(spans[k].1)
    requires forall k :: 0 <= k < |spans| - 1 ==> spans[k].1 <= spans[k + 1].0
    ensures DatedCuts(s, CutsOf(s, spans))
  {
    if spans != [] {
      var rest := spans[1..];
      CutsAreDated(s, rest);
      var cut := CutOf(s, spans[0]);
      if cut.Some? {
        var tail := CutsOf(s, rest);
        assert forall k :: 0 <= k < |rest| ==> spans[0].1 <= rest[k].0 by {
          forall k | 0 <= k < |rest|
            ensures spans[0].1 <= rest[k].0
          {
            SpansAscend(spans, 0, k + 1);
          }
        }
        CutsFrom(s, rest, spans[0].1);
        HeadCutDated(s, spans[0]);
        DatedCons(s, cut.value, tail);
        assert CutsOf(s, spans) == [cut.value] + tail;
      }
    }
  }

  /** The cut of a fused-date match starts the match's date and lies before the match's end. */
  lemma HeadCutDated(s: string, span: (nat, nat))
    requires FusedAt(s, span.0) == Some(span.1) && CutOf(s, span).Some?
    ensures var c := CutOf(s, span).value; DateAt(s, c, '/', 2) && c + 9 == span.1 <= |s|
  {
  }

  /** A dated cut spaced before dated cuts that follow it keeps them dated. */
  lemma DatedCons(s: string, c: nat, tail: seq<nat>)
    requires DateAt(s, c, '/', 2) && c + 9 <= |s| && DatedCuts(s, tail)
    requires forall k :: 0 <= k < |tail| ==> c + 9 <= tail[k]
    ensures DatedCuts(s, [c] + tail)
  {
  }

  /** Matches that do not overlap end before every later one starts. */
  lemma {:induction false} SpansAscend(spans: seq<(nat, nat)>, i: nat, j: nat)
    requires forall k :: 0 <= k < |spans| ==> spans[k].0 < spans[k].1
    requires forall k :: 0 <= k < |spans| - 1 ==> spans[k].1 <= spans[k + 1].0
    requires i < j < |spans|
    ensures spans[i].1 <= spans[j].0
    decreases j - i
  {
    if i + 1 < j {
      SpansAscend(spans, i + 1, j);
    }
  }

  /** Removing trailing blanks keeps every character up to the last non-blank one. */
  lemma RStripKeeps(t: string, n: nat)
    requires 0 < n <= |t| && !IsSpace(t[n - 1])
    ensures n <= |RStrip(t)| && RStrip(t)[..n] == t[..n]
  {
  }

  /** The parts cut at dated cuts each start with that date, all but the first. */
  lemma {:induction false} PiecesStartDated(s: string, cuts: seq<nat>, pos: nat)
    requires DatedCuts(s, cuts)
    ensures forall k :: 1 <= k < |Pieces(s, cuts, pos)| ==> DateAt(Pieces(s, cuts, pos)[k], 0, '/', 2)
    decreases |cuts|
  {
    if cuts != [] {
      var c, rest := cuts[0], cuts[1..];
      assert DatedCuts(s, rest);
      PiecesStartDated(s, rest, c);
      PiecesStep(s, c, rest, pos);
      assert cuts == [c] + rest;
      FirstPieceDated(s, c, rest);
      var tail := Pieces(s, rest, c);
      assert forall k :: 1 <= k < |Pieces(s, cuts, pos)| ==> Pieces(s, cuts, pos)[k] == tail[k - 1];
    }
  }

  /** The part that starts at a dated cut starts with its date. */
  lemma FirstPieceDated(s: string, c: nat, rest: seq<nat>)
    requires DateAt(s, c, '/', 2) && c + 9 <= |s| && (rest != [] ==> c + 9 <= rest[0] <= |s|)
    ensures DateAt(Pieces(s, rest, c)[0], 0, '/', 2)
  {
    var head := Pieces(s, rest, c)[0];
    if rest == [] {
      assert head == s[c..];
      DatePrefix(s, c, head);
    } else {
      var t := s[c..rest[0]];
      assert head == RStrip(t);
      RStripKeeps(t, 8);
      DatePrefix(s, c, head);
    }
  }

  /** A text that starts with the eight characters of a date at `c` starts with that date. */
  lemma DatePrefix(s: string, c: nat, h: string)
    requires DateAt(s, c, '/', 2) && 8 <= |h| && c + 8 <= |s| && h[..8] == s[c..c + 8]
    ensures DateAt(h, 0, '/', 2)
  {
    assert forall i :: 0 <= i < 8 ==> h[i] == s[c + i] by {
      forall i | 0 <= i < 8
        ensures h[i] == s[c + i]
      {
        assert h[i] == h[..8][i];
      }
    }
  }

  /** Every line a fused line is split into, after the first part, starts with its `dd/mm/yy` date. */
  lemma FusedPartsStartDated(s: string)
    ensures var parts := Pieces(s, CutsOf(s, FusedSpans(s)), 0);
      forall k :: 1 <= k < |parts| ==> DateAt(parts[k], 0, '/', 2)
  {
    var sp := FusedSpans(s);
    CutsAreDated(s, sp);
    PiecesStartDated(s, CutsOf(s, sp), 0);
  }

  lemma Regroup(a: seq<string>, b: seq<string>, c: seq<string>)
    ensures a + b + c == a + (b + c)
  {
  }

  // ---------------------------------------------------------------------------
  // Account headers: `(CUENTA\s+CORRIENTE.*?)NRO\.:\s*(\S+)`, ignoring case

  /** `NRO.:` at `q` of the upper-cased line, followed after optional blanks by a non-blank. */
  predicate NroAt(u: string, q: nat) {
    OccursAt(u, "NRO.:", q) && SpaceEnd(u, q + 5) < |u|
  }

  /** The first `NRO.:` from `from` on that is followed by a number (the lazy `.*?`). */
  function NroFrom(u: string, from: nat): (r: Option<nat>)
    decreases |u| - from
    ensures r.Some? ==> from <= r.value && NroAt(u, r.value)
    ensures r.Some? ==> forall q :: from <= q < r.value ==> !NroAt(u, q)
    ensures r.None? ==> forall q :: from <= q ==> !NroAt(u, q)
  {
    if from >= |u| then None
    else if NroAt(u, from) then Some(from)
    else NroFrom(u, from + 1)
  }

  /** The header pattern tried at `p` of the upper-cased line: where its `NRO.:` is. */
  function HeaderAt(u: string, p: nat): (r: Option<nat>)
    ensures r.Some? ==> p < r.value && NroAt(u, r.value)
  {
    if OccursAt(u, "CUENTA", p) && p + 6 < |u| && IsSpace(u[p + 6]) then
      var e := SpaceEnd(u, p + 6);
      if OccursAt(u, "CORRIENTE", e) then NroFrom(u, e + 9) else None
    else None
  }

  /** The leftmost start of the header pattern from `p` on. */
  function HeaderFrom(u: string, p: nat): (r: Option<nat>)
    decreases |u| - p
    ensures r.Some? ==> p <= r.value && HeaderAt(u, r.value).Some?
    ensures r.Some? ==> forall q :: p <= q < r.value ==> HeaderAt(u, q).None?
    ensures r.None? ==> forall q :: p <= q ==> HeaderAt(u, q).None?
  {
    if p >= |u| then None
    else if HeaderAt(u, p).Some? then Some(p)
    else HeaderFrom(u, p + 1)
  }

  /**
   * `re_cuenta_header.search`: the account name (the text from `CUENTA` up to `NRO.:`,
   * stripped) and the account number (the word after `NRO.:`).
   */
  function AccountHeader(line: string): (r: Option<(string, string)>)
    ensures r.Some? ==> IsWord(r.value.1)
    ensures r.None? <==> forall q :: HeaderAt(Upper(line), q).None?
  {
    match HeaderFrom(Upper(line), 0)
    case Some(p) => Some(HeaderFields(line, p))
    case None => None
  }

  /** The name and the number of a header that starts at `p`. */
  function HeaderFields(line: string, p: nat): (r: (string, string))
    requires HeaderAt(Upper(line), p).Some?
    ensures IsWord(r.1)
  {
    var u := Upper(line);
    var q := HeaderAt(u, p).value;
    var e := SpaceEnd(u, q + 5);
    // Blanks are the same in the line and in its upper-cased form.
    UpperKeepsSpace(line[e]);
    var w := e + WordLength(line[e..]);
    // The number is a run of non-blanks, which `strip()` leaves as it is.
    (Strip(line[p..q]), line[e..w])
  }

  /** Upper-casing neither makes nor unmakes a blank. */
  lemma UpperKeepsSpace(c: char)
    ensures IsSpace(UpperChar(c)) <==> IsSpace(c)
  {
  }

  // ---------------------------------------------------------------------------
  // Balances and movements

  /** The last amount of a line, when it has one. */
  function LastMonto(line: string): (r: Option<string>)
    ensures r.Some? ==> IsMonto(r.value)
  {
    var ms := Montos(line);
    if ms == [] then None else Some(ms[|ms| - 1])
  }

  /**
   * The text before the last occurrence of `m` ends in a minus, blanks aside (an amount
   * found in the line always occurs in it, so `rfind` finds it).
   */
  predicate MinusBefore(line: string, m: string) {
    var i := RFind(line, m);
    i >= 0 && EndsWith(RStrip(line[..i]), "-")
  }

  /**
   * A balance line's value: its last amount, made negative when the text before where
   * that amount last occurs ends in a minus; none without an amount.
   */
  function BalanceOf(line: string): (r: Option<int>)
    ensures r.Some? <==> LastMonto(line).Some?
    ensures r.Some? ==> Abs(r.value) == Abs(ParseMonto(LastMonto(line).value))
    ensures r.Some? && MinusBefore(line, LastMonto(line).value) ==> r.value <= 0
    ensures r.Some? && !MinusBefore(line, LastMonto(line).value) ==> r.value == ParseMonto(LastMonto(line).value)
  {
    match LastMonto(line)
    case None => None
    case Some(m) =>
      var v := ParseMonto(m);
      Some(if MinusBefore(line, m) then -Abs(v) else v)
  }

  /** A balance printed without any minus is read as a non-negative amount. */
  lemma UnsignedBalance(line: string)
    requires LastMonto(line).Some? && LastMonto(line).value[0] != '-' && !MinusBefore(line, LastMonto(line).value)
    ensures BalanceOf(line).Some? && BalanceOf(line).value >= 0
  {
    MontoSign(LastMonto(line).value);
  }

  /**
   * `re.sub(r'\s+0\s*$', '', s)`: a final `0` standing alone after blanks is removed,
   * with the blanks around it.
   */
  function DropTrailingZero(s: string): (r: string)
    ensures |r| <= |s| && r == s[..|r|]
  {
    var t := RStrip(s);
    if |t| >= 2 && t[|t| - 1] == '0' && IsSpace(t[|t| - 2]) then RStrip(t[..|t| - 1]) else s
  }

  /** `re.sub(r'\s{2,}', ' ', s)`: every run of two or more blanks becomes one space. */
  function CollapseBlanks(s: string): (r: string)
    decreases |s|
    ensures forall i :: 0 <= i < |r| - 1 ==> !(IsSpace(r[i]) && IsSpace(r[i + 1]))
    ensures s != [] && !IsSpace(s[0]) ==> r != [] && r[0] == s[0]
  {
    if s == [] then []
    else if IsSpace(s[0]) then
      var e := SpaceEnd(s, 0);
      var rest := CollapseBlanks(s[e..]);
      assert e < |s| ==> !IsSpace(s[e..][0]);
      (if e >= 2 then " " else [s[0]]) + rest
    else
      var rest := CollapseBlanks(s[1..]);
      [s[0]] + rest
  }

  /** Each text of `ms` removed once from `s`, first occurrence first, in order. */
  function RemoveEach(s: string, ms: seq<string>): string
    decreases |ms|
  {
    if ms == [] then s else RemoveEach(ReplaceFirst(s, ms[0], ""), ms[1..])
  }

  /** A movement's description: its amounts removed, a lone final `0` dropped, blanks collapsed. */
  function Describe(rest: string, ms: seq<string>): (r: string)
    ensures r != [] ==> !IsSpace(r[0]) && !IsSpace(r[|r| - 1])
    ensures forall i :: 0 <= i < |r| - 1 ==> !(IsSpace(r[i]) && IsSpace(r[i + 1]))
  {
    var d := Strip(DropTrailingZero(RemoveEach(rest, ms)));
    var c := CollapseBlanks(d);
    var r := Strip(c);
    StripKeepsSingles(c);
    r
  }

  /** Stripping a text without two blanks in a row leaves none in a row. */
  lemma StripKeepsSingles(c: string)
    requires forall i :: 0 <= i < |c| - 1 ==> !(IsSpace(c[i]) && IsSpace(c[i + 1]))
    ensures var r := Strip(c); forall i :: 0 <= i < |r| - 1 ==> !(IsSpace(r[i]) && IsSpace(r[i + 1]))
  {
    var l := LStrip(c);
    assert forall i :: 0 <= i < |l| ==> l[i] == c[|c| - |l| + i];
    var r := RStrip(l);
    assert forall i :: 0 <= i < |r| ==> r[i] == l[i];
  }

  /** `^\s*(\d{2}/\d{2}/\d{2})\s+`: where the date of a movement line starts, if it is one. */
  function DatedAt(line: string): (r: Option<nat>)
    ensures r.Some? ==> r.value + 8 < |line| && DateAt(line, r.value, '/', 2) && IsSpace(line[r.value + 8])
    ensures r.Some? ==> forall i :: 0 <= i < r.value ==> IsSpace(line[i])
  {
    var p := SpaceEnd(line, 0);
    if DateAt(line, p, '/', 2) && p + 8 < |line| && IsSpace(line[p + 8]) then Some(p) else None
  }

  /** Where the first amount of the line ends, as `find` locates it. */
  function FirstMontoEnd(line: string, first: string): int {
    Find(line, first) + |first|
  }

  /**
   * The movement a dated line records: its date, its description, and its first amount,
   * a debit when that amount ends at or left of the threshold and a credit otherwise;
   * none for a line that is not dated or has no amount.
   */
  function MovementOf(line: string, threshold: int): (r: Option<Ledger.Movement>)
    ensures r.Some? <==> DatedAt(line) .Some? && Montos(line) != []
    ensures r.Some? ==> Abs(r.value.amount) == Abs(ParseMonto(Montos(line)[0]))
    ensures r.Some? ==> (FirstMontoEnd(line, Montos(line)[0]) <= threshold ==> r.value.amount <= 0)
    ensures r.Some? ==> (FirstMontoEnd(line, Montos(line)[0]) > threshold ==> r.value.amount >= 0)
    ensures r.Some? ==> |r.value.date| == 8 && DateAt(r.value.date, 0, '/', 2)
  {
    match DatedAt(line)
    case None => None
    case Some(p) =>
      var ms := Montos(line);
      if ms == [] then None
      else
        var date := line[p..p + 8];
        DatePrefix(line, p, date);
        var v := ParseMonto(ms[0]);
        var amount := if FirstMontoEnd(line, ms[0]) <= threshold then -Abs(v) else Abs(v);
        Some(Ledger.Movement(date, Describe(line[SpaceEnd(line, p + 8)..], ms), amount))
  }

  // ---------------------------------------------------------------------------
  // What a line means to the account scan

  /** What one line of the statement does to the scan. */
  datatype Kind =
    | Header(name: string, nro: string)   // opens (or re-opens) an account section
    | Ignored                             // changes nothing
    | Closes                              // ends the current section
    | OpeningBalance(value: Option<int>)  // `SALDO ULTIMO EXTRACTO`
    | ClosingBalance(value: Option<int>)  // `SALDO FINAL`
    | Dated(movement: Ledger.Movement)    // a movement of the current account

  /** `^\s*-\s+-\s+-`: the separator that ends a section. */
  predicate IsSeparator(line: string) {
    var a := SpaceEnd(line, 0);
    a + 1 < |line| && line[a] == '-' && IsSpace(line[a + 1])
    && var b := SpaceEnd(line, a + 1);
    b + 1 < |line| && line[b] == '-' && IsSpace(line[b + 1])
    && var c := SpaceEnd(line, b + 1);
    c < |line| && line[c] == '-'
  }

  /** Column headings, page furniture and notices, which the scan passes over. */
  predicate IsFurniture(u: string) {
    Contains(u, "DETALLE DE MOVIMIENTO") || (StartsWith(u, "FECHA") && Contains(u, "DESCRIPCION"))
    || Contains(u, "CLAVE BANCARIA") || Contains(u, "TASA NOM") || Contains(u, "INFORMACION DE SU")
  }

  /** More page furniture, tested after the end of the accounts' summary. */
  predicate IsMoreFurniture(u: string) {
    Contains(u, "SALDOS CONSOLIDADOS") || Contains(u, "HOJA NRO") || Contains(u, "TIPO CUENTA")
    || (Contains(u, "SUCURSAL") && Contains(u, "MONEDA"))
  }

  /** The legal footer that ends a section. */
  predicate IsFooter(u: string) {
    Contains(u, "LOS DEPOSITOS EN PESOS") || Contains(u, "LOS DEP\U{d3}SITOS EN PESOS")
  }

  /** Tax information, which is not a movement. */
  predicate IsTaxNote(u: string) {
    Contains(u, "TOTAL COBRADO") || Contains(u, "D. 409") || Contains(u, "ESTIMADO CLIENTE")
    || Contains(u, "IIBB SIRCREB") || Contains(u, "LE HABILITEN")
  }

  /**
   * Classifies a line, with the tests in the order the scan makes them: an account header
   * first; then, on the stripped upper-cased line, blanks and furniture, the summary that
   * closes the section, more furniture, the separator and the footer that close it, tax
   * notes, the two balances, and finally a dated line with an amount.
   */
  function Classify(line: string, threshold: int): (r: Kind)
    ensures r.Header? <==> AccountHeader(line).Some?
    ensures r.Header? ==> IsWord(r.nro) && AccountHeader(line) == Some((r.name, r.nro))
    ensures r.Dated? ==> MovementOf(line, threshold) == Some(r.movement)
    ensures (r.OpeningBalance? || r.ClosingBalance?) ==> r.value == BalanceOf(line)
  {
    var u := Strip(Upper(line));
    match AccountHeader(line)
    case Some((name, nro)) => Header(name, nro)
    case None =>
      if u == [] || IsFurniture(u) then Ignored
      else if Contains(u, "RESUMEN GENERAL") then Closes
      else if IsMoreFurniture(u) then Ignored
      else if IsSeparator(line) || IsFooter(u) then Closes
      else if IsTaxNote(u) then Ignored
      else if Contains(u, "SALDO ULTIMO EXTRACTO") then OpeningBalance(BalanceOf(line))
      else if Contains(u, "SALDO FINAL") then ClosingBalance(BalanceOf(line))
      else match MovementOf(line, threshold)
        case Some(m) => Dated(m)
        case None => Ignored
  }

  // ---------------------------------------------------------------------------
  // The account scan

  /** An account: its names, its balances, whether each was read, and its movements. */
  datatype Account = Account(
    name: string, short: string,
    opening: int, closing: int, openingSet: bool, closingSet: bool,
    movements: seq<Ledger.Movement>)

  /** The accounts found so far, by number; their numbers in order of appearance; the current one. */
  datatype Scanner = Scanner(accounts: map<string, Account>, order: seq<string>, current: Option<string>)

  /** Every account is listed once in the order, and the current one is an account. */
  ghost predicate Registry(sc: Scanner) {
    Distinct(sc.order)
    && (forall n :: n in sc.accounts <==> n in sc.order)
    && (sc.current.Some? ==> sc.current.value in sc.accounts)
  }

  /** A new account: no balances read yet and no movements. */
  function NewAccount(name: string, nro: string): Account {
    Account(name + " NRO.: " + nro, name, 0, 0, false, false, [])
  }

  /**
   * One line of the scan. A header selects its account, registering it the first time its
   * number is seen; without a current account every other line is passed over; otherwise
   * a closing line ends the section, the first read opening balance and the last read
   * closing balance are kept, and a movement is added to the current account.
   */
  function Step(sc: Scanner, k: Kind): (r: Scanner)
    requires Registry(sc)
    ensures Registry(r) && Keeps(sc, r)
  {
    if k.Header? then Register(sc, k.name, k.nro)
    else if sc.current.None? then sc
    else Apply(sc, sc.current.value, k)
  }

  /** What a later state of the scan keeps of an earlier one: every account, advanced. */
  ghost predicate Keeps(sc: Scanner, r: Scanner) {
    forall n :: n in sc.accounts ==> n in r.accounts && Advanced(sc.accounts[n], r.accounts[n])
  }

  /**
   * What a later state of an account keeps of an earlier one: its names, its opening
   * balance once read, its closing balance being read, and its movements as a prefix.
   */
  predicate Advanced(a: Account, b: Account) {
    && b.name == a.name && b.short == a.short
    && (a.openingSet ==> b.openingSet && b.opening == a.opening)
    && (a.closingSet ==> b.closingSet)
    && a.movements <= b.movements
  }

  /** A header selects account `nro`, registering it at the end of the order when it is new. */
  function Register(sc: Scanner, name: string, nro: string): (r: Scanner)
    requires Registry(sc)
    ensures Registry(r) && Keeps(sc, r) && r.current == Some(nro)
    ensures nro in sc.accounts ==> r.accounts == sc.accounts && r.order == sc.order
    ensures nro !in sc.accounts ==> r.order == sc.order + [nro] && r.accounts[nro] == NewAccount(name, nro)
  {
    if nro in sc.accounts then sc.(current := Some(nro))
    else Scanner(sc.accounts[nro := NewAccount(name, nro)], sc.order + [nro], Some(nro))
  }

  /**
   * What a line that is not a header does to an account: the first opening balance read is
   * kept, a closing balance read replaces the one before, a movement is added at the end.
   */
  function Advance(a: Account, k: Kind): (b: Account)
    ensures Advanced(a, b)
    ensures k.OpeningBalance? && k.value.Some? && !a.openingSet ==> b.opening == k.value.value && b.openingSet
    ensures k.ClosingBalance? && k.value.Some? ==> b.closing == k.value.value && b.closingSet
    ensures k.Dated? ==> b.movements == a.movements + [k.movement]
    ensures !k.Dated? ==> b.movements == a.movements
    ensures !k.OpeningBalance? ==> b.opening == a.opening && b.openingSet == a.openingSet
    ensures !k.ClosingBalance? ==> b.closing == a.closing && b.closingSet == a.closingSet
  {
    match k
    case OpeningBalance(v) => if !a.openingSet && v.Some? then a.(opening := v.value, openingSet := true) else a
    case ClosingBalance(v) => if v.Some? then a.(closing := v.value, closingSet := true) else a
    case Dated(m) => a.(movements := a.movements + [m])
    case _ => a
  }

  /** What a line that is not a header does to the scan with current account `n`: a closing line ends the section, any other advances `n`. */
  function Apply(sc: Scanner, n: string, k: Kind): (r: Scanner)
    requires Registry(sc) && n in sc.accounts && !k.Header?
    ensures Registry(r) && Keeps(sc, r) && r.order == sc.order
    ensures k.Closes? ==> r == sc.(current := None)
    ensures !k.Closes? ==> r == sc.(accounts := sc.accounts[n := Advance(sc.accounts[n], k)])
  {
    if k.Closes? then sc.(current := None)
    else sc.(accounts := sc.accounts[n := Advance(sc.accounts[n], k)])
  }

  /** The scan after the given lines, from no accounts and no current account. */
  function Run(lines: seq<string>, threshold: int): (r: Scanner)
    ensures Registry(r)
  {
    if lines == [] then Scanner(map[], [], None)
    else Step(Run(lines[..|lines| - 1], threshold), Classify(lines[|lines| - 1], threshold))
  }

  /** The account scan: reads every line with the cursor on the current account. */
  method Scan(lines: seq<string>, threshold: int) returns (sc: Scanner)
    ensures sc == Run(lines, threshold)
  {
    var accounts: map<string, Account> := map[];
    var order: seq<string> := [];
    var current: Option<string> := None;
    for i := 0 to |lines|
      invariant Scanner(accounts, order, current) == Run(lines[..i], threshold)
    {
      assert lines[..i + 1][..i] == lines[..i];
      var k := Classify(lines[i], threshold);
      if k.Header? {
        if k.nro !in accounts {
          accounts := accounts[k.nro := NewAccount(k.name, k.nro)];
          order := order + [k.nro];
        }
        current := Some(k.nro);
      } else if current.Some? {
        var n := current.value;
        if k.Closes? {
          current := None;
        } else {
          accounts := accounts[n := Advance(accounts[n], k)];
        }
      }
    }
    assert lines[..|lines|] == lines;
    sc := Scanner(accounts, order, current);
  }

  /** The account numbers of the header lines, in order, repeats included. */
  function HeaderNros(lines: seq<string>): seq<string> {
    if lines == [] then []
    else
      var last := lines[|lines| - 1];
      HeaderNros(lines[..|lines| - 1]) + match AccountHeader(last) case Some(h) => [h.1] case None => []
  }

  /** The elements of a list in order of first appearance, each once. */
  function FirstSeen(xs: seq<string>): (r: seq<string>)
    ensures Distinct(r)
    ensures forall x :: x in r <==> x in xs
  {
    if xs == [] then []
    else
      var f := FirstSeen(xs[..|xs| - 1]);
      var x := xs[|xs| - 1];
      assert forall y :: y in xs <==> y in xs[..|xs| - 1] || y == x by {
        assert xs == xs[..|xs| - 1] + [x];
      }
      if x in f then f else f + [x]
  }

  /** The accounts are registered once each, in the order their numbers first appear in a header. */
  lemma {:induction false} OrderOfFirstAppearance(lines: seq<string>, threshold: int)
    ensures Run(lines, threshold).order == FirstSeen(HeaderNros(lines))
  {
    if lines != [] {
      var init, last := lines[..|lines| - 1], lines[|lines| - 1];
      OrderOfFirstAppearance(init, threshold);
      var k := Classify(last, threshold);
      HeaderNrosStep(lines, k, threshold);
      OrderStep(Run(init, threshold), k, HeaderNros(init));
    }
  }

  /** One line keeps the order the first-appearance order of the header numbers. */
  lemma OrderStep(sc: Scanner, k: Kind, hs: seq<string>)
    requires Registry(sc) && sc.order == FirstSeen(hs)
    ensures Step(sc, k).order == FirstSeen(hs + if k.Header? then [k.nro] else [])
  {
    StepOrder(sc, k);
    if k.Header? {
      FirstSeenSnoc(hs, k.nro);
    } else {
      assert hs + [] == hs;
    }
  }

  /** One more element is added to the first-appearance order exactly when it is new. */
  lemma FirstSeenSnoc(xs: seq<string>, x: string)
    ensures FirstSeen(xs + [x]) == if x in FirstSeen(xs) then FirstSeen(xs) else FirstSeen(xs) + [x]
  {
    assert (xs + [x])[..|xs|] == xs;
  }

  /** The last line adds its number to the header numbers exactly when it is a header. */
  lemma HeaderNrosStep(lines: seq<string>, k: Kind, threshold: int)
    requires lines != [] && k == Classify(lines[|lines| - 1], threshold)
    ensures HeaderNros(lines) == HeaderNros(lines[..|lines| - 1]) + if k.Header? then [k.nro] else []
  {
  }

  /** A line appends its account number to the order exactly when it is a header of a new account. */
  lemma StepOrder(sc: Scanner, k: Kind)
    requires Registry(sc)
    ensures Step(sc, k).order == if k.Header? && k.nro !in sc.accounts then sc.order + [k.nro] else sc.order
  {
  }

  /**
   * Whatever the scan has recorded after some lines it keeps after more: every account,
   * its first opening balance, its closing balance being read, and its movements so far.
   */
  lemma {:induction false} ScanKeeps(lines: seq<string>, i: nat, threshold: int)
    requires i <= |lines|
    ensures Keeps(Run(lines[..i], threshold), Run(lines, threshold))
    decreases |lines| - i
  {
    if i == |lines| {
      assert lines[..i] == lines;
    } else {
      var init := lines[..|lines| - 1];
      ScanKeeps(init, i, threshold);
      assert init[..i] == lines[..i];
      KeepsChain(Run(lines[..i], threshold), Run(init, threshold), Run(lines, threshold));
    }
  }

  /** Keeping is transitive. */
  lemma KeepsChain(a: Scanner, b: Scanner, c: Scanner)
    requires Keeps(a, b) && Keeps(b, c)
    ensures Keeps(a, c)
  {
    forall n | n in a.accounts
      ensures n in c.accounts && Advanced(a.accounts[n], c.accounts[n])
    {
      assert Advanced(a.accounts[n], b.accounts[n]) && Advanced(b.accounts[n], c.accounts[n]);
    }
  }

  /** A movement after one line is one the scan had before it, or the line's own movement. */
  lemma StepMovement(sc: Scanner, k: Kind, n: string, j: nat)
    requires Registry(sc)
    requires n in Step(sc, k).accounts && j < |Step(sc, k).accounts[n].movements|
    ensures var m := Step(sc, k).accounts[n].movements[j];
      (n in sc.accounts && j < |sc.accounts[n].movements| && sc.accounts[n].movements[j] == m)
      || (k.Dated? && k.movement == m)
  {
    if !k.Header? && sc.current.Some? && !k.Closes? && sc.current.value == n && k.Dated? {
      assert Step(sc, k).accounts[n].movements == sc.accounts[n].movements + [k.movement];
    }
  }

  /** Some line of the list yields the movement. */
  ghost predicate Recorded(lines: seq<string>, threshold: int, m: Ledger.Movement) {
    exists i :: 0 <= i < |lines| && MovementOf(lines[i], threshold) == Some(m)
  }

  /** Every movement the scan records is the movement of one of the lines. */
  lemma {:induction false} MovementsFromLines(lines: seq<string>, threshold: int, n: string, j: nat)
    requires n in Run(lines, threshold).accounts && j < |Run(lines, threshold).accounts[n].movements|
    ensures Recorded(lines, threshold, Run(lines, threshold).accounts[n].movements[j])
  {
    var init, last := lines[..|lines| - 1], lines[|lines| - 1];
    var sc := Run(init, threshold);
    var k := Classify(last, threshold);
    var m := Run(lines, threshold).accounts[n].movements[j];
    StepMovement(sc, k, n, j);
    if n in sc.accounts && j < |sc.accounts[n].movements| && sc.accounts[n].movements[j] == m {
      MovementsFromLines(init, threshold, n, j);
      RecordedInPrefix(lines, threshold, m);
    } else {
      RecordedAtEnd(lines, threshold, m);
    }
  }

  /** A movement yielded by a line before the last is yielded by the whole list. */
  lemma RecordedInPrefix(lines: seq<string>, threshold: int, m: Ledger.Movement)
    requires lines != [] && Recorded(lines[..|lines| - 1], threshold, m)
    ensures Recorded(lines, threshold, m)
  {
    var i :| 0 <= i < |lines| - 1 && MovementOf(lines[..|lines| - 1][i], threshold) == Some(m);
    assert lines[..|lines| - 1][i] == lines[i];
  }

  /** The movement of the last line, when it is dated, is yielded by the whole list. */
  lemma RecordedAtEnd(lines: seq<string>, threshold: int, m: Ledger.Movement)
    requires lines != [] && Classify(lines[|lines| - 1], threshold) == Dated(m)
    ensures Recorded(lines, threshold, m)
  {
    assert MovementOf(lines[|lines| - 1], threshold) == Some(m);
  }

  // ---------------------------------------------------------------------------
  // The sheets

  /**
   * An account's sheet: its balances, its credits and debits, and the control value
   * `opening + credits - debits - closing` (with no credits or no debits the column total
   * is zero).
   */
  function MakeSheet(name: string, a: Account): (r: Ledger.Sheet)
    ensures r.name == name && r.opening == a.opening && r.closing == a.closing
    ensures var xs := Ledger.Amounts(a.movements);
      r.credits == Ledger.Credits(xs) && r.debits == Ledger.Debits(xs)
  {
    var xs := Ledger.Amounts(a.movements);
    var cs, ds := Ledger.Credits(xs), Ledger.Debits(xs);
    Ledger.Sheet(name, a.opening, a.closing, cs, ds, Some(Ledger.Control(a.opening, Ledger.Sum(cs), Ledger.Sum(ds), a.closing)))
  }

  /** The control value is zero exactly when the opening balance plus the net movement is the closing balance. */
  lemma SheetControl(name: string, a: Account)
    ensures MakeSheet(name, a).control.Some?
    ensures var xs := Ledger.Amounts(a.movements);
      MakeSheet(name, a).control.value == a.opening + Ledger.Sum(xs) - a.closing
      && (MakeSheet(name, a).control.value == 0 <==> a.opening + Ledger.Sum(xs) == a.closing)
  {
    Ledger.ControlOfMovements(a.opening, Ledger.Amounts(a.movements), a.closing);
  }

  /** The short names of the accounts, in order. */
  function Shorts(sc: Scanner): (r: seq<string>)
    requires Registry(sc)
    ensures |r| == |sc.order|
  {
    seq(|sc.order|, k requires 0 <= k < |sc.order| => sc.accounts[sc.order[k]].short)
  }

  /**
   * The whole statement: split the fused lines, find the column threshold, scan the
   * accounts and give each its sheet under a unique name, in order of appearance; none
   * when no account was found.
   */
  method Process(raw: seq<string>) returns (sheets: Option<seq<Ledger.Sheet>>)
    ensures sheets.None? <==> Run(SplitLines(raw), Threshold(SplitLines(raw))).order == []
    ensures sheets.Some? ==> SheetsOf(Run(SplitLines(raw), Threshold(SplitLines(raw))), sheets.value)
    ensures sheets.Some? ==> NamedInTurn(Shorts(Run(SplitLines(raw), Threshold(SplitLines(raw)))), Names(sheets.value))
  {
    var lines := SplitFused(raw);
    var threshold := Threshold(lines);
    var sc := Scan(lines, threshold);
    if sc.order == [] {
      return None;
    }
    var built := BuildSheets(sc);
    sheets := Some(built);
  }

  /** One sheet per account, in order, each under its own name. */
  ghost predicate SheetsOf(sc: Scanner, sheets: seq<Ledger.Sheet>)
    requires Registry(sc)
  {
    && |sheets| == |sc.order|
    && (forall k :: 0 <= k < |sc.order| ==> sheets[k] == MakeSheet(sheets[k].name, sc.accounts[sc.order[k]]))
    && forall i, j :: 0 <= i < j < |sheets| ==> sheets[i].name != sheets[j].name
  }

  /** The sheets of the accounts found, named by their short names made unique. */
  method BuildSheets(sc: Scanner) returns (sheets: seq<Ledger.Sheet>)
    requires Registry(sc)
    ensures SheetsOf(sc, sheets)
    ensures NamedInTurn(Shorts(sc), Names(sheets))
  {
    var names := SheetNames(Shorts(sc));
    sheets := seq(|sc.order|, k requires 0 <= k < |sc.order| => MakeSheet(names[k], sc.accounts[sc.order[k]]));
    assert Names(sheets) == names;
  }

  /** The names of the sheets, in order. */
  function Names(sheets: seq<Ledger.Sheet>): (r: seq<string>)
    ensures |r| == |sheets| && forall k :: 0 <= k < |sheets| ==> r[k] == sheets[k].name
  {
    seq(|sheets|, k requires 0 <= k < |sheets| => sheets[k].name)
  }
}
