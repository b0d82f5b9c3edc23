/**
 * Banco Macro statements, second format: a movement line as the statement prints it, read
 * back. The line is the date, the reference numbers and the description's words separated
 * by blanks, then the amount and the balance, each printed after a peso sign and a blank.
 * Cut where the amount's match starts, the line gives its movement back; cut where the
 * amount's text last occurs, it does not when the amount and the balance print alike.
 */
module Macro2Lines {
  import opened Text
  import opened Optional
  import opened Amounts
  import opened Macro2

  /**
   * Words that print and read back as a movement's leading words: a `dd/mm/yyyy` date,
   * reference numbers, then a description that starts with a word other than a reference
   * number and holds no comma (a comma there would be taken for an amount's).
   */
  predicate Printable(date: string, refs: seq<string>, words: seq<string>) {
    |date| == 10 && DateAt(date, 0, '/', 4)
    && (forall k :: 0 <= k < |refs| ==> IsRef(refs[k]))
    && words != [] && !IsRef(words[0])
    && (forall k :: 0 <= k < |words| ==> IsWord(words[k]))
    && (forall k, i :: 0 <= k < |words| && 0 <= i < |words[k]| ==> words[k][i] != ',')
  }

  /** A movement line as printed: the leading words, then the amount and the balance. */
  function PrintedLine(date: string, refs: seq<string>, words: seq<string>, a: int, b: int): string {
    Join([date] + refs + words, " ") + " " + Shown(a) + " " + Shown(b)
  }

  /** The text `h`, then the literals `u` and `v`, each after a blank, a peso sign and a blank. */
  function LaidLine(h: string, u: string, v: string): string {
    h + " " + ("$ " + u) + " " + ("$ " + v)
  }

  // ---------------------------------------------------------------------------
  // Where the parts of the line lie

  /**
   * `l` holds `h`, a blank, then from `p1` a peso sign, a blank and `u`, a blank at `e1`,
   * then from `p2` a peso sign, a blank and `v`.
   */
  predicate Laid(l: string, h: string, u: string, v: string, p1: nat, e1: nat, p2: nat) {
    p1 == |h| + 1 && e1 == p1 + 2 + |u| && p2 == e1 + 1 && |l| == p2 + 2 + |v|
    && Placed(l, 0, h) && l[|h|] == ' ' && Placed(l, p1, "$ " + u) && l[e1] == ' ' && Placed(l, p2, "$ " + v)
  }

  /** The parts of a laid line, each where it is written. */
  lemma LaidPlaced(h: string, u: string, v: string)
    ensures Laid(LaidLine(h, u, v), h, u, v, |h| + 1, |h| + 3 + |u|, |h| + 4 + |u|)
  {
    var l, x := LaidLine(h, u, v), h + " " + ("$ " + u);
    PlacedAppend(x + " ", "$ " + v);
    PlacedAppend(x, " ");
    PlacedWithin(l, 0, x + " ", 0, x);
    PlacedWithin(l, 0, x + " ", |x|, " ");
    PlacedAppend(h + " ", "$ " + u);
    PlacedWithin(l, 0, x, |h| + 1, "$ " + u);
    PlacedWithin(l, 0, x, 0, h + " ");
    PlacedAppend(h, " ");
    PlacedWithin(l, 0, h + " ", 0, h);
    PlacedWithin(l, 0, h + " ", |h|, " ");
  }

  /** The words of the line before the amounts hold no comma. */
  lemma LeadNoComma(h: string, date: string, refs: seq<string>, words: seq<string>)
    requires Printable(date, refs, words) && h == Join([date] + refs + words, " ")
    ensures forall i :: 0 <= i < |h| ==> h[i] != ','
  {
    var xs := [date] + refs + words;
    forall k, i | 0 <= k < |xs| && 0 <= i < |xs[k]|
      ensures xs[k][i] != ','
    {
      if k == 0 {
        assert xs[k] == date;
      } else if k <= |refs| {
        assert xs[k] == refs[k - 1];
        assert IsDigit(refs[k - 1][i]);
      } else {
        assert xs[k] == words[k - 1 - |refs|];
      }
    }
    JoinAvoids(xs, ',');
  }

  /**
   * The amount pattern finds exactly the two printed amounts of a laid line, when the
   * text before them holds no comma.
   */
  lemma LaidSpans(l: string, h: string, u: string, v: string, p1: nat, e1: nat, p2: nat)
    requires Laid(l, h, u, v, p1, e1, p2) && AmountLiteral(u) && AmountLiteral(v)
    requires forall i :: 0 <= i < |h| ==> h[i] != ','
    ensures MontoSpans(l) == [(p1, e1), (p2, |l|)]
  {
    LaidLeadNoMonto(l, h, u, v, p1, e1, p2);
    LaidMontos(l, h, u, v, p1, e1, p2);
    TwoSpans(l, p1, e1, p2);
  }

  /**
   * The amount pattern finds two matches in a line when nothing matches before the first,
   * nothing at its end, and the second runs from the next position to the end of the line.
   */
  lemma TwoSpans(l: string, p1: nat, e1: nat, p2: nat)
    requires forall j: nat :: j < p1 ==> MontoAt(l, j).None?
    requires p2 == e1 + 1 && MontoAt(l, p1) == Some(e1) && MontoAt(l, e1).None? && MontoAt(l, p2) == Some(|l|)
    ensures MontoSpans(l) == [(p1, e1), (p2, |l|)]
  {
    MontoMatcher(l);
    TwoSpansAt(l, (q: nat) => MontoAt(l, q), p1, e1, p2);
  }

  /** The amount pattern tried at each position is a matcher over the line. */
  lemma MontoMatcher(l: string)
    ensures IsMatcher(l, (q: nat) => MontoAt(l, q))
  {
  }

  /** No amount starts before the first printed amount, nor in the blank between the two. */
  lemma LaidLeadNoMonto(l: string, h: string, u: string, v: string, p1: nat, e1: nat, p2: nat)
    requires Laid(l, h, u, v, p1, e1, p2) && AmountLiteral(u) && AmountLiteral(v)
    requires forall i :: 0 <= i < |h| ==> h[i] != ','
    ensures forall j: nat :: j < p1 ==> MontoAt(l, j).None?
    ensures MontoAt(l, e1).None?
  {
    LiteralAt(l, p1, u);
    LiteralAt(l, e1 + 1, v);
    forall i | 0 <= i < |h|
      ensures l[i] != ','
    {
      assert l[0 + i] == h[i];
    }
    NoMontoBefore(l, 0, p1);
    NoMontoAt(l, e1, e1 + 1);
  }

  /** Each printed amount is matched whole where it is written. */
  lemma LaidMontos(l: string, h: string, u: string, v: string, p1: nat, e1: nat, p2: nat)
    requires Laid(l, h, u, v, p1, e1, p2) && AmountLiteral(u) && AmountLiteral(v)
    ensures MontoAt(l, p1) == Some(e1) && MontoAt(l, p2) == Some(|l|)
  {
    MontoAtLiteral(l, p1, u);
    MontoAtLiteral(l, p2, v);
  }

  /** A laid line is the words, a peso sign, `u`, a peso sign and `v`, joined by blanks. */
  lemma LaidJoin(xs: seq<string>, u: string, v: string)
    requires xs != []
    ensures LaidLine(Join(xs, " "), u, v) == Join(xs + ["$", u, "$", v], " ")
  {
    var ts := ["$", u, "$", v];
    JoinAppend(xs, ts);
    assert ts[1..] == [u, "$", v] && ts[1..][1..] == ["$", v] && ts[1..][1..][1..] == [v];
    var j2 := Join(["$", v], " ");
    assert ["$", v][1..] == [v] && [u, "$", v][1..] == ["$", v];
    assert "$" + " " == "$ ";
    assert Join([v], " ") == v;
    assert j2 == "$" + " " + Join([v], " ");
    assert j2 == "$ " + v;
    var j1 := Join([u, "$", v], " ");
    assert j1 == u + " " + j2;
    assert Join(ts, " ") == "$ " + j1;
    var h := Join(xs, " ");
    calc {
      Join(xs + ts, " ");
      h + " " + ("$ " + (u + " " + ("$ " + v)));
      { AppendAssoc("$ ", u + " ", "$ " + v); AppendAssoc("$ ", u, " "); }
      h + " " + (("$ " + u) + " " + ("$ " + v));
      { AppendAssoc(h + " ", ("$ " + u) + " ", "$ " + v); AppendAssoc(h + " ", "$ " + u, " "); }
      LaidLine(h, u, v);
    }
  }

  /** Splitting a printed line gives its words, the peso signs and the literals. */
  lemma LaidSplit(date: string, refs: seq<string>, words: seq<string>, u: string, v: string)
    requires Printable(date, refs, words) && AmountLiteral(u) && AmountLiteral(v)
    ensures var xs := [date] + refs + words;
      Split(LaidLine(Join(xs, " "), u, v)) == xs + ["$", u, "$", v]
  {
    var xs := [date] + refs + words;
    var ws := xs + ["$", u, "$", v];
    LiteralPlain(u);
    LiteralPlain(v);
    forall k | 0 <= k < |ws|
      ensures IsWord(ws[k])
    {
      if k == 0 {
        assert ws[k] == date;
        DateWord(date);
      } else if k <= |refs| {
        assert ws[k] == refs[k - 1];
      } else if k < |xs| {
        assert ws[k] == words[k - 1 - |refs|];
      }
    }
    LaidJoin(xs, u, v);
    SplitJoin(ws);
  }

  /** The date written at the head of a text is at the head of the join of the words after it. */
  lemma HeadJoin(date: string, rest: seq<string>)
    requires rest != []
    ensures Join([date] + rest, " ") == date + " " + Join(rest, " ")
  {
    JoinAppend([date], rest);
  }

  /**
   * The description of a line whose text before the cut is the date, the reference numbers
   * and the words, then a blank: the words, joined by blanks.
   */
  lemma DescriptionOf(l: string, idx: nat, date: string, refs: seq<string>, ws: seq<string>)
    requires idx <= |l| && l[..idx] == Join([date] + refs + ws, " ") + " "
    requires |date| == 10 && IsWord(date)
    requires forall k :: 0 <= k < |refs| ==> IsRef(refs[k])
    requires ws != [] && !IsRef(ws[0]) && forall k :: 0 <= k < |ws| ==> IsWord(ws[k])
    ensures Description(l, idx) == Join(ws, " ")
  {
    LeadJoin(date, refs, ws);
    RestEnds(refs, ws);
    RestOf(l, idx, date, Join(refs + ws, " "));
    DescriptionFromRest(l, idx, refs, ws);
  }

  /** The reference numbers and the words joined by blanks start and end with a non-blank. */
  lemma RestEnds(refs: seq<string>, ws: seq<string>)
    requires forall k :: 0 <= k < |refs| ==> IsRef(refs[k])
    requires ws != [] && forall k :: 0 <= k < |ws| ==> IsWord(ws[k])
    ensures var j := Join(refs + ws, " "); j != [] && !IsSpace(j[0]) && !IsSpace(j[|j| - 1])
  {
    RefsWords(refs, ws);
    JoinEnds(refs + ws);
  }

  /** The leading words joined by blanks are the date, a blank and the rest joined by blanks. */
  lemma LeadJoin(date: string, refs: seq<string>, ws: seq<string>)
    requires ws != []
    ensures Join([date] + refs + ws, " ") == date + " " + Join(refs + ws, " ")
  {
    AppendAssoc([date], refs, ws);
    HeadJoin(date, refs + ws);
  }

  /** When the rest is the reference numbers and the words joined by blanks, the description is the words. */
  lemma DescriptionFromRest(l: string, idx: nat, refs: seq<string>, ws: seq<string>)
    requires idx <= |l| && Rest(l, idx) == Join(refs + ws, " ")
    requires forall k :: 0 <= k < |refs| ==> IsRef(refs[k])
    requires ws != [] && !IsRef(ws[0]) && forall k :: 0 <= k < |ws| ==> IsWord(ws[k])
    ensures Description(l, idx) == Join(ws, " ")
  {
    RefsWords(refs, ws);
    SplitJoin(refs + ws);
    DescAfterRefs(refs, ws);
  }

  /** Reference numbers then words are all words. */
  lemma RefsWords(refs: seq<string>, ws: seq<string>)
    requires forall k :: 0 <= k < |refs| ==> IsRef(refs[k])
    requires forall k :: 0 <= k < |ws| ==> IsWord(ws[k])
    ensures forall k :: 0 <= k < |refs + ws| ==> IsWord((refs + ws)[k])
  {
    var rw := refs + ws;
    forall k | 0 <= k < |rw|
      ensures IsWord(rw[k])
    {
      if k < |refs| {
        assert rw[k] == refs[k];
      } else {
        assert rw[k] == ws[k - |refs|];
      }
    }
  }

  /** The rest of a line whose text before the cut is a date, a blank, `j` and a blank is `j`. */
  lemma RestOf(l: string, idx: nat, date: string, j: string)
    requires idx <= |l| && l[..idx] == date + " " + j + " "
    requires |date| == 10 && IsWord(date)
    requires j != [] && !IsSpace(j[0]) && !IsSpace(j[|j| - 1])
    ensures Rest(l, idx) == j
  {
    var h := date + " " + j;
    assert h[0] == date[0] && h[|h| - 1] == j[|j| - 1];
    StripBlankAfter(h);
    AppendAssoc(date, " ", j);
    SliceAppend(date, " " + j, 10);
    StripBlankBefore(j);
  }

  /** The description starts after the reference numbers, at the first of the words. */
  lemma DescAfterRefs(refs: seq<string>, ws: seq<string>)
    requires forall k :: 0 <= k < |refs| ==> IsRef(refs[k])
    requires ws != [] && !IsRef(ws[0])
    ensures DescStart(refs + ws) == |refs| && (refs + ws)[|refs|..] == ws
  {
    var rw := refs + ws;
    assert rw[|refs|] == ws[0];
    assert forall k :: 0 <= k < |refs| ==> rw[k] == refs[k];
  }

  /** A text that starts with a date starts with `dd/mm/yyyy`. */
  lemma DatePlaced(s: string, date: string)
    requires |date| == 10 && DateAt(date, 0, '/', 4) && Placed(s, 0, date)
    ensures DateAt(s, 0, '/', 4)
  {
    forall i | 0 <= i < 10
      ensures s[i] == date[i]
    {
      assert s[0 + i] == date[i];
    }
  }

  /** A laid line starts with the date at the head of its leading words. */
  lemma LaidHead(l: string, h: string, u: string, v: string, date: string, refs: seq<string>, words: seq<string>, p1: nat, e1: nat, p2: nat)
    requires Laid(l, h, u, v, p1, e1, p2) && h == Join([date] + refs + words, " ")
    requires |date| == 10 && DateAt(date, 0, '/', 4) && words != []
    ensures DateAt(l, 0, '/', 4)
  {
    LeadJoin(date, refs, words);
    var j := Join(refs + words, " ");
    AppendAssoc(date, " ", j);
    PlacedAppend(date, " " + j);
    PlacedWithin(l, 0, h, 0, date);
    DatePlaced(l, date);
  }

  /** The texts of a laid line before the amount, of the amount and of the balance. */
  lemma LaidSlices(l: string, h: string, u: string, v: string, p1: nat, e1: nat, p2: nat)
    requires Laid(l, h, u, v, p1, e1, p2)
    ensures l[p1..e1] == "$ " + u && l[p2..|l|] == "$ " + v
    ensures l[..p1] == h + " "
  {
    PlacedSlice(l, p1, "$ " + u, e1);
    PlacedSlice(l, p2, "$ " + v, |l|);
    assert forall i :: 0 <= i < |h| ==> l[..p1][i] == l[0 + i] == h[i];
  }

  /** A printed line reads as a date at its head and the two printed amounts. */
  lemma LaidMatch(l: string, h: string, date: string, refs: seq<string>, words: seq<string>, u: string, v: string, p1: nat, e1: nat, p2: nat)
    requires Printable(date, refs, words) && AmountLiteral(u) && AmountLiteral(v)
    requires h == Join([date] + refs + words, " ") && Laid(l, h, u, v, p1, e1, p2)
    ensures DateAt(l, 0, '/', 4) && MontoSpans(l) == [(p1, e1), (p2, |l|)]
  {
    LeadNoComma(h, date, refs, words);
    LaidSpans(l, h, u, v, p1, e1, p2);
    LaidHead(l, h, u, v, date, refs, words, p1, e1, p2);
  }

  /** The two printed amounts read back as the values of their literals. */
  lemma LaidValues(l: string, h: string, u: string, v: string, p1: nat, e1: nat, p2: nat)
    requires Laid(l, h, u, v, p1, e1, p2) && AmountLiteral(u) && AmountLiteral(v)
    ensures ParseAmount(l[p1..e1]) == ParseArPlain(u).GetOr(0)
    ensures ParseAmount(l[p2..|l|]) == ParseArPlain(v).GetOr(0)
  {
    LaidSlices(l, h, u, v, p1, e1, p2);
    ParseDollar(u);
    ParseDollar(v);
  }

  /** Cut where the amount starts, a printed line's description is its words. */
  lemma LaidDescription(l: string, h: string, date: string, refs: seq<string>, words: seq<string>, u: string, v: string, p1: nat, e1: nat, p2: nat)
    requires Printable(date, refs, words)
    requires h == Join([date] + refs + words, " ") && Laid(l, h, u, v, p1, e1, p2)
    ensures Description(l, p1) == Join(words, " ")
  {
    LaidSlices(l, h, u, v, p1, e1, p2);
    DateWord(date);
    DescriptionOf(l, p1, date, refs, words);
  }

  /** A `dd/mm/yyyy` date is a word. */
  lemma DateWord(date: string)
    requires |date| == 10 && DateAt(date, 0, '/', 4)
    ensures IsWord(date)
  {
    assert forall i :: 0 <= i < 10 ==> IsDigit(date[i]) || date[i] == '/';
  }

  /**
   * The row the reader builds from what it finds in a line: a date at the head, five
   * words or more, two amounts, the description before the amount and their values.
   */
  lemma RowFromFacts(l: string, date: string, desc: string, p1: int, e1: int, p2: int, a: int, b: int)
    requires ReadFacts(l, date, p1, e1, p2, a, b) && Description(l, p1) == desc
    ensures LineRow(l) == Some(Row(date, CleanForExcel(desc), a, b))
  {
  }

  /**
   * What the reader finds in a line: a leading date, five words or more with the date
   * first, exactly two amounts, the second running to the end of the line, and their values.
   */
  predicate ReadFacts(l: string, date: string, p1: int, e1: int, p2: int, a: int, b: int) {
    0 <= p1 <= e1 <= p2 <= |l| && DateAt(l, 0, '/', 4) && |Split(l)| >= 5 && Split(l)[0] == date
    && MontoSpans(l) == [(p1, e1), (p2, |l|)] && ParseAmount(l[p1..e1]) == a && ParseAmount(l[p2..|l|]) == b
  }

  // ---------------------------------------------------------------------------
  // Where the amount's text occurs

  /** After the first peso sign of a laid line, the only peso sign is the balance's. */
  lemma LaidPesos(l: string, h: string, u: string, v: string, p1: nat, e1: nat, p2: nat)
    requires Laid(l, h, u, v, p1, e1, p2) && AmountLiteral(u) && AmountLiteral(v)
    ensures forall j :: p1 < j < |l| && j != p2 ==> l[j] != '$'
  {
    LiteralAt(l, p1, u);
    LiteralAt(l, p2, v);
    LiteralPlain(u);
    LiteralPlain(v);
    forall j | p1 < j < |l| && j != p2
      ensures l[j] != '$'
    {
      if p1 + 2 <= j < p1 + 2 + |u| {
        var i := j - p1 - 2;
        assert l[p1 + 2 + i] == u[i];
      } else if p2 + 2 <= j {
        var i := j - p2 - 2;
        assert l[p2 + 2 + i] == v[i];
      }
    }
  }

  /**
   * The last place the amount's text occurs in a laid line: the balance's place when the two
   * literals are the same, the amount's own place otherwise.
   */
  lemma LaidRFind(l: string, h: string, u: string, v: string, p1: nat, e1: nat, p2: nat)
    requires Laid(l, h, u, v, p1, e1, p2) && AmountLiteral(u) && AmountLiteral(v)
    ensures RFind(l, "$ " + u) == if u == v then p2 else p1
  {
    var t := "$ " + u;
    LaidSlices(l, h, u, v, p1, e1, p2);
    assert OccursAt(l, t, p1);
    assert Contains(l, t);
    var r := RFind(l, t);
    LaidPesos(l, h, u, v, p1, e1, p2);
    if u == v {
      assert OccursAt(l, t, p2);
    } else {
      if r != p1 {
        assert l[r] == l[r..r + |t|][0] == '$';
        assert r == p2;
        assert ("$ " + v)[..|u| + 2] == t;
        PesoPrefix(u, v);
      }
    }
  }

  /** A laid line up to the balance: the leading words, the amount, and a blank. */
  lemma LaidToBalance(l: string, h: string, u: string, v: string, p1: nat, e1: nat, p2: nat)
    requires Laid(l, h, u, v, p1, e1, p2)
    ensures l[..p2] == h + " " + ("$ " + u) + " "
  {
    var x := h + " " + ("$ " + u) + " ";
    forall i | 0 <= i < |x|
      ensures l[i] == x[i]
    {
      if i < |h| {
        assert l[0 + i] == h[i];
      } else if |h| < i < e1 {
        assert l[p1 + (i - |h| - 1)] == ("$ " + u)[i - |h| - 1];
      }
    }
  }

  /**
   * Cut where the balance starts, a printed line's description is its words, a peso sign
   * and the amount's literal.
   */
  lemma LaidDescriptionAtBalance(l: string, h: string, date: string, refs: seq<string>, words: seq<string>, u: string, v: string, p1: nat, e1: nat, p2: nat)
    requires Printable(date, refs, words) && AmountLiteral(u)
    requires h == Join([date] + refs + words, " ") && Laid(l, h, u, v, p1, e1, p2)
    ensures Description(l, p2) == Join(words, " ") + " " + ("$ " + u)
  {
    var ws := words + ["$", u];
    LiteralPlain(u);
    forall k | 0 <= k < |ws|
      ensures IsWord(ws[k])
    {
      if k < |words| {
        assert ws[k] == words[k];
      }
    }
    LaidToBalance(l, h, u, v, p1, e1, p2);
    AppendAssoc([date] + refs, words, ["$", u]);
    JoinAppend([date] + refs + words, ["$", u]);
    JoinPair(u);
    DateWord(date);
    DescriptionOf(l, p2, date, refs, ws);
    JoinAppend(words, ["$", u]);
  }

  /** A peso sign and a literal joined by a blank. */
  lemma JoinPair(u: string)
    ensures Join(["$", u], " ") == "$ " + u
  {
    assert ["$", u][1..] == [u];
    assert Join([u], " ") == u;
    assert "$" + " " == "$ ";
  }

  /**
   * The row the reader as written builds from what it finds in a line: the description is
   * cut where the amount's text last occurs.
   */
  lemma RowFromFactsAsWritten(l: string, date: string, desc: string, p1: int, e1: int, p2: int, idx: int, a: int, b: int)
    requires ReadFacts(l, date, p1, e1, p2, a, b)
    requires 0 <= idx <= |l| && RFind(l, l[p1..e1]) == idx && Description(l, idx) == desc
    ensures LineRowAsWritten(l) == Some(Row(date, CleanForExcel(desc), a, b))
  {
  }

  // ---------------------------------------------------------------------------
  // Reading a printed line back

  /** What the reading of a laid line finds: its date, its two amounts, its description and their values. */
  lemma LaidFacts(l: string, h: string, date: string, refs: seq<string>, words: seq<string>, u: string, v: string,
                  p1: nat, e1: nat, p2: nat, a: int, b: int)
    requires Printable(date, refs, words) && AmountLiteral(u) && AmountLiteral(v)
    requires h == Join([date] + refs + words, " ") && Laid(l, h, u, v, p1, e1, p2)
    requires |Split(l)| >= 5 && Split(l)[0] == date
    requires a == ParseArPlain(u).GetOr(0) && b == ParseArPlain(v).GetOr(0)
    ensures ReadFacts(l, date, p1, e1, p2, a, b) && Description(l, p1) == Join(words, " ")
  {
    LaidMatch(l, h, date, refs, words, u, v, p1, e1, p2);
    LaidValues(l, h, u, v, p1, e1, p2);
    LaidDescription(l, h, date, refs, words, u, v, p1, e1, p2);
  }

  /**
   * Where a laid line is cut when it is cut where the amount's text last occurs, and the
   * description that leaves.
   */
  lemma LaidFactsAsWritten(l: string, h: string, date: string, refs: seq<string>, words: seq<string>, u: string, v: string,
                           p1: nat, e1: nat, p2: nat, idx: int, desc: string)
    requires Printable(date, refs, words) && AmountLiteral(u) && AmountLiteral(v)
    requires h == Join([date] + refs + words, " ") && Laid(l, h, u, v, p1, e1, p2)
    requires idx == (if u == v then p2 else p1)
    requires desc == if u == v then Join(words, " ") + " " + ("$ " + u) else Join(words, " ")
    ensures e1 <= |l| && 0 <= idx <= |l| && RFind(l, l[p1..e1]) == idx && Description(l, idx) == desc
  {
    LaidSlices(l, h, u, v, p1, e1, p2);
    LaidRFind(l, h, u, v, p1, e1, p2);
    if u == v {
      LaidDescriptionAtBalance(l, h, date, refs, words, u, v, p1, e1, p2);
    } else {
      LaidDescription(l, h, date, refs, words, u, v, p1, e1, p2);
    }
  }

  /** The printed line is the laid line of its leading words and its two signed literals. */
  lemma PrintedIsLaid(date: string, refs: seq<string>, words: seq<string>, a: int, b: int, h: string, p1: nat, e1: nat, p2: nat)
    requires h == Join([date] + refs + words, " ")
    requires p1 == |h| + 1 && e1 == p1 + 2 + |Signed(a)| && p2 == e1 + 1
    ensures Laid(PrintedLine(date, refs, words, a, b), h, Signed(a), Signed(b), p1, e1, p2)
  {
    LaidPlaced(h, Signed(a), Signed(b));
  }

  /** A printed line splits into five words or more, the first of them its date. */
  lemma PrintedSplit(date: string, refs: seq<string>, words: seq<string>, a: int, b: int)
    requires Printable(date, refs, words)
    ensures |Split(PrintedLine(date, refs, words, a, b))| >= 5 && Split(PrintedLine(date, refs, words, a, b))[0] == date
  {
    SignedChars(a);
    SignedChars(b);
    LaidSplit(date, refs, words, Signed(a), Signed(b));
  }

  /**
   * What the reader finds in a printed line: its date, the amount's match from `p1` to
   * `e1` and the balance's from `p2`, the movement's values and its description.
   */
  lemma PrintedFacts(date: string, refs: seq<string>, words: seq<string>, a: int, b: int) returns (p1: int, e1: int, p2: int)
    requires Printable(date, refs, words)
    ensures p1 == |Join([date] + refs + words, " ")| + 1 && e1 == p1 + 2 + |Signed(a)| && p2 == e1 + 1
    ensures ReadFacts(PrintedLine(date, refs, words, a, b), date, p1, e1, p2, a, b)
    ensures Description(PrintedLine(date, refs, words, a, b), p1) == Join(words, " ")
  {
    var h, u, v := Join([date] + refs + words, " "), Signed(a), Signed(b);
    SignedChars(a);
    SignedChars(b);
    SignedRoundTrip(a);
    SignedRoundTrip(b);
    p1 := |h| + 1;
    e1 := p1 + 2 + |u|;
    p2 := e1 + 1;
    PrintedIsLaid(date, refs, words, a, b, h, p1, e1, p2);
    PrintedSplit(date, refs, words, a, b);
    LaidFacts(PrintedLine(date, refs, words, a, b), h, date, refs, words, u, v, p1, e1, p2, a, b);
  }

  /**
   * Where a printed line is cut when it is cut where the amount's text last occurs: where
   * the balance starts when the two print alike, and the description that leaves.
   */
  lemma PrintedCuts(date: string, refs: seq<string>, words: seq<string>, a: int, b: int, p1: int, e1: int, p2: int)
    returns (idx: int, desc: string)
    requires Printable(date, refs, words)
    requires p1 == |Join([date] + refs + words, " ")| + 1 && e1 == p1 + 2 + |Signed(a)| && p2 == e1 + 1
    ensures idx == (if a == b then p2 else p1)
    ensures desc == if a == b then Join(words, " ") + " " + Shown(a) else Join(words, " ")
    ensures 0 <= p1 <= e1 <= |PrintedLine(date, refs, words, a, b)| && 0 <= idx <= |PrintedLine(date, refs, words, a, b)|
    ensures RFind(PrintedLine(date, refs, words, a, b), PrintedLine(date, refs, words, a, b)[p1..e1]) == idx
    ensures Description(PrintedLine(date, refs, words, a, b), idx) == desc
  {
    var h, u, v := Join([date] + refs + words, " "), Signed(a), Signed(b);
    SignedChars(a);
    SignedChars(b);
    if u == v {
      ShownInjective(a, b);
    }
    idx := if a == b then p2 else p1;
    desc := if a == b then Join(words, " ") + " " + Shown(a) else Join(words, " ");
    PrintedIsLaid(date, refs, words, a, b, h, p1, e1, p2);
    LaidFactsAsWritten(PrintedLine(date, refs, words, a, b), h, date, refs, words, u, v, p1, e1, p2, idx, desc);
  }

  /** A printed movement line reads back as the movement: its date, description, amount and balance. */
  lemma PrintedRoundTrip(date: string, refs: seq<string>, words: seq<string>, a: int, b: int)
    requires Printable(date, refs, words)
    ensures LineRow(PrintedLine(date, refs, words, a, b)) == Some(Row(date, CleanForExcel(Join(words, " ")), a, b))
  {
    var p1, e1, p2 := PrintedFacts(date, refs, words, a, b);
    RowFromFacts(PrintedLine(date, refs, words, a, b), date, Join(words, " "), p1, e1, p2, a, b);
  }

  /**
   * The line read as written: when the amount and the balance print alike, the cut falls
   * where the balance starts and the description takes the amount's text along; otherwise
   * the row is the movement.
   */
  lemma PrintedAsWritten(date: string, refs: seq<string>, words: seq<string>, a: int, b: int)
    requires Printable(date, refs, words)
    ensures LineRowAsWritten(PrintedLine(date, refs, words, a, b))
      == Some(Row(date, CleanForExcel(if a == b then Join(words, " ") + " " + Shown(a) else Join(words, " ")), a, b))
  {
    var p1, e1, p2 := PrintedFacts(date, refs, words, a, b);
    var idx, desc := PrintedCuts(date, refs, words, a, b, p1, e1, p2);
    RowFromFactsAsWritten(PrintedLine(date, refs, words, a, b), date, desc, p1, e1, p2, idx, a, b);
  }
}
