/**
 * The string toolkit every statement parser leans on, with the behaviour of the
 * Python `str` methods the parsers call: character classes, substring search
 * (`in`, `find`, `rfind`), stripping, whitespace splitting, joining and replacing.
 * Strings are sequences of characters.
 */
module Text {

  /** An ASCII decimal digit: what `\d` and `str.isdigit()` accept in these statements. */
  predicate IsDigit(c: char) {
    '0' <= c <= '9'
  }

  predicate IsUpperLetter(c: char) {
    'A' <= c <= 'Z'
  }

  /** A character that `str.split()`, `str.strip()` and `\s` treat as whitespace. */
  predicate IsSpace(c: char) {
    c == ' ' || ('\t' <= c <= '\r') || ('\U{1c}' <= c <= '\U{1f}') || c == '\U{85}' || c == '\U{a0}'
    || c == '\U{1680}' || ('\U{2000}' <= c <= '\U{200a}') || c == '\U{2028}' || c == '\U{2029}'
    || c == '\U{202f}' || c == '\U{205f}' || c == '\U{3000}'
  }

  /** A letter as `str.isalpha()` sees it, among ASCII and Latin-1 characters. */
  predicate IsLetter(c: char) {
    ('A' <= c <= 'Z') || ('a' <= c <= 'z') || c == '\U{aa}' || c == '\U{b5}' || c == '\U{ba}'
    || ('\U{c0}' <= c <= '\U{ff}' && c != '\U{d7}' && c != '\U{f7}')
  }

  /** Python's `s.isalpha()`: at least one character, and only letters. */
  predicate IsAlpha(s: string) {
    s != [] && forall i :: 0 <= i < |s| ==> IsLetter(s[i])
  }

  predicate AllDigits(s: string) {
    forall i :: 0 <= i < |s| ==> IsDigit(s[i])
  }

  /** The upper-case form of a letter (ASCII and Latin-1); any other character is unchanged. */
  function UpperChar(c: char): char {
    if 'a' <= c <= 'z' || ('\U{e0}' <= c <= '\U{fe}' && c != '\U{f7}') then (c as int - 32) as char else c
  }

  /** The lower-case form of a letter (ASCII and Latin-1); any other character is unchanged. */
  function LowerChar(c: char): char {
    if 'A' <= c <= 'Z' || ('\U{c0}' <= c <= '\U{de}' && c != '\U{d7}') then (c as int + 32) as char else c
  }

  /** Python's `s.upper()`. */
  function Upper(s: string): string {
    seq(|s|, i requires 0 <= i < |s| => UpperChar(s[i]))
  }

  /** Python's `s.lower()`. */
  function Lower(s: string): string {
    seq(|s|, i requires 0 <= i < |s| => LowerChar(s[i]))
  }

  /** Upper-casing forgets the case a text was written in. */
  lemma UpperIgnoresCase(s: string)
    ensures Upper(Lower(s)) == Upper(s) && Upper(Upper(s)) == Upper(s)
  {
    assert forall i :: 0 <= i < |s| ==> UpperChar(LowerChar(s[i])) == UpperChar(s[i]);
    assert forall i :: 0 <= i < |s| ==> UpperChar(UpperChar(s[i])) == UpperChar(s[i]);
  }

  /** `n` digits start at position `p` (the regex `\d{n}` matches there). */
  predicate DigitsAt(s: string, p: nat, n: nat) {
    p + n <= |s| && forall i :: p <= i < p + n ==> IsDigit(s[i])
  }

  /** `c` is at position `p`. */
  predicate CharAt(s: string, p: nat, c: char) {
    p < |s| && s[p] == c
  }

  /** Where the run of whitespace starting at `p` ends (how far a greedy `\s*` reaches). */
  function SpaceEnd(s: string, p: nat): (e: nat)
    requires p <= |s|
    decreases |s| - p
    ensures p <= e <= |s| && (e == |s| || !IsSpace(s[e]))
    ensures forall i :: p <= i < e ==> IsSpace(s[i])
  {
    if p < |s| && IsSpace(s[p]) then SpaceEnd(s, p + 1) else p
  }

  /** Where the run of digits starting at `p` ends (how far a greedy `\d*` reaches). */
  function DigitEnd(s: string, p: nat): (e: nat)
    requires p <= |s|
    decreases |s| - p
    ensures p <= e <= |s| && (e == |s| || !IsDigit(s[e]))
    ensures forall i :: p <= i < e ==> IsDigit(s[i])
  {
    if p < |s| && IsDigit(s[p]) then DigitEnd(s, p + 1) else p
  }

  /** A date `dd<sep>dd<sep>` followed by `yearLen` digits at position `p`. */
  predicate DateAt(s: string, p: nat, sep: char, yearLen: nat) {
    DigitsAt(s, p, 2) && CharAt(s, p + 2, sep) && DigitsAt(s, p + 3, 2) && CharAt(s, p + 5, sep)
    && DigitsAt(s, p + 6, yearLen)
  }

  /** No element occurs twice. */
  predicate Distinct<T(==)>(xs: seq<T>) {
    forall i, j :: 0 <= i < j < |xs| ==> xs[i] != xs[j]
  }

  /** The set `s` with `x` added. */
  function Insert<T>(s: set<T>, x: T): set<T> {
    s + {x}
  }

  // ---------------------------------------------------------------------------
  // Prefixes, suffixes and substring search

  predicate StartsWith(s: string, p: string) {
    |p| <= |s| && s[..|p|] == p
  }

  predicate EndsWith(s: string, p: string) {
    |p| <= |s| && s[|s| - |p|..] == p
  }

  /** `sub` occurs in `s` starting at index `i`. */
  predicate OccursAt(s: string, sub: string, i: int) {
    0 <= i && i + |sub| <= |s| && s[i..i + |sub|] == sub
  }

  /** Python's `sub in s`. */
  predicate Contains(s: string, sub: string) {
    exists i | 0 <= i <= |s| - |sub| :: OccursAt(s, sub, i)
  }

  /** Some keyword of the list occurs in `s` (Python's `any(k in s for k in kws)`). */
  predicate ContainsAny(s: string, kws: seq<string>) {
    exists k | 0 <= k < |kws| :: Contains(s, kws[k])
  }

  function FindFrom(s: string, sub: string, from: nat): (r: int)
    decreases |s| - from
    ensures r == -1 || (from <= r && OccursAt(s, sub, r))
    ensures r == -1 ==> forall i :: from <= i ==> !OccursAt(s, sub, i)
    ensures r >= 0 ==> forall i :: from <= i < r ==> !OccursAt(s, sub, i)
  {
    if from + |sub| > |s| then -1
    else if s[from..from + |sub|] == sub then from
    else FindFrom(s, sub, from + 1)
  }

  /** Python's `s.find(sub)`: the first index where `sub` occurs, or -1. */
  function Find(s: string, sub: string): (r: int)
    ensures r == -1 <==> !Contains(s, sub)
    ensures r >= 0 ==> OccursAt(s, sub, r) && forall i :: 0 <= i < r ==> !OccursAt(s, sub, i)
  {
    FindFrom(s, sub, 0)
  }

  function RFindFrom(s: string, sub: string, i: int): (r: int)
    decreases i + 1
    ensures r == -1 || (0 <= r <= i && OccursAt(s, sub, r))
    ensures r == -1 ==> forall j :: j <= i ==> !OccursAt(s, sub, j)
    ensures r >= 0 ==> forall j :: r < j <= i ==> !OccursAt(s, sub, j)
  {
    if i < 0 then -1
    else if OccursAt(s, sub, i) then i
    else RFindFrom(s, sub, i - 1)
  }

  /** Python's `s.rfind(sub)`: the last index where `sub` occurs, or -1. */
  function RFind(s: string, sub: string): (r: int)
    ensures r == -1 <==> !Contains(s, sub)
    ensures r >= 0 ==> OccursAt(s, sub, r) && forall j :: r < j ==> !OccursAt(s, sub, j)
  {
    RFindFrom(s, sub, |s| - |sub|)
  }

  /** Python's `s.find(c)` for a single character. */
  function IndexOf(s: string, c: char): (r: int)
    ensures -1 <= r < |s|
    ensures r >= 0 ==> s[r] == c
  {
    if s == [] then -1
    else if s[0] == c then 0
    else
      var k := IndexOf(s[1..], c);
      if k < 0 then -1 else k + 1
  }

  /** The index `IndexOf` gives is the first occurrence, and -1 means there is none. */
  lemma {:induction false} IndexOfFirst(s: string, c: char)
    ensures IndexOf(s, c) == -1 ==> forall i :: 0 <= i < |s| ==> s[i] != c
    ensures IndexOf(s, c) >= 0 ==> forall i :: 0 <= i < IndexOf(s, c) ==> s[i] != c
  {
    if s != [] && s[0] != c {
      IndexOfFirst(s[1..], c);
      assert forall i :: 1 <= i < |s| ==> s[i] == s[1..][i - 1];
    }
  }

  /** A text without `c` has no index of it. */
  lemma {:induction false} IndexOfAbsent(s: string, c: char)
    requires forall i :: 0 <= i < |s| ==> s[i] != c
    ensures IndexOf(s, c) == -1
  {
    if s != [] {
      IndexOfAbsent(s[1..], c);
    }
  }

  /** In `x + [c] + y`, where `x` has no `c`, the first `c` is the one after `x`. */
  lemma {:induction false} IndexOfAfter(x: string, c: char, y: string)
    requires forall i :: 0 <= i < |x| ==> x[i] != c
    ensures IndexOf(x + [c] + y, c) == |x|
  {
    if x != [] {
      assert (x + [c] + y)[1..] == x[1..] + [c] + y;
      IndexOfAfter(x[1..], c, y);
    }
  }

  // ---------------------------------------------------------------------------
  // Stripping and slicing

  /** Where the run of characters satisfying `drop` that starts at `p` ends. */
  function DropFrom(s: string, drop: char -> bool, p: nat): (e: nat)
    requires p <= |s|
    decreases |s| - p
    ensures p <= e <= |s| && (e == |s| || !drop(s[e]))
    ensures forall i :: p <= i < e ==> drop(s[i])
  {
    if p < |s| && drop(s[p]) then DropFrom(s, drop, p + 1) else p
  }

  /** Where the run of characters satisfying `drop` that ends at `q` starts. */
  function DropUntil(s: string, drop: char -> bool, q: nat): (e: nat)
    requires q <= |s|
    ensures e <= q && (e == 0 || !drop(s[e - 1]))
    ensures forall i :: e <= i < q ==> drop(s[i])
  {
    if q > 0 && drop(s[q - 1]) then DropUntil(s, drop, q - 1) else q
  }

  /** Drops the leading characters that satisfy `drop` (Python's `lstrip`). */
  function LTrim(s: string, drop: char -> bool): (r: string)
    ensures |r| <= |s|
    ensures r == [] || !drop(r[0])
    ensures forall i :: 0 <= i < |s| - |r| ==> drop(s[i])
  {
    s[DropFrom(s, drop, 0)..]
  }

  /** Drops the trailing characters that satisfy `drop` (Python's `rstrip`). */
  function RTrim(s: string, drop: char -> bool): (r: string)
    ensures |r| <= |s| && r == s[..|r|]
    ensures r == [] || !drop(r[|r| - 1])
    ensures forall i :: |r| <= i < |s| ==> drop(s[i])
  {
    s[..DropUntil(s, drop, |s|)]
  }

  function LStrip(s: string): string { LTrim(s, IsSpace) }

  function RStrip(s: string): string { RTrim(s, IsSpace) }

  /** Python's `s.strip()`. */
  function Strip(s: string): (r: string)
    ensures |r| <= |s|
    ensures r != [] ==> !IsSpace(r[0]) && !IsSpace(r[|r| - 1])
  {
    RStrip(LStrip(s))
  }

  /** Python's `s[a:b]` for non-negative bounds: out-of-range bounds are clamped. */
  function Slice(s: string, a: nat, b: nat): (r: string)
    ensures a <= b <= |s| ==> r == s[a..b]
    ensures |r| <= |s|
  {
    var hi := if b <= |s| then b else |s|;
    if a <= hi then s[a..hi] else []
  }

  /** Python's `s[a:]` for a non-negative start. */
  function From(s: string, a: nat): (r: string)
    ensures a <= |s| ==> r == s[a..]
    ensures a >= |s| ==> r == []
  {
    if a <= |s| then s[a..] else []
  }

  // ---------------------------------------------------------------------------
  // Splitting and joining

  /** The length of the leading run of non-whitespace characters. */
  function WordLength(s: string): (k: nat)
    ensures k <= |s|
    ensures forall i :: 0 <= i < k ==> !IsSpace(s[i])
    ensures k < |s| ==> IsSpace(s[k])
  {
    if s == [] || IsSpace(s[0]) then 0 else 1 + WordLength(s[1..])
  }

  /** A non-empty run of non-whitespace characters. */
  predicate IsWord(w: string) {
    w != [] && forall i :: 0 <= i < |w| ==> !IsSpace(w[i])
  }

  /** Python's `s.split()`: the maximal runs of non-whitespace characters, in order. */
  function Split(s: string): (r: seq<string>)
    decreases |s|
    ensures forall k :: 0 <= k < |r| ==> IsWord(r[k])
  {
    var t := LStrip(s);
    if t == [] then []
    else
      var k := WordLength(t);
      assert IsWord(t[..k]);
      [t[..k]] + Split(t[k..])
  }

  /** Python's `sep.join(parts)`. */
  function Join(parts: seq<string>, sep: string): string {
    if parts == [] then ""
    else if |parts| == 1 then parts[0]
    else parts[0] + sep + Join(parts[1..], sep)
  }

  // ---------------------------------------------------------------------------
  // Replacing

  /** Python's `s.split(c)` for a single character: the pieces between the occurrences of `c`. */
  function SplitChar(s: string, c: char): (r: seq<string>)
    decreases |s|
    ensures |r| >= 1
  {
    var i := IndexOf(s, c);
    if i < 0 then [s] else [s[..i]] + SplitChar(s[i + 1..], c)
  }

  /** Joining the pieces with the separator gives back the text. */
  lemma {:induction false} SplitCharJoin(s: string, c: char)
    ensures Join(SplitChar(s, c), [c]) == s
    decreases |s|
  {
    var i := IndexOf(s, c);
    if i >= 0 {
      var rest := SplitChar(s[i + 1..], c);
      SplitCharJoin(s[i + 1..], c);
      JoinCons(s[..i], rest, [c]);
      assert s == s[..i] + [c] + s[i + 1..];
    }
  }

  /** Joining a piece in front of non-empty pieces puts the separator between them. */
  lemma JoinCons(p: string, rest: seq<string>, sep: string)
    requires rest != []
    ensures Join([p] + rest, sep) == p + sep + Join(rest, sep)
  {
    assert ([p] + rest)[1..] == rest;
  }

  /** Python's `s.replace(a, b)` for single characters. */
  function ReplaceChar(s: string, a: char, b: char): string {
    seq(|s|, i requires 0 <= i < |s| => if s[i] == a then b else s[i])
  }

  /** Python's `s.replace(a, "")` for a single character. */
  function RemoveChar(s: string, a: char): string {
    if s == [] then [] else (if s[0] == a then [] else [s[0]]) + RemoveChar(s[1..], a)
  }

  /** The characters of `s` that do not satisfy `bad`, in order. */
  function RemoveWhere(s: string, bad: char -> bool): string {
    if s == [] then [] else (if bad(s[0]) then [] else [s[0]]) + RemoveWhere(s[1..], bad)
  }

  /** A control character a spreadsheet cell cannot hold: `\000`-`\010`, `\013`-`\014` and `\016`-`\037`. */
  predicate IsCellIllegal(c: char) {
    c <= '\U{08}' || ('\U{0b}' <= c <= '\U{0c}') || ('\U{0e}' <= c <= '\U{1f}')
  }

  /** The text a spreadsheet cell receives: illegal control characters removed, then stripped. */
  function CleanForExcel(s: string): string {
    Strip(RemoveWhere(s, IsCellIllegal))
  }

  /** Python's `s.replace(sub, rep)` for a non-empty `sub`: every non-overlapping occurrence, left to right. */
  function ReplaceAll(s: string, sub: string, rep: string): string
    requires sub != []
    decreases |s|
  {
    if |s| < |sub| then s
    else if s[..|sub|] == sub then rep + ReplaceAll(s[|sub|..], sub, rep)
    else [s[0]] + ReplaceAll(s[1..], sub, rep)
  }

  /** Python's `s.replace(sub, rep, 1)`: only the first occurrence. */
  function ReplaceFirst(s: string, sub: string, rep: string): (r: string)
    ensures !Contains(s, sub) ==> r == s
  {
    var i := Find(s, sub);
    if i < 0 then s else s[..i] + rep + s[i + |sub|..]
  }

  /** The text before the last occurrence of each of `ms`, cutting at the last one first (the parsers' way of removing the amounts from a description). */
  function CutAtLast(s: string, ms: seq<string>): (r: string)
    decreases |ms|
    ensures |r| <= |s| && r == s[..|r|]
  {
    if ms == [] then s
    else
      var k := RFind(s, ms[|ms| - 1]);
      var s' := if k >= 0 then s[..k] else s;
      var r := CutAtLast(s', ms[..|ms| - 1]);
      assert s'[..|r|] == s[..|r|];
      r
  }

  /** A text that starts and ends with a non-space character is its own `strip()`. */
  lemma StripNoop(s: string)
    requires s != [] && !IsSpace(s[0]) && !IsSpace(s[|s| - 1])
    ensures Strip(s) == s
  {
    assert DropFrom(s, IsSpace, 0) == 0;
    assert s[0..] == s;
    assert DropUntil(s, IsSpace, |s|) == |s|;
  }

  /** Removing characters none of which occurs changes nothing. */
  lemma {:induction false} RemoveWhereNoop(s: string, bad: char -> bool)
    requires forall i :: 0 <= i < |s| ==> !bad(s[i])
    ensures RemoveWhere(s, bad) == s
  {
    if s != [] {
      RemoveWhereNoop(s[1..], bad);
    }
  }

  lemma RemoveCharNoop(s: string, a: char)
    requires forall i :: 0 <= i < |s| ==> s[i] != a
    ensures RemoveChar(s, a) == s
  {
  }

  lemma RemoveCharAppend(s: string, t: string, a: char)
    ensures RemoveChar(s + t, a) == RemoveChar(s, a) + RemoveChar(t, a)
  {
    if s == [] {
      assert s + t == t;
    } else {
      assert (s + t)[0] == s[0] && (s + t)[1..] == s[1..] + t;
      RemoveCharAppend(s[1..], t, a);
    }
  }

  /** Dropping the dots of a text made of digits and dots leaves only digits. */
  lemma {:induction false} DotsRemoved(x: string)
    requires forall i :: 0 <= i < |x| ==> IsDigit(x[i]) || x[i] == '.'
    ensures AllDigits(RemoveChar(x, '.'))
  {
    if x != [] {
      DotsRemoved(x[1..]);
    }
  }

  /** After removing a character, none of it is left. */
  lemma RemoveCharGone(s: string, a: char)
    ensures forall i :: 0 <= i < |RemoveChar(s, a)| ==> RemoveChar(s, a)[i] != a
  {
    if s != [] {
      RemoveCharGone(s[1..], a);
    }
  }

  /** Removing a character never introduces another one. */
  lemma RemoveCharKeeps(s: string, a: char, b: char)
    requires forall i :: 0 <= i < |s| ==> s[i] != b
    ensures forall i :: 0 <= i < |RemoveChar(s, a)| ==> RemoveChar(s, a)[i] != b
  {
    if s != [] {
      RemoveCharKeeps(s[1..], a, b);
    }
  }

  /** Removing `a` from `x + [c] + y` when `y` holds no `a`. */
  lemma RemoveCharAround(x: string, c: char, y: string, a: char)
    requires forall i :: 0 <= i < |y| ==> y[i] != a
    ensures RemoveChar(x + [c] + y, a) == RemoveChar(x, a) + (if c == a then [] else [c]) + y
  {
    assert x + [c] + y == x + ([c] + y);
    RemoveCharAppend(x, [c] + y, a);
    assert ([c] + y)[1..] == y;
    RemoveCharNoop(y, a);
  }

  /** Removing a character commutes with replacing another character by a third. */
  lemma {:induction false} RemoveReplaceCommute(s: string, d: char, a: char, b: char)
    requires d != a && d != b
    ensures RemoveChar(ReplaceChar(s, a, b), d) == ReplaceChar(RemoveChar(s, d), a, b)
  {
    if s != [] {
      var r := ReplaceChar(s, a, b);
      assert r == [r[0]] + ReplaceChar(s[1..], a, b);
      RemoveReplaceCommute(s[1..], d, a, b);
      var head := if s[0] == d then [] else [s[0]];
      var t := RemoveChar(s[1..], d);
      assert ReplaceChar(head + t, a, b) == ReplaceChar(head, a, b) + ReplaceChar(t, a, b);
    }
  }

  /** Removing two characters one after the other does not depend on the order. */
  lemma {:induction false} RemoveRemoveCommute(s: string, c: char, d: char)
    ensures RemoveChar(RemoveChar(s, c), d) == RemoveChar(RemoveChar(s, d), c)
  {
    if s != [] {
      RemoveRemoveCommute(s[1..], c, d);
      var hc := if s[0] == c then [] else [s[0]];
      var hd := if s[0] == d then [] else [s[0]];
      RemoveCharAppend(hc, RemoveChar(s[1..], c), d);
      RemoveCharAppend(hd, RemoveChar(s[1..], d), c);
    }
  }

  /** Replacing the only `a` of a string. */
  lemma ReplaceCharSingle(x: string, y: string, a: char, b: char)
    requires forall i :: 0 <= i < |x| ==> x[i] != a
    requires forall i :: 0 <= i < |y| ==> y[i] != a
    ensures ReplaceChar(x + [a] + y, a, b) == x + [b] + y
  {
  }

  /** `t` is written at position `p` of `s`. */
  predicate Placed(s: string, p: nat, t: string) {
    p + |t| <= |s| && forall i :: 0 <= i < |t| ==> s[p + i] == t[i]
  }

  /** Both halves of a concatenation are written where they belong. */
  lemma PlacedAppend(x: string, y: string)
    ensures Placed(x + y, 0, x) && Placed(x + y, |x|, y)
  {
  }

  /** What is written inside a text written in `s` is written in `s`. */
  lemma PlacedWithin(s: string, p: nat, t: string, k: nat, u: string)
    requires Placed(s, p, t) && Placed(t, k, u)
    ensures Placed(s, p + k, u)
  {
    forall i | 0 <= i < |u|
      ensures s[p + k + i] == u[i]
    {
      assert s[p + (k + i)] == t[k + i];
    }
  }

  /** A text written at `p` is the slice there. */
  lemma PlacedSlice(s: string, p: nat, t: string, e: nat)
    requires Placed(s, p, t) && e == p + |t|
    ensures s[p..e] == t
  {
    assert forall i :: 0 <= i < |t| ==> s[p..e][i] == t[i];
  }

  // ---------------------------------------------------------------------------
  // What splitting, joining and stripping do to texts built from words

  /** The run of `drop` characters from `p` ends at `e` when every character before `e` is one and `e` is not. */
  lemma {:induction false} DropFromIs(s: string, drop: char -> bool, p: nat, e: nat)
    requires p <= e <= |s| && (e == |s| || !drop(s[e]))
    requires forall i :: p <= i < e ==> drop(s[i])
    ensures DropFrom(s, drop, p) == e
    decreases e - p
  {
    if p < e {
      DropFromIs(s, drop, p + 1, e);
    }
  }

  /** The first word of `s` ends at `k` when no blank comes before `k` and one is there. */
  lemma {:induction false} WordLengthIs(s: string, k: nat)
    requires k <= |s| && (k == |s| || IsSpace(s[k]))
    requires forall i :: 0 <= i < k ==> !IsSpace(s[i])
    ensures WordLength(s) == k
    decreases k
  {
    if k > 0 {
      WordLengthIs(s[1..], k - 1);
    }
  }

  /** Left-stripping a text followed by more text: the rest follows the stripped text, or is stripped itself when the text was all blank. */
  lemma LStripAppend(x: string, z: string)
    ensures LStrip(x) != [] ==> LStrip(x + z) == LStrip(x) + z
    ensures LStrip(x) == [] ==> LStrip(x + z) == LStrip(z)
  {
    var d := DropFrom(x, IsSpace, 0);
    if d < |x| {
      LStripAppendWord(x, z, d);
    } else {
      LStripAppendBlank(x, z, DropFrom(z, IsSpace, 0));
    }
  }

  lemma LStripAppendWord(x: string, z: string, d: nat)
    requires d == DropFrom(x, IsSpace, 0) && d < |x|
    ensures LStrip(x + z) == x[d..] + z
  {
    var s := x + z;
    assert forall i :: 0 <= i < |x| ==> s[i] == x[i];
    DropFromIs(s, IsSpace, 0, d);
    SliceAppend(x, z, d);
  }

  lemma LStripAppendBlank(x: string, z: string, dz: nat)
    requires DropFrom(x, IsSpace, 0) == |x| && dz == DropFrom(z, IsSpace, 0)
    ensures LStrip(x + z) == z[dz..]
  {
    var s := x + z;
    assert forall i :: 0 <= i < |x| ==> s[i] == x[i];
    assert forall i :: |x| <= i < |x| + dz ==> s[i] == z[i - |x|];
    DropFromIs(s, IsSpace, 0, |x| + dz);
    assert s[|x| + dz..] == z[dz..];
  }

  /** A word is its own split. */
  lemma SplitWord(w: string)
    requires IsWord(w)
    ensures Split(w) == [w]
  {
    DropFromIs(w, IsSpace, 0, 0);
    assert LStrip(w) == w;
    WordLengthIs(w, |w|);
    assert w[..|w|] == w && w[|w|..] == [];
  }

  /** Splitting a text whose left-stripped form starts with a word of length `k`: that word, then the split of the rest. */
  lemma SplitOf(s: string, t: string, k: nat)
    requires t == LStrip(s) && t != [] && k == WordLength(t)
    ensures Split(s) == [t[..k]] + Split(t[k..])
  {
  }

  /** Two texts that left-strip alike split alike. */
  lemma SplitSame(s: string, t: string)
    requires LStrip(s) == LStrip(t)
    ensures Split(s) == Split(t)
  {
  }

  /** A blank separates: splitting `x`, a blank and `y` splits `x` and `y` apart. */
  lemma {:induction false} SplitAppend(x: string, y: string)
    ensures Split(x + " " + y) == Split(x) + Split(y)
    decreases |x|
  {
    var t := LStrip(x);
    if t == [] {
      SplitBlankFirst(x, y);
    } else {
      var k := WordLength(t);
      SplitFirstWord(x, y, t, k);
      SplitAppend(t[k..], y);
      AppendAssoc([t[..k]], Split(t[k..]), Split(y));
    }
  }

  /** When `x` is all blank, splitting `x`, a blank and `y` splits `y`. */
  lemma SplitBlankFirst(x: string, y: string)
    requires LStrip(x) == []
    ensures Split(x) == [] && Split(x + " " + y) == Split(y)
  {
    var s := x + " " + y;
    assert s == x + (" " + y);
    LStripAppend(x, " " + y);
    LStripAppend(" ", y);
    DropFromIs(" ", IsSpace, 0, 1);
    SplitSame(s, y);
  }

  /** When `x` starts with a word, splitting `x`, a blank and `y` gives that word, then the split of the rest. */
  lemma SplitFirstWord(x: string, y: string, t: string, k: nat)
    requires t == LStrip(x) && t != [] && k == WordLength(t)
    ensures 0 < k <= |t| < |x| + 1
    ensures Split(x) == [t[..k]] + Split(t[k..])
    ensures Split(x + " " + y) == [t[..k]] + Split(t[k..] + " " + y)
  {
    var s := x + " " + y;
    var u := t + (" " + y);
    assert s == x + (" " + y);
    LStripAppend(x, " " + y);
    assert forall i :: 0 <= i < |t| ==> u[i] == t[i];
    WordLengthIs(u, k);
    SliceAppend(t, " " + y, k);
    AppendAssoc(t[k..], " ", y);
    SplitOf(s, u, k);
    SplitOf(x, t, k);
  }

  lemma SliceAppend<T>(t: seq<T>, z: seq<T>, k: nat)
    requires k <= |t|
    ensures (t + z)[..k] == t[..k] && (t + z)[k..] == t[k..] + z
  {
  }

  lemma AppendAssoc<T>(a: seq<T>, b: seq<T>, c: seq<T>)
    ensures a + (b + c) == (a + b) + c
  {
  }

  /** Splitting words joined by blanks gives the words back. */
  lemma {:induction false} SplitJoin(ws: seq<string>)
    requires forall k :: 0 <= k < |ws| ==> IsWord(ws[k])
    ensures Split(Join(ws, " ")) == ws
  {
    if ws == [] {
      assert LStrip([]) == [];
    } else if |ws| == 1 {
      SplitWord(ws[0]);
    } else {
      var r := Join(ws[1..], " ");
      assert Join(ws, " ") == ws[0] + " " + r;
      SplitJoin(ws[1..]);
      SplitWordThen(ws[0], r);
      assert ws == [ws[0]] + ws[1..];
    }
  }

  /** Splitting a word, a blank and a text gives the word, then the split of the text. */
  lemma SplitWordThen(w: string, r: string)
    requires IsWord(w)
    ensures Split(w + " " + r) == [w] + Split(r)
  {
    SplitAppend(w, r);
    SplitWord(w);
  }

  /** Words joined by blanks start and end with a character of a word. */
  lemma {:induction false} JoinEnds(ws: seq<string>)
    requires ws != [] && forall k :: 0 <= k < |ws| ==> IsWord(ws[k])
    ensures var j := Join(ws, " "); j != [] && !IsSpace(j[0]) && !IsSpace(j[|j| - 1])
  {
    if |ws| > 1 {
      JoinEnds(ws[1..]);
      var r := Join(ws[1..], " ");
      assert Join(ws, " ") == ws[0] + (" " + r);
    }
  }

  /** A character other than the blank that no word holds is not in the words joined by blanks. */
  lemma {:induction false} JoinAvoids(ws: seq<string>, c: char)
    requires c != ' ' && forall k, i :: 0 <= k < |ws| && 0 <= i < |ws[k]| ==> ws[k][i] != c
    ensures forall i :: 0 <= i < |Join(ws, " ")| ==> Join(ws, " ")[i] != c
  {
    if |ws| > 1 {
      JoinAvoids(ws[1..], c);
      var r := Join(ws[1..], " ");
      assert Join(ws, " ") == ws[0] + " " + r;
      assert forall i :: 0 <= i < |ws[0]| ==> ws[0][i] != c;
    } else if |ws| == 1 {
      assert forall i :: 0 <= i < |ws[0]| ==> ws[0][i] != c;
    }
  }

  /** Joining two lists of words is joining their joins with a blank. */
  lemma {:induction false} JoinAppend(a: seq<string>, b: seq<string>)
    requires a != [] && b != []
    ensures Join(a + b, " ") == Join(a, " ") + " " + Join(b, " ")
  {
    if |a| > 1 {
      JoinAppend(a[1..], b);
      assert (a + b)[1..] == a[1..] + b;
    } else {
      assert (a + b)[1..] == b;
    }
  }

  /** Stripping keeps a leading run of `n` non-blank characters. */
  lemma StripKeepsPrefix(x: string, n: nat)
    requires 0 < n <= |x| && forall i :: 0 <= i < n ==> !IsSpace(x[i])
    ensures n <= |Strip(x)| && Strip(x)[..n] == x[..n]
  {
    DropFromIs(x, IsSpace, 0, 0);
    assert LStrip(x) == x;
    assert !IsSpace(x[n - 1]);
  }

  /** A blank after a text that starts and ends with a non-blank is stripped off. */
  lemma StripBlankAfter(x: string)
    requires x != [] && !IsSpace(x[0]) && !IsSpace(x[|x| - 1])
    ensures Strip(x + " ") == x
  {
    var s := x + " ";
    DropFromIs(s, IsSpace, 0, 0);
    assert LStrip(s) == s;
    assert DropUntil(s, IsSpace, |s|) == |x|;
    assert s[..|x|] == x;
  }

  /** A blank before a text that starts and ends with a non-blank is stripped off. */
  lemma StripBlankBefore(x: string)
    requires x != [] && !IsSpace(x[0]) && !IsSpace(x[|x| - 1])
    ensures Strip(" " + x) == x
  {
    var s := " " + x;
    DropFromIs(s, IsSpace, 0, 1);
    assert LStrip(s) == x;
    StripNoop(x);
  }

}
