/**
 * Searching and slicing the list of lines of a statement.
 *
 * Several parsers mark out a section of the statement by the first line that mentions a
 * heading and the first later line that mentions a closing text, then take the lines in
 * between with Python's list slicing.
 */
module Lines {
  import opened Text
  import opened Optional

  /**
   * The index of the first line in `[from, to)` that contains one of `keys` (the loop
   * `for i, l in enumerate(lines): if any(k in l for k in keys) ...` with a `break`).
   */
  function FirstIn(lines: seq<string>, keys: seq<string>, from: nat, to: nat): (r: Option<nat>)
    requires to <= |lines|
    ensures r.Some? ==> from <= r.value < to && ContainsAny(lines[r.value], keys)
    ensures r.Some? ==> forall j :: from <= j < r.value ==> !ContainsAny(lines[j], keys)
    ensures r.None? ==> forall j :: from <= j < to ==> !ContainsAny(lines[j], keys)
  {
    if to <= from then None
    else match FirstIn(lines, keys, from, to - 1)
      case Some(k) => Some(k)
      case None => if ContainsAny(lines[to - 1], keys) then Some(to - 1) else None
  }

  /** Searching a longer prefix finds the same first line, unless the prefix had none. */
  lemma {:induction false} FirstInExtends(lines: seq<string>, keys: seq<string>, from: nat, to: nat, upTo: nat)
    requires to <= upTo <= |lines| && FirstIn(lines, keys, from, to).Some?
    ensures FirstIn(lines, keys, from, upTo) == FirstIn(lines, keys, from, to)
    decreases upTo - to
  {
    if to < upTo {
      FirstInExtends(lines, keys, from, to, upTo - 1);
    }
  }

  /** A line in the range that has a key, with none before it in the range, is the first one. */
  lemma FirstInAt(lines: seq<string>, keys: seq<string>, from: nat, to: nat, k: nat)
    requires from <= k < to <= |lines| && ContainsAny(lines[k], keys)
    requires forall j :: from <= j < k ==> !ContainsAny(lines[j], keys)
    ensures FirstIn(lines, keys, from, to) == Some(k)
  {
    var r := FirstIn(lines, keys, from, to);
    assert r.Some?;
    assert !(r.value < k) && !(k < r.value);
  }

  /** Python's `xs[a:b]` for an end within the list: empty when the start lies past the end. */
  function Sub(xs: seq<string>, a: nat, b: nat): (r: seq<string>)
    requires b <= |xs|
    ensures |r| == if a <= b then b - a else 0
    ensures forall k :: 0 <= k < |r| ==> r[k] == xs[a + k]
  {
    if a <= b then xs[a..b] else []
  }
}
