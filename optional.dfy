/** The value-or-nothing wrapper used wherever a statement parser may find nothing. */
module Optional {

  datatype Option<T> = None | Some(value: T) {

    /** The wrapped value, or `default` when there is none. */
    function GetOr(default: T): T {
      match this
      case Some(v) => v
      case None => default
    }
  }

  /**
   * All the values, when every entry has one; nothing as soon as one entry has none. The
   * parsers that give up on the first line they cannot read build their lists this way.
   */
  function Collect<T>(xs: seq<Option<T>>): (r: Option<seq<T>>) {
    if xs == [] then Some([])
    else
      match (Collect(xs[..|xs| - 1]), xs[|xs| - 1])
      case (Some(vs), Some(v)) => Some(vs + [v])
      case _ => None
  }

  /** One more entry adds its value, or makes the whole list fail. */
  lemma {:induction false} CollectSnoc<T>(xs: seq<Option<T>>, i: nat)
    requires i < |xs|
    ensures Collect(xs[..i + 1]) == match (Collect(xs[..i]), xs[i])
      case (Some(vs), Some(v)) => Some(vs + [v])
      case _ => None
  {
    assert xs[..i + 1][..i] == xs[..i];
  }

  /** The list holds a value for each entry, in order, exactly when no entry is missing. */
  lemma {:induction false} CollectAll<T>(xs: seq<Option<T>>)
    ensures Collect(xs).Some? <==> forall k :: 0 <= k < |xs| ==> xs[k].Some?
    ensures Collect(xs).Some? ==> (|Collect(xs).value| == |xs|
      && forall k :: 0 <= k < |xs| ==> xs[k] == Some(Collect(xs).value[k]))
  {
    if xs != [] {
      var init := xs[..|xs| - 1];
      CollectAll(init);
      assert forall k :: 0 <= k < |init| ==> xs[k] == init[k];
    }
  }

  /**
   * The first value of a list of candidates, if any: what a `for ... if ...: break` search
   * settles on. Nothing exactly when no candidate has a value.
   */
  function FirstSome<T>(xs: seq<Option<T>>): (r: Option<T>)
    ensures r.None? <==> forall k :: 0 <= k < |xs| ==> xs[k].None?
    ensures r.Some? ==> r in xs
  {
    if xs == [] then None
    else if xs[0].Some? then xs[0]
    else
      var r := FirstSome(xs[1..]);
      assert forall k :: 1 <= k < |xs| ==> xs[k] == xs[1..][k - 1];
      r
  }

  /** When candidate `k` is the first with a value, the search settles on it. */
  lemma {:induction false} FirstSomeAt<T>(xs: seq<Option<T>>, k: nat)
    requires k < |xs| && xs[k].Some? && forall j :: 0 <= j < k ==> xs[j].None?
    ensures FirstSome(xs) == xs[k]
  {
    if k > 0 {
      assert forall j :: 0 <= j < k - 1 ==> xs[1..][j] == xs[j + 1];
      FirstSomeAt(xs[1..], k - 1);
    }
  }

  /** The values of a list of candidates, in order, skipping the entries without one. */
  function Values<T>(xs: seq<Option<T>>): (r: seq<T>)
    ensures |r| <= |xs|
  {
    if xs == [] then []
    else
      var last := xs[|xs| - 1];
      Values(xs[..|xs| - 1]) + if last.Some? then [last.value] else []
  }

  /** No value is kept exactly when no entry has one. */
  lemma {:induction false} ValuesEmpty<T>(xs: seq<Option<T>>)
    ensures Values(xs) == [] <==> forall k :: 0 <= k < |xs| ==> xs[k].None?
  {
    if xs != [] {
      var init := xs[..|xs| - 1];
      ValuesEmpty(init);
      assert forall k :: 0 <= k < |init| ==> init[k] == xs[k];
    }
  }

  /** Every kept value is the value of some entry. */
  lemma {:induction false} ValuesFrom<T>(xs: seq<Option<T>>)
    ensures forall v :: v in Values(xs) ==> Some(v) in xs
  {
    if xs != [] {
      var init := xs[..|xs| - 1];
      ValuesFrom(init);
      assert forall x :: x in init ==> x in xs;
    }
  }

  // ---------------------------------------------------------------------------
  // Lazy searches

  /** The first hit from `q0` on: no earlier position hits, and with no hit none from `q0` does. */
  function FirstHit(hits: seq<bool>, q0: nat): (r: Option<nat>)
    decreases |hits| - q0
    ensures r.Some? ==> q0 <= r.value < |hits| && hits[r.value]
    ensures r.Some? ==> forall q :: q0 <= q < r.value ==> !hits[q]
    ensures r.None? ==> forall q :: q0 <= q < |hits| ==> !hits[q]
  {
    if q0 >= |hits| then None
    else if hits[q0] then Some(q0)
    else FirstHit(hits, q0 + 1)
  }

  /** The first hit from `q0` is `q` when `q` hits and nothing before it does. */
  lemma FirstHitIs(hits: seq<bool>, q0: nat, q: nat)
    requires q0 <= q < |hits| && hits[q]
    requires forall q' :: q0 <= q' < q ==> !hits[q']
    ensures FirstHit(hits, q0) == Some(q)
  {
    var r := FirstHit(hits, q0);
    assert r.Some?;
    assert !(q < r.value);
  }
}
