/** The panel-pairing rules of `plot_2d_scatter_with_fits`: which (x, y)
    array pairs become the panels of the figure. Arrays are opaque. */
module Pairing {
  import opened Common

  datatype PairingError =
    | MissingPhenotype      // `phenotype` was None
    | ListLengthMismatch    // both sides are lists of different lengths

  /** When the normalised lists of m x-arrays and k y-arrays can be paired:
      equal lengths, or one side a single array facing at least one array on
      the other side. A single array never stretches to an empty list. */
  predicate Compatible(m: nat, k: nat) {
    m == k || (m == 1 && k > 0) || (k == 1 && m > 0)
  }

  /** `pairs` broadcasts `xs` against `ys`: a one-element side is reused for
      every panel, otherwise panel i takes element i of each side. */
  ghost predicate IsBroadcast<T>(xs: seq<T>, ys: seq<T>, pairs: seq<(T, T)>)
    requires Compatible(|xs|, |ys|)
  {
    && |pairs| == Max(|xs|, |ys|)
    && forall i :: 0 <= i < |pairs| ==>
         pairs[i] == (xs[if |xs| == 1 then 0 else i], ys[if |ys| == 1 then 0 else i])
  }

  /** The resolver: normalise both arguments to lists, then apply the four
      rules in the order the helper tests them. */
  function ResolvePairs<T>(x: OneOrMany<T>, phenotype: Option<OneOrMany<T>>): (r: Result<seq<(T, T)>, PairingError>)
    ensures phenotype.None? ==> r == Err(MissingPhenotype)
    ensures phenotype.Some? ==>
      (r.Ok? <==> Compatible(|AsList(x)|, |AsList(phenotype.value)|))
    ensures phenotype.Some? && r.Err? ==> r.error == ListLengthMismatch
    ensures r.Ok? ==>
      && phenotype.Some?
      && Compatible(|AsList(x)|, |AsList(phenotype.value)|)
      && IsBroadcast(AsList(x), AsList(phenotype.value), r.value)
  {
    match phenotype
    case None => Err(MissingPhenotype)
    case Some(y) =>
      var xs := AsList(x);
      var ys := AsList(y);
      if |xs| == 1 && |ys| == 1 then
        Ok([(xs[0], ys[0])])
      else if |xs| > 1 && |ys| == 1 then
        Ok(seq(|xs|, i requires 0 <= i < |xs| => (xs[i], ys[0])))
      else if |xs| == 1 && |ys| > 1 then
        Ok(seq(|ys|, i requires 0 <= i < |ys| => (xs[0], ys[i])))
      else if |xs| != |ys| then
        Err(ListLengthMismatch)
      else
        Ok(seq(|xs|, i requires 0 <= i < |xs| => (xs[i], ys[i])))
  }

  /** The four documented pairing rules, each for every input of its shape. */
  lemma PairingRules<T>(x: OneOrMany<T>, y: OneOrMany<T>)
    ensures x.Single? && y.Single? ==> ResolvePairs(x, Some(y)) == Ok([(x.item, y.item)])
    ensures x.Many? && |x.items| > 1 && y.Single? ==>
      var r := ResolvePairs(x, Some(y));
      r.Ok? && |r.value| == |x.items|
      && forall i :: 0 <= i < |x.items| ==> r.value[i] == (x.items[i], y.item)
    ensures x.Single? && y.Many? && |y.items| > 1 ==>
      var r := ResolvePairs(x, Some(y));
      r.Ok? && |r.value| == |y.items|
      && forall i :: 0 <= i < |y.items| ==> r.value[i] == (x.item, y.items[i])
    ensures x.Many? && y.Many? && |x.items| != |y.items| && !(|x.items| == 1 || |y.items| == 1) ==>
      ResolvePairs(x, Some(y)) == Err(ListLengthMismatch)
    ensures x.Many? && y.Many? && |x.items| == |y.items| ==>
      var r := ResolvePairs(x, Some(y));
      r.Ok? && |r.value| == |x.items|
      && forall i :: 0 <= i < |x.items| ==> r.value[i] == (x.items[i], y.items[i])
  {
  }

  /** The boundary cases: one-element lists pair up, an empty x list cannot
      take a single phenotype, and two empty lists give no panels. */
  lemma PairingEdgeCases<T>(a: T, b: T)
    ensures ResolvePairs(Many([a]), Some(Many([b]))) == Ok([(a, b)])
    ensures ResolvePairs(Many([]), Some(Single(b))) == Err(ListLengthMismatch)
    ensures ResolvePairs(Single(a), Some(Many([]))) == Err(ListLengthMismatch)
    ensures ResolvePairs<T>(Many([]), Some(Many([]))) == Ok([])
  {
  }

  /** The panel count is the larger list length, whichever rule applied. */
  lemma PanelCount<T>(x: OneOrMany<T>, y: OneOrMany<T>)
    requires ResolvePairs(x, Some(y)).Ok?
    ensures |ResolvePairs(x, Some(y)).value| == Max(|AsList(x)|, |AsList(y)|)
    ensures |AsList(x)| != 1 && |AsList(y)| != 1 ==> |AsList(x)| == |AsList(y)|
  {
  }
}
