/** The filter stage shared by both k-t BLAST variants: prior energy
    E = |prior|^2, a denominator that adds the energy rolled by each alias
    offset plus the noise term, the filter E / denominator, and its
    application `aliased * filter * R`. */
module WienerFilter {
  import opened Numbers
  import opened NdArray

  predicate Nonnegative(e: seq<real>) {
    forall p :: 0 <= p < |e| ==> e[p] >= 0.0
  }

  /** np.abs(prior)**2, elementwise. */
  function Energy(prior: Array3<Complex>): (e: Array3<real>)
    requires prior.Valid()
    ensures e.Valid() && e.dims == prior.dims && Nonnegative(e.data)
    ensures forall p :: 0 <= p < |e.data| ==> e.data[p] == Norm2(prior.data[p])
  {
    Array3(prior.dims, seq(|prior.data|, p requires 0 <= p < |prior.data| => Norm2(prior.data[p])))
  }

  /** The energy the alias offsets fold onto flat position `p`: for each
      offset, the energy at (p - sum of the offset) mod N, as the flat roll
      places it there. */
  function AliasedEnergy(e: seq<real>, offsets: seq<seq<int>>, p: int): (s: real)
    requires 0 <= p < |e|
    ensures Nonnegative(e) ==> s >= 0.0
  {
    if offsets == [] then 0.0
    else AliasedEnergy(e, offsets[..|offsets| - 1], p) + e[(p - Sum(offsets[|offsets| - 1])) % |e|]
  }

  /** Elementwise sum of two arrays of the same shape (`a += b`). */
  function Plus(a: Array3<real>, b: Array3<real>): (r: Array3<real>)
    requires a.Valid() && b.Valid() && a.dims == b.dims
    ensures r.Valid() && r.dims == a.dims
    ensures forall p :: 0 <= p < |r.data| ==> r.data[p] == a.data[p] + b.data[p]
  {
    Array3(a.dims, seq(|a.data|, p requires 0 <= p < |a.data| => a.data[p] + b.data[p]))
  }

  /** The filter denominator: start from zeros, add the energy rolled by
      each offset in turn, then add the noise term. */
  method Denominator(e: Array3<real>, offsets: seq<seq<int>>, psi: real) returns (denom: Array3<real>)
    requires e.Valid()
    ensures denom.Valid() && denom.dims == e.dims
    ensures forall p :: 0 <= p < |e.data| ==> denom.data[p] == AliasedEnergy(e.data, offsets, p) + psi
  {
    denom := Array3(e.dims, seq(|e.data|, _ => 0.0));
    var ii := 0;
    while ii < |offsets|
      invariant 0 <= ii <= |offsets|
      invariant denom.Valid() && denom.dims == e.dims
      invariant forall p :: 0 <= p < |e.data| ==> denom.data[p] == AliasedEnergy(e.data, offsets[..ii], p)
    {
      assert offsets[..ii + 1][..ii] == offsets[..ii];
      denom := Plus(denom, NpRoll(e, offsets[ii]));
      ii := ii + 1;
    }
    assert offsets[..ii] == offsets;
    denom := Plus(denom, Array3(e.dims, seq(|e.data|, _ => psi)));
  }

  /** Lines 43-50 of ktblast.py and 18-27 of malik_ktblast.py: the
      denominator, then `E / denominator` elementwise. */
  method Filter(e: Array3<real>, offsets: seq<seq<int>>, psi: real) returns (filter: Array3<Fp<real>>)
    requires e.Valid()
    ensures filter.Valid() && filter.dims == e.dims
    ensures forall p :: 0 <= p < |filter.data| ==> filter.data[p] == Weight(e.data, offsets, psi, p)
  {
    var denom := Denominator(e, offsets, psi);
    filter := Quotient(e, denom);
  }

  /** The filter value at `p`: the prior energy there over the aliased
      energy plus noise; non-finite where that denominator is zero. */
  function Weight(e: seq<real>, offsets: seq<seq<int>>, psi: real, p: int): (w: Fp<real>)
    requires 0 <= p < |e|
    ensures w.Finite? <==> AliasedEnergy(e, offsets, p) + psi != 0.0
    ensures w.Finite? ==> w.val * (AliasedEnergy(e, offsets, p) + psi) == e[p]
  {
    Divide(e[p], AliasedEnergy(e, offsets, p) + psi)
  }

  /** xf_filter = E / denom, elementwise. */
  function Quotient(e: Array3<real>, denom: Array3<real>): (f: Array3<Fp<real>>)
    requires e.Valid() && denom.Valid() && e.dims == denom.dims
    ensures f.Valid() && f.dims == e.dims
    ensures forall p :: 0 <= p < |f.data| ==> f.data[p] == Divide(e.data[p], denom.data[p])
  {
    Array3(e.dims, seq(|e.data|, p requires 0 <= p < |e.data| => Divide(e.data[p], denom.data[p])))
  }

  /** One output sample, `(aliased * filter) * R`; a non-finite filter value
      makes the sample non-finite. */
  function Applied(z: Complex, w: Fp<real>, r: int): (out: Fp<Complex>)
    ensures out.Finite? <==> w.Finite?
    ensures w == Finite(0.0) ==> out == Finite(Zero)
  {
    match w
    case Finite(v) => Finite(Scale(Scale(z, v), r as real))
    case NonFinite => NonFinite
  }

  /** The filter applied elementwise to the aliased data and rescaled by R. */
  function Reconstruct(aliased: Array3<Complex>, filter: Array3<Fp<real>>, r: int): (out: Array3<Fp<Complex>>)
    requires aliased.Valid() && filter.Valid() && aliased.dims == filter.dims
    ensures out.Valid() && out.dims == aliased.dims
    ensures forall p :: 0 <= p < |out.data| ==> out.data[p] == Applied(aliased.data[p], filter.data[p], r)
  {
    Array3(aliased.dims, seq(|aliased.data|, p requires 0 <= p < |aliased.data| => Applied(aliased.data[p], filter.data[p], r)))
  }

  // ---------------------------------------------------------------------
  // Properties of the filter

  /** Each offset contributes its rolled energy to the sum. */
  lemma {:induction false} AliasedEnergyCovers(e: seq<real>, offsets: seq<seq<int>>, p: int, k: int)
    requires Nonnegative(e) && 0 <= p < |e| && 0 <= k < |offsets|
    ensures AliasedEnergy(e, offsets, p) >= e[(p - Sum(offsets[k])) % |e|]
  {
    var init := offsets[..|offsets| - 1];
    if k < |offsets| - 1 {
      assert init[k] == offsets[k];
      AliasedEnergyCovers(e, init, p, k);
    }
  }

  /** With a nonzero noise term (taken as a magnitude), every denominator
      entry is positive and every filter value is finite and nonnegative. */
  lemma PositiveNoiseFilter(e: seq<real>, offsets: seq<seq<int>>, psi: real, p: int)
    requires Nonnegative(e) && 0 <= p < |e| && psi > 0.0
    ensures AliasedEnergy(e, offsets, p) + psi > 0.0
    ensures Weight(e, offsets, psi, p).Finite? && Weight(e, offsets, psi, p).val >= 0.0
  {
  }

  lemma QuotientAntitone(x: real, a: real, b: real)
    requires x >= 0.0 && 0.0 < a <= b
    ensures x / b <= x / a
  {
    assert x / b * b == x;
    assert x / a * a == x;
    assert x / b * a <= x / b * b;
  }

  lemma QuotientAtMostOne(x: real, d: real)
    requires 0.0 <= x <= d && d > 0.0
    ensures 0.0 <= x / d <= 1.0
  {
    assert (1.0 - x / d) * d == d - x;
  }

  /** A larger noise term never raises a filter value. */
  lemma NoiseMonotone(e: seq<real>, offsets: seq<seq<int>>, psi1: real, psi2: real, p: int)
    requires Nonnegative(e) && 0 <= p < |e|
    requires psi1 <= psi2 && AliasedEnergy(e, offsets, p) + psi1 > 0.0
    ensures Weight(e, offsets, psi1, p).Finite? && Weight(e, offsets, psi2, p).Finite?
    ensures Weight(e, offsets, psi2, p).val <= Weight(e, offsets, psi1, p).val
  {
    QuotientAntitone(e[p], AliasedEnergy(e, offsets, p) + psi1, AliasedEnergy(e, offsets, p) + psi2);
  }

  /** When one offset rolls by a multiple of N (the peak at the origin), the
      voxel's own energy is in its denominator, so a finite filter value is
      at most 1; it is non-finite only where the denominator is zero. */
  lemma OriginPeakBound(e: seq<real>, offsets: seq<seq<int>>, psi: real, p: int, k: int)
    requires Nonnegative(e) && 0 <= p < |e| && psi >= 0.0
    requires 0 <= k < |offsets| && Sum(offsets[k]) % |e| == 0
    ensures Weight(e, offsets, psi, p).NonFinite? <==> AliasedEnergy(e, offsets, p) + psi == 0.0
    ensures Weight(e, offsets, psi, p).Finite? ==>
              0.0 <= Weight(e, offsets, psi, p).val <= 1.0
  {
    var n := |e|;
    var s := Sum(offsets[k]);
    assert p - s == p + (-(s / n)) * n by {
      assert s == (s / n) * n + s % n;
    }
    ModArith.ModAddMultiple(p, -(s / n), n);
    assert p % n == p by {
      ModArith.DivModUnique(p, n, 0, p);
    }
    AliasedEnergyCovers(e, offsets, p, k);
    var d := AliasedEnergy(e, offsets, p) + psi;
    if d != 0.0 {
      QuotientAtMostOne(e[p], d);
    }
  }

  /** A voxel with no prior energy and a nonzero denominator reconstructs
      to zero, whatever the aliased sample there. */
  lemma ZeroEnergyGivesZero(e: seq<real>, offsets: seq<seq<int>>, psi: real, p: int, z: Complex, r: int)
    requires 0 <= p < |e| && e[p] == 0.0 && AliasedEnergy(e, offsets, p) + psi != 0.0
    ensures Applied(z, Weight(e, offsets, psi, p), r) == Finite(Zero)
  {
    assert Weight(e, offsets, psi, p) == Finite(0.0);
    assert Scale(z, 0.0) == Zero;
    assert Scale(Zero, r as real) == Zero;
  }

  lemma MulLeft(a: real, x: real, y: real)
    requires a >= 0.0 && x <= y
    ensures a * x <= a * y
  {
    assert a * y - a * x == a * (y - x);
  }

  /** A filter value in [0, 1] bounds the output's squared magnitude by
      R^2 times the aliased sample's. */
  lemma OutputBound(z: Complex, w: real, r: int)
    requires 0.0 <= w <= 1.0
    ensures Applied(z, Finite(w), r).Finite?
    ensures Norm2(Applied(z, Finite(w), r).val) <= (r as real) * (r as real) * Norm2(z)
  {
    var rr := r as real;
    var n := Norm2(z);
    var ww := w * w;
    var sq := rr * rr;
    var out := Applied(z, Finite(w), r).val;
    assert out == Scale(Scale(z, w), rr);
    NormOfScale(z, w);
    NormOfScale(Scale(z, w), rr);
    assert Norm2(out) == sq * (ww * n);
    MulLeft(w, w, 1.0);
    assert ww <= 1.0;
    assert n >= 0.0;
    MulLeft(n, ww, 1.0);
    assert ww * n <= n;
    assert sq >= 0.0;
    MulLeft(sq, ww * n, n);
    assert sq * (ww * n) <= sq * n;
  }
}
