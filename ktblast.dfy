/** The k-t BLAST filter stage of ktblast/ktblast.py: move the time axis
    last, sanitise the noise term, check that the sampling grid's PSF has
    exactly R peaks above threshold, build the filter from the prior's
    energy and apply it, then move the time axis back. The x-f transform of
    the sampling grid is outside the model: the caller supplies the
    above-threshold mask of its PSF. */
module KtBlast {
  import opened Results
  import opened Numbers
  import opened NdArray
  import opened WienerFilter

  /** The output sample at flat position `p` of the time-last layout. */
  function OutputAt(aliased: Array3<Complex>, prior: Array3<Complex>, peaks: Array3<bool>,
                    r: int, psi: real, p: int): (out: Fp<Complex>)
    requires aliased.Valid() && prior.Valid() && peaks.Valid() && aliased.dims == prior.dims
    requires 0 <= p < |prior.data|
    ensures out.Finite? <==> AliasedEnergy(Energy(prior).data, Where(peaks), p) + Abs(psi) != 0.0
  {
    Applied(aliased.data[p], Weight(Energy(prior).data, Where(peaks), Abs(psi), p), r)
  }

  /** Lines 42-53 on the time-last layout: the filter from the prior's
      energy, the alias offsets `idx` and the noise magnitude, applied to
      the aliased data and rescaled by R. */
  method FilterStage(aliased: Array3<Complex>, prior: Array3<Complex>, idx: seq<seq<int>>,
                     r: int, psiAbs: real)
    returns (recon: Array3<Fp<Complex>>)
    requires aliased.Valid() && prior.Valid() && aliased.dims == prior.dims
    ensures recon.Valid() && recon.dims == prior.dims
    ensures forall p :: 0 <= p < |recon.data| ==>
              recon.data[p] == Applied(aliased.data[p], Weight(Energy(prior).data, idx, psiAbs, p), r)
  {
    var e := Energy(prior);
    var filter := Filter(e, idx, psiAbs);
    recon := Reconstruct(aliased, filter, r);
  }

  /** ktblast(xf_aliased, xf_prior, kt_grid, R, psi, time_axis), with the
      PSF of kt_grid given as its above-threshold mask `psfPeaks`, which has
      the grid's shape. */
  method KtBlast(xfAliased: Array3<Complex>, xfPrior: Array3<Complex>, psfPeaks: Array3<bool>,
                 r: int, psi: real, timeAxis: int)
    returns (result: Result<Array3<Fp<Complex>>>)
    requires xfAliased.Valid() && xfPrior.Valid() && psfPeaks.Valid()
    requires xfAliased.dims == xfPrior.dims
    ensures NormalizeAxis(timeAxis).None? ==> result == Err(AxisError)
    ensures NormalizeAxis(timeAxis).Some? && !NonemptyAxes(psfPeaks.dims) ==> result == Err(EmptyFftAxis)
    ensures NormalizeAxis(timeAxis).Some? && NonemptyAxes(psfPeaks.dims) && |Where(psfPeaks)| != r ==>
              result == Err(AliasCountMismatch(r, |Where(psfPeaks)|))
    ensures result.Ok? <==>
              NormalizeAxis(timeAxis).Some? && NonemptyAxes(psfPeaks.dims) && |Where(psfPeaks)| == r
    ensures result.Ok? ==> result.value.Valid() && result.value.dims == xfAliased.dims
    ensures result.Ok? ==>
              var ax := NormalizeAxis(timeAxis).value;
              var out := MoveAxisToLast(result.value, ax);
              var aliased := MoveAxisToLast(xfAliased, ax);
              var prior := MoveAxisToLast(xfPrior, ax);
              out.dims == prior.dims &&
              forall p :: 0 <= p < |out.data| ==>
                out.data[p] == OutputAt(aliased, prior, psfPeaks, r, psi, p)
  {
    var axis := NormalizeAxis(timeAxis);
    if axis.None? {
      return Err(AxisError);
    }
    var ax := axis.value;
    var aliased := MoveAxisToLast(xfAliased, ax);
    var prior := MoveAxisToLast(xfPrior, ax);
    var psiAbs := Abs(psi);
    // kt2xf(kt_grid) at line 34: the FFTs reject an axis of length zero
    if !NonemptyAxes(psfPeaks.dims) {
      return Err(EmptyFftAxis);
    }
    var idx := Where(psfPeaks);
    if |idx| != r {
      return Err(AliasCountMismatch(r, |idx|));
    }
    var recon := FilterStage(aliased, prior, idx, r, psiAbs);
    MoveAxisRoundTrip(recon, ax);
    result := Ok(MoveAxisFromLast(recon, ax));
    assert MoveAxisToLast(result.value, ax) == recon;
  }

  // ---------------------------------------------------------------------
  // What the filter stage promises, stated on the time-last layout

  /** The noise term is used as a magnitude, so with any nonzero `psi` every
      output sample is finite. */
  lemma NonzeroNoiseFinite(aliased: Array3<Complex>, prior: Array3<Complex>, peaks: Array3<bool>,
                           r: int, psi: real, p: int)
    requires aliased.Valid() && prior.Valid() && peaks.Valid() && aliased.dims == prior.dims
    requires 0 <= p < |prior.data| && psi != 0.0
    ensures OutputAt(aliased, prior, peaks, r, psi, p).Finite?
    ensures Weight(Energy(prior).data, Where(peaks), Abs(psi), p).Finite?
    ensures Weight(Energy(prior).data, Where(peaks), Abs(psi), p).val >= 0.0
  {
    PositiveNoiseFilter(Energy(prior).data, Where(peaks), Abs(psi), p);
  }

  /** A true PSF entry at position 0 makes one of the offsets the zero
      triple (0, 0, 0). */
  lemma OriginOffset(peaks: Array3<bool>) returns (k: nat)
    requires peaks.Valid() && |peaks.data| > 0 && peaks.data[0]
    ensures k < |Where(peaks)| && Where(peaks)[k] == [0, 0, 0] && Sum(Where(peaks)[k]) == 0
  {
    var idx := Where(peaks);
    var ps := Nonzero(peaks.data);
    assert 0 in ps;
    k :| 0 <= k < |ps| && ps[k] == 0;
    assert Offset(peaks.dims, idx[k]) == 0;
    assert InBounds(peaks.dims, [0, 0, 0]) && Offset(peaks.dims, [0, 0, 0]) == 0;
    OffsetInjective(peaks.dims, idx[k], [0, 0, 0]);
    assert Sum(idx[k]) == 0 by {
      assert [0, 0, 0][..2] == [0, 0] && [0, 0][..1] == [0] && [0][..0] == [];
    }
  }

  /** With a PSF peak at the origin, every finite filter value lies in [0, 1]. */
  lemma OriginPeakWeight(prior: Array3<Complex>, peaks: Array3<bool>, psi: real, p: int)
    requires prior.Valid() && peaks.Valid() && 0 <= p < |prior.data|
    requires |peaks.data| > 0 && peaks.data[0]
    ensures var w := Weight(Energy(prior).data, Where(peaks), Abs(psi), p);
            w.Finite? ==> 0.0 <= w.val <= 1.0
  {
    var e := Energy(prior).data;
    var idx := Where(peaks);
    var k := OriginOffset(peaks);
    assert Sum(idx[k]) % |e| == 0;
    OriginPeakBound(e, idx, Abs(psi), p, k);
  }

  /** When the PSF has a peak at the origin, each finite output sample is
      the aliased sample scaled by a filter value in [0, 1] and by R, so its
      squared magnitude is at most R^2 times the aliased one. */
  lemma OriginPeakOutputBound(aliased: Array3<Complex>, prior: Array3<Complex>, peaks: Array3<bool>,
                              r: int, psi: real, p: int)
    requires aliased.Valid() && prior.Valid() && peaks.Valid() && aliased.dims == prior.dims
    requires 0 <= p < |prior.data|
    requires |peaks.data| > 0 && peaks.data[0]
    ensures OutputAt(aliased, prior, peaks, r, psi, p).Finite? ==>
              Norm2(OutputAt(aliased, prior, peaks, r, psi, p).val)
                <= (r as real) * (r as real) * Norm2(aliased.data[p])
  {
    var w := Weight(Energy(prior).data, Where(peaks), Abs(psi), p);
    OriginPeakWeight(prior, peaks, psi, p);
    assert OutputAt(aliased, prior, peaks, r, psi, p) == Applied(aliased.data[p], w, r);
    if w.Finite? {
      OutputBound(aliased.data[p], w.val, r);
    }
  }

  /** A voxel whose prior energy is zero reconstructs to zero wherever its
      denominator is nonzero (always, when psi is nonzero). */
  lemma ZeroPriorZeroOutput(aliased: Array3<Complex>, prior: Array3<Complex>, peaks: Array3<bool>,
                            r: int, psi: real, p: int)
    requires aliased.Valid() && prior.Valid() && peaks.Valid() && aliased.dims == prior.dims
    requires 0 <= p < |prior.data| && prior.data[p] == Zero && psi != 0.0
    ensures OutputAt(aliased, prior, peaks, r, psi, p) == Finite(Zero)
  {
    var a := Abs(psi);
    assert a > 0.0;
    var e := Energy(prior).data;
    var idx := Where(peaks);
    assert e[p] == Norm2(Zero) == 0.0;
    PositiveNoiseFilter(e, idx, a, p);
    ZeroEnergyGivesZero(e, idx, a, p, aliased.data[p], r);
    assert OutputAt(aliased, prior, peaks, r, psi, p) == Applied(aliased.data[p], Weight(e, idx, a, p), r);
  }

  /** A larger |psi| never raises the filter value at any voxel. */
  lemma FilterNoiseMonotone(prior: Array3<Complex>, peaks: Array3<bool>, psi1: real, psi2: real, p: int)
    requires prior.Valid() && peaks.Valid() && 0 <= p < |prior.data|
    requires 0.0 < Abs(psi1) <= Abs(psi2)
    ensures Weight(Energy(prior).data, Where(peaks), Abs(psi1), p).Finite?
    ensures Weight(Energy(prior).data, Where(peaks), Abs(psi2), p).Finite?
    ensures Weight(Energy(prior).data, Where(peaks), Abs(psi2), p).val
              <= Weight(Energy(prior).data, Where(peaks), Abs(psi1), p).val
  {
    var e := Energy(prior).data;
    NoiseMonotone(e, Where(peaks), Abs(psi1), Abs(psi2), p);
  }
}
