/** The earlier k-t BLAST variant of ktblast/malik_ktblast.py (ktBLAST,
    lines 6-35). It builds the same filter as KtBlast but takes its roll
    offsets from three flattened shift lists without checking how many
    there are, uses the noise term as given, takes the denominator's dtype
    from it, and returns the reconstruction together with the filter. The
    PSF and its shift extraction (lines 10-14) are outside the model: the
    caller supplies the flattened shift lists. */
module MalikKtBlast {
  import opened Results
  import opened Numbers
  import opened NdArray
  import opened WienerFilter

  /** The noise argument as it reaches line 18: a NumPy scalar or 0-d array
      (what np.cov returns), or a plain Python float such as the default. */
  datatype Noise = PyFloat(v: real) | NpScalar(v: real)

  datatype Dtype = Float64

  /** The default `psi=0.01` of the signature. */
  const DefaultPsi: real := 0.01

  /** `psi.dtype`, read to allocate the denominator: only NumPy values
      carry a dtype. */
  function NoiseDtype(psi: Noise): (d: Result<Dtype>)
    ensures d.Err? <==> psi.PyFloat?
    ensures d.Err? ==> d.error == MissingDtype
  {
    match psi
    case NpScalar(_) => Ok(Float64)
    case PyFloat(_) => Err(MissingDtype)
  }

  /** The default noise argument fails at line 18: a call that leaves
      `psi` at its default never reaches the filter. */
  lemma DefaultNoiseHasNoDtype()
    ensures NoiseDtype(PyFloat(DefaultPsi)) == Err(MissingDtype)
  {
  }

  /** `xShift.flatten()[ii]` and its siblings exist for every `ii` in
      `range(R)`. */
  predicate ShiftsAvailable(xShift: seq<int>, yShift: seq<int>, fShift: seq<int>, r: int) {
    r <= |xShift| && r <= |yShift| && r <= |fShift|
  }

  /** The roll offset of iteration `ii`: the triple of the three shift
      lists at `ii`, for `ii` in `range(R)`. */
  function Offsets(xShift: seq<int>, yShift: seq<int>, fShift: seq<int>, r: int): (o: seq<seq<int>>)
    requires ShiftsAvailable(xShift, yShift, fShift, r)
    ensures |o| == if r < 0 then 0 else r
    ensures forall ii :: 0 <= ii < |o| ==> o[ii] == [xShift[ii], yShift[ii], fShift[ii]]
  {
    seq(if r < 0 then 0 else r, ii requires 0 <= ii < r => [xShift[ii], yShift[ii], fShift[ii]])
  }

  /** `recon *= R` on one sample. */
  function Rescaled(x: Fp<Complex>, r: int): (y: Fp<Complex>)
    ensures y.Finite? <==> x.Finite?
    ensures x.Finite? ==> Norm2(y.val) == (r as real) * (r as real) * Norm2(x.val)
  {
    match x
    case Finite(z) => NormOfScale(z, r as real); Finite(Scale(z, r as real))
    case NonFinite => NonFinite
  }

  /** `recon *= R`: every sample of the reconstruction scaled in place. */
  method RescaleInPlace(recon: array<Fp<Complex>>, r: int)
    modifies recon
    ensures forall p :: 0 <= p < recon.Length ==> recon[p] == Rescaled(old(recon[p]), r)
  {
    var p := 0;
    while p < recon.Length
      invariant 0 <= p <= recon.Length
      invariant forall q :: 0 <= q < p ==> recon[q] == Rescaled(old(recon[q]), r)
      invariant forall q :: p <= q < recon.Length ==> recon[q] == old(recon[q])
    {
      recon[p] := Rescaled(recon[p], r);
      p := p + 1;
    }
  }

  /** ktBLAST(xf_data, training_data, kt_grid, R, psi), with the PSF's
      flattened shift lists given directly. Returns (recon, filter). */
  method KtBlast(xfData: Array3<Complex>, trainingData: Array3<Complex>,
                 xShift: seq<int>, yShift: seq<int>, fShift: seq<int>, r: int, psi: Noise)
    returns (result: Result<(Array3<Fp<Complex>>, Array3<Fp<real>>)>)
    requires xfData.Valid() && trainingData.Valid() && xfData.dims == trainingData.dims
    ensures psi.PyFloat? ==> result == Err(MissingDtype)
    ensures psi.NpScalar? && !ShiftsAvailable(xShift, yShift, fShift, r) ==> result == Err(IndexError)
    ensures result.Ok? <==> psi.NpScalar? && ShiftsAvailable(xShift, yShift, fShift, r)
    ensures result.Ok? ==>
              var (recon, filter) := result.value;
              recon.Valid() && filter.Valid() && recon.dims == filter.dims == xfData.dims &&
              forall p :: 0 <= p < |xfData.data| ==>
                filter.data[p] == Weight(Energy(trainingData).data, Offsets(xShift, yShift, fShift, r), psi.v, p) &&
                recon.data[p] == Applied(xfData.data[p], filter.data[p], r)
  {
    var dtype := NoiseDtype(psi);
    if dtype.Err? {
      return Err(dtype.error);
    }
    if !ShiftsAvailable(xShift, yShift, fShift, r) {
      return Err(IndexError);
    }
    var offsets := Offsets(xShift, yShift, fShift, r);
    var e := Energy(trainingData);
    var filter := Filter(e, offsets, psi.v);
    var out := FilteredRecon(xfData, filter, r);
    result := Ok((out, filter));
  }

  /** Lines 30-33: `recon = xf_data*xf_filter` into a fresh buffer, then
      `recon *= R` on that buffer. */
  method FilteredRecon(xfData: Array3<Complex>, filter: Array3<Fp<real>>, r: int)
    returns (out: Array3<Fp<Complex>>)
    requires xfData.Valid() && filter.Valid() && xfData.dims == filter.dims
    ensures out.Valid() && out.dims == xfData.dims
    ensures forall p :: 0 <= p < |out.data| ==> out.data[p] == Applied(xfData.data[p], filter.data[p], r)
  {
    var recon := new Fp<Complex>[|xfData.data|](p requires 0 <= p < |xfData.data| reads {} =>
      match filter.data[p]
      case Finite(w) => Finite(Scale(xfData.data[p], w))
      case NonFinite => NonFinite);
    RescaleInPlace(recon, r);
    out := Array3(xfData.dims, recon[..]);
  }

  /** The evidently intended behaviour: a plain float noise term (the
      default among them) is used as a float64 scalar, so the only failure
      left is a shift list shorter than R. */
  method KtBlastFloatNoise(xfData: Array3<Complex>, trainingData: Array3<Complex>,
                           xShift: seq<int>, yShift: seq<int>, fShift: seq<int>, r: int, psi: Noise)
    returns (result: Result<(Array3<Fp<Complex>>, Array3<Fp<real>>)>)
    requires xfData.Valid() && trainingData.Valid() && xfData.dims == trainingData.dims
    ensures result.Ok? <==> ShiftsAvailable(xShift, yShift, fShift, r)
    ensures result.Err? ==> result.error == IndexError
    ensures result.Ok? ==>
              var (recon, filter) := result.value;
              recon.Valid() && filter.Valid() && recon.dims == filter.dims == xfData.dims &&
              forall p :: 0 <= p < |xfData.data| ==>
                filter.data[p] == Weight(Energy(trainingData).data, Offsets(xShift, yShift, fShift, r), psi.v, p) &&
                recon.data[p] == Applied(xfData.data[p], filter.data[p], r)
  {
    result := KtBlast(xfData, trainingData, xShift, yShift, fShift, r, NpScalar(psi.v));
  }
}
