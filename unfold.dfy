/** The UNFOLD reconstruction of ktblast/unfold.py: move the time axis
    last, go to x-f space, keep only a central spatial support window
    (with temporal planes 0 and st/2 as fixed exceptions), come back along
    time, and restore the axis order. The temporal spectrum is centred
    (fftshifted), so plane st/2 holds frequency zero and plane 0 the most
    negative frequency, the Nyquist frequency when st is even. The
    transforms themselves are parameters of the model. */
module Unfold {
  import opened Results
  import opened Numbers
  import opened NdArray
  import opened ModArith

  /** Python's normalisation of a slice bound, for a positive step, on an
      axis of length `n`. */
  function SliceBound(b: int, n: nat): (r: nat)
    ensures r <= n
    ensures 0 <= b <= n ==> r == b
    ensures -(n as int) <= b < 0 ==> r == b + n
  {
    if b < 0 then (if b + n < 0 then 0 else b + n)
    else if b > n then n
    else b
  }

  /** `i` is selected by the slice `[start:stop]` of an axis of length `n`. */
  predicate InSlice(start: int, stop: int, n: nat, i: int) {
    SliceBound(start, n) <= i < SliceBound(stop, n)
  }

  /** The support mask at (x, y) after `mask[sx4:-sx4, sy4:-sy4] = True`,
      with sx4 = int(sx/4) and sy4 = int(sy/4). */
  predicate InSupport(sx: nat, sy: nat, x: int, y: int): (b: bool)
    ensures b ==> 0 <= x < sx && 0 <= y < sy
  {
    InSlice(sx / 4, -(sx / 4), sx, x) && InSlice(sy / 4, -(sy / 4), sy, y)
  }

  /** The mask is the centred window [sx4, sx-sx4) x [sy4, sy-sy4), except
      that a zero quarter makes the slice `0:-0`, which is empty. */
  lemma SupportWindow(sx: nat, sy: nat, x: int, y: int)
    ensures InSupport(sx, sy, x, y) <==>
              sx / 4 > 0 && sy / 4 > 0 &&
              sx / 4 <= x < sx - sx / 4 && sy / 4 <= y < sy - sy / 4
  {
    assert SliceBound(sx / 4, sx) == sx / 4;
    assert SliceBound(sy / 4, sy) == sy / 4;
    assert SliceBound(-(sx / 4), sx) == if sx / 4 == 0 then 0 else sx - sx / 4;
    assert SliceBound(-(sy / 4), sy) == if sy / 4 == 0 then 0 else sy - sy / 4;
  }

  /** An axis shorter than 4 leaves the whole mask false. */
  lemma SmallAxisEmptySupport(sx: nat, sy: nat, x: int, y: int)
    requires sx < 4 || sy < 4
    ensures !InSupport(sx, sy, x, y)
  {
    SupportWindow(sx, sy, x, y);
  }

  /** Lines 50-51: a false (sx, sy) mask with the slice window set true. */
  method SupportMask(sx: nat, sy: nat) returns (mask: array2<bool>)
    ensures fresh(mask)
    ensures mask.Length0 == sx && mask.Length1 == sy
    ensures forall x, y :: 0 <= x < sx && 0 <= y < sy ==> mask[x, y] == InSupport(sx, sy, x, y)
  {
    mask := new bool[sx, sy]((_, _) => false);
    var x0, x1 := SliceBound(sx / 4, sx), SliceBound(-(sx / 4), sx);
    var y0, y1 := SliceBound(sy / 4, sy), SliceBound(-(sy / 4), sy);
    var x := x0;
    while x < x1
      invariant x0 <= x && (x <= x1 || x == x0)
      invariant forall i, j :: 0 <= i < sx && 0 <= j < sy ==>
                  mask[i, j] == (x0 <= i < x && y0 <= j < y1)
    {
      var y := y0;
      while y < y1
        invariant y0 <= y && (y <= y1 || y == y0)
        invariant forall i, j :: 0 <= i < sx && 0 <= j < sy ==>
                    mask[i, j] == ((x0 <= i < x && y0 <= j < y1) || (i == x && y0 <= j < y))
      {
        mask[x, y] := true;
        y := y + 1;
      }
      x := x + 1;
    }
  }

  /** The entry at flat position `p` of a time-last x-f array after
      masking, zeroing plane 0, and restoring plane st/2, in that order. */
  function UnfoldedAt(xfU: Array3<Complex>, p: int): (z: Complex)
    requires xfU.Valid() && 0 <= p < |xfU.data|
    ensures z == xfU.data[p] || z == Zero
  {
    var idx := Unravel(xfU.dims, p);
    if idx[2] == xfU.dims[2] / 2 then xfU.data[p]
    else if idx[2] == 0 then Zero
    else if InSupport(xfU.dims[0], xfU.dims[1], idx[0], idx[1]) then xfU.data[p]
    else Zero
  }

  function UnfoldSpectrum(xfU: Array3<Complex>): (xf: Array3<Complex>)
    requires xfU.Valid()
    ensures xf.Valid() && xf.dims == xfU.dims
  {
    Array3(xfU.dims, seq(|xfU.data|, p requires 0 <= p < |xfU.data| => UnfoldedAt(xfU, p)))
  }

  /** The entry of a three-axis array at (x, y, t). */
  function At<T>(a: Array3<T>, x: int, y: int, t: int): T
    requires a.Valid() && InBounds(a.dims, [x, y, t])
  {
    a.data[Offset(a.dims, [x, y, t])]
  }

  /** Inside the support window, every temporal plane but plane 0 keeps
      its unmasked value. */
  lemma SpectrumInsideSupport(xfU: Array3<Complex>, x: int, y: int, t: int)
    requires xfU.Valid() && InBounds(xfU.dims, [x, y, t])
    requires InSupport(xfU.dims[0], xfU.dims[1], x, y) && t != 0
    ensures At(UnfoldSpectrum(xfU), x, y, t) == At(xfU, x, y, t)
  {
    UnravelOffset(xfU.dims, [x, y, t]);
  }

  /** Outside the support window, every entry is zero except on plane st/2. */
  lemma SpectrumOutsideSupport(xfU: Array3<Complex>, x: int, y: int, t: int)
    requires xfU.Valid() && InBounds(xfU.dims, [x, y, t])
    requires !InSupport(xfU.dims[0], xfU.dims[1], x, y) && t != xfU.dims[2] / 2
    ensures At(UnfoldSpectrum(xfU), x, y, t) == Zero
  {
    UnravelOffset(xfU.dims, [x, y, t]);
  }

  /** With at least two time frames, plane 0 (the most negative temporal
      frequency) is all zero. */
  lemma SpectrumFirstPlaneCleared(xfU: Array3<Complex>, x: int, y: int)
    requires xfU.Valid() && InBounds(xfU.dims, [x, y, 0]) && xfU.dims[2] >= 2
    ensures At(UnfoldSpectrum(xfU), x, y, 0) == Zero
  {
    UnravelOffset(xfU.dims, [x, y, 0]);
  }

  /** Plane st/2 (temporal frequency zero) is the unmasked plane, whatever
      the mask: the restore runs after the zeroing, so it wins even when
      st/2 is 0. */
  lemma SpectrumCentrePlaneRestored(xfU: Array3<Complex>, x: int, y: int)
    requires xfU.Valid() && InBounds(xfU.dims, [x, y, xfU.dims[2] / 2])
    ensures At(UnfoldSpectrum(xfU), x, y, xfU.dims[2] / 2) == At(xfU, x, y, xfU.dims[2] / 2)
  {
    UnravelOffset(xfU.dims, [x, y, xfU.dims[2] / 2]);
  }

  /** `xf[..., t] = src[..., t]` on a flat time-last array with `st` time
      frames: plane `t` is overwritten in place, every other entry is left
      as it was. */
  method AssignPlane(xf: array<Complex>, st: nat, t: nat, src: seq<Complex>)
    requires t < st && |src| == xf.Length
    modifies xf
    ensures forall p :: 0 <= p < xf.Length ==> xf[p] == if p % st == t then src[p] else old(xf[p])
  {
    var p := 0;
    while p < xf.Length
      invariant 0 <= p <= xf.Length
      invariant forall q :: 0 <= q < p ==> xf[q] == if q % st == t then src[q] else old(xf[q])
      invariant forall q :: p <= q < xf.Length ==> xf[q] == old(xf[q])
    {
      if p % st == t {
        xf[p] := src[p];
      }
      p := p + 1;
    }
  }

  /** Lines 50-60 on a time-last x-f array `xfU`: the masked product, then
      `xf[..., 0] = 0` and `xf[..., st2] = xf_u[..., st2]`. Indexing plane 0
      of an empty time axis raises IndexError. */
  method MaskSpectrum(xfU: Array3<Complex>) returns (result: Result<Array3<Complex>>)
    requires xfU.Valid()
    ensures result.Err? <==> xfU.dims[2] == 0
    ensures result.Err? ==> result.error == IndexError
    ensures result.Ok? ==> result.value == UnfoldSpectrum(xfU)
  {
    var sx, sy, st := xfU.dims[0], xfU.dims[1], xfU.dims[2];
    var st2 := st / 2;
    var mask := SupportMask(sx, sy);
    if st == 0 {
      return Err(IndexError);
    }
    var n := |xfU.data|;
    var xf := new Complex[n](p requires 0 <= p < n reads mask =>
      var idx := Unravel(xfU.dims, p);
      if mask[idx[0], idx[1]] then xfU.data[p] else Zero);
    // xf[..., 0] = 0
    AssignPlane(xf, st, 0, seq(n, _ => Zero));
    // xf[..., st2] = xf_u[..., st2]
    AssignPlane(xf, st, st2, xfU.data);
    forall p | 0 <= p < n
      ensures xf[p] == UnfoldedAt(xfU, p)
    {
      var idx := Unravel(xfU.dims, p);
      assert idx[2] == p % st;
    }
    result := Ok(Array3(xfU.dims, xf[..]));
  }

  /** The keywords kt2xf accepts next to a positional `kt`
      (utils/kt2xf.py:5); `kt=` would clash with the positional argument. */
  const Kt2xfKeywords: set<string> := {"coil_axis"}

  /** Binding one keyword argument of a call `kt2xf(kt, name=...)` with `kt`
      passed positionally: a name outside the accepted keywords raises a
      TypeError before the transform runs. */
  function BindKt2xfKeyword(name: string): (r: Result<string>)
    ensures r.Ok? <==> name in Kt2xfKeywords
    ensures r.Err? ==> r.error == UnexpectedKeyword(name)
  {
    if name in Kt2xfKeywords then Ok(name) else Err(UnexpectedKeyword(name))
  }

  /** Line 46 as written passes `shift=True`, so a call of unfold with a
      valid time axis stops there with a TypeError. */
  lemma ShiftKeywordRejected()
    ensures BindKt2xfKeyword("shift") == Err(UnexpectedKeyword("shift"))
  {
  }

  /** unfold(kspace, time_axis) as evidently intended: `toXf` stands for
      the shifted x-f transform that line 46 asks kt2xf for, and
      `inverseTime` for the temporal inverse transform of line 64; both
      keep the shape of their argument. Like NumPy's FFTs, the x-f
      transform rejects an array with an axis of length zero. */
  method Unfold(kspace: Array3<Complex>, timeAxis: int,
                toXf: Array3<Complex> -> Array3<Complex>,
                inverseTime: Array3<Complex> -> Array3<Complex>)
    returns (result: Result<Array3<Complex>>)
    requires kspace.Valid()
    requires forall a: Array3<Complex> {:trigger toXf(a)} :: a.Valid() ==> toXf(a).Valid() && toXf(a).dims == a.dims
    requires forall a: Array3<Complex> {:trigger inverseTime(a)} :: a.Valid() ==> inverseTime(a).Valid() && inverseTime(a).dims == a.dims
    ensures NormalizeAxis(timeAxis).None? ==> result == Err(AxisError)
    ensures result.Ok? <==> NormalizeAxis(timeAxis).Some? && NonemptyAxes(kspace.dims)
    ensures result.Err? && NormalizeAxis(timeAxis).Some? ==> result.error == EmptyFftAxis
    ensures result.Ok? ==> result.value.Valid() && result.value.dims == kspace.dims
    ensures result.Ok? ==>
              var ax := NormalizeAxis(timeAxis).value;
              MoveAxisToLast(result.value, ax)
                == inverseTime(UnfoldSpectrum(toXf(MoveAxisToLast(kspace, ax))))
  {
    var axis := NormalizeAxis(timeAxis);
    if axis.None? {
      return Err(AxisError);
    }
    var ax := axis.value;
    // the FFTs of line 46 reject an axis of length zero
    if !NonemptyAxes(kspace.dims) {
      return Err(EmptyFftAxis);
    }
    var k := MoveAxisToLast(kspace, ax);
    var xfU := toXf(k);
    var xf := MaskSpectrum(xfU);
    var xt := inverseTime(xf.value);
    MoveAxisRoundTrip(xt, ax);
    result := Ok(MoveAxisFromLast(xt, ax));
  }
}
