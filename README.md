# k-t BLAST and UNFOLD reconstruction, modelled in Dafny

This project models the reconstruction core of the `ktblast` Python package. That core recovers dynamic MRI
series from data undersampled in k-t space:

- **k-t BLAST** (`ktblast/ktblast.py`). The routine does four things:
  - It moves the time axis last and checks that the point-spread function (PSF) of the sampling grid has
    exactly R peaks above threshold.
  - It builds a Wiener-type filter `|prior|^2 / (sum over peaks of the rolled |prior|^2 + |psi|)`.
  - It multiplies the aliased x-f data by the filter and by R.
  - It moves the time axis back.
- **The earlier k-t BLAST variant** (`ktblast/malik_ktblast.py`, `ktBLAST`). It builds the same filter from three
  flattened shift lists, uses the noise term as given and takes the denominator's dtype from it. It rescales
  the reconstruction in place and returns it together with the filter.
- **UNFOLD** (`ktblast/unfold.py`). It moves time last and transforms to x-f space. It keeps a central spatial
  support window, zeroes temporal plane 0 and restores plane `st // 2` from the unmasked spectrum. The temporal
  spectrum is centred, so plane `st // 2` is frequency zero and plane 0 is the most negative frequency (the
  Nyquist frequency when st is even). Then it transforms back along time and restores the axis order.
- **The sampling-tile generator** (`utils/kt_undersample_2d.py`). It returns an R x R boolean tile whose frame t
  samples the single ky row `(dkydt * t) mod R`.

Shared building blocks:

- NumPy arrays of rank 3 are `NdArray.Array3`, with a shape and a flat C-order data sequence. Offsets and
  unravelling, axis permutation (`np.moveaxis`), `np.roll` without an axis and `np.where` are defined on it.
  `np.roll` without an axis flattens the array and rolls it by the sum of the shift tuple, so a roll by
  `(a, b, c)` moves flat position `p` to `p + a + b + c` modulo the size. The model follows that behaviour,
  not an axis-wise roll.
- Complex samples are `Numbers.Complex`. A division result is `Finite(v)` or `NonFinite`, the NaN or infinity
  NumPy produces when the filter denominator is zero.
- Every exception the code raises is a `Results.Error`: a bad `time_axis`, the failing `assert`, an index past
  an axis or list, `psi.dtype` on a Python float, negative array dimensions, an undeclared keyword argument, or
  an FFT over an axis of length zero.

The Fourier transforms are function parameters (`Unfold.Unfold`) or their results are inputs:

- `KtBlast.KtBlast` takes the above-threshold mask of the PSF.
- `MalikKtBlast.KtBlast` takes the flattened shift lists.

## Model

| member | source | states |
|---|---|---|
| NdArray.Offset | ktblast/ktblast.py:28 | The C-order flat offset of an in-bounds (x, y, t) index lies inside the array. |
| NdArray.Unravel | ktblast/ktblast.py:38 | Unravelling a flat position gives an in-bounds index whose offset is that position. |
| NdArray.UnravelOffset | ktblast/ktblast.py:38 | Unravelling an index's offset gives the index back, so offsets and indices correspond one to one. |
| NdArray.OffsetInjective | ktblast/ktblast.py:38 | Distinct in-bounds indices have distinct flat offsets. |
| NdArray.InverseOrder | ktblast/ktblast.py:24 | The inverse of an axis permutation undoes it on both sides. |
| NdArray.Transpose | ktblast/ktblast.py:24 | A permuted array has the permuted shape and holds at each index the source element at the permuted-back index. |
| NdArray.TransposeInverse | ktblast/ktblast.py:24 | Transposing by an order and then by its inverse gives the array back. |
| NdArray.NormalizeAxis | ktblast/ktblast.py:24 | An axis is accepted exactly when -3 <= axis < 3; a negative axis counts from the end. |
| NdArray.FromLastOrder | ktblast/ktblast.py:53 | Moving the last axis back to `time_axis` is the inverse permutation of moving `time_axis` last. |
| NdArray.ToLastOrder | ktblast/ktblast.py:24-25 | The order np.moveaxis(a, time_axis, -1) transposes by is an axis permutation with `time_axis` last and the other two axes in their original order. |
| NdArray.MoveAxisToLast | ktblast/ktblast.py:24-25 | `np.moveaxis(a, time_axis, -1)` gives a valid array whose last axis has the length of axis `time_axis` and whose first two axes are the others, in order. |
| NdArray.MoveAxisFromLast | ktblast/ktblast.py:53 | `np.moveaxis(a, -1, time_axis)` gives a valid array whose axis `time_axis` has the length of the last axis, with the first two axes around it in order. |
| NdArray.MoveAxisRoundTrip | ktblast/ktblast.py:24-53 | `moveaxis(moveaxis(a, t, -1), -1, t) == a`, and the reverse order of the two moves also gives `a`. |
| NdArray.Sum | ktblast/ktblast.py:45-46 | The total shift of a one-, two- or three-element shift tuple is the sum of its entries, as the flat roll uses it. |
| NdArray.Roll | ktblast/ktblast.py:45-46 | The rolled sequence holds at position p the element at (p - shift) mod N; its length is unchanged. |
| NdArray.NpRoll | ktblast/ktblast.py:45-46 | `np.roll(a, shifts)` keeps the shape and moves every flat element by the sum of the shift tuple. |
| NdArray.Nonzero | ktblast/ktblast.py:38 | The strictly increasing list of exactly the true positions. |
| NdArray.Where | ktblast/ktblast.py:38-39 | `np.where(mask)` gives one in-bounds index per true entry, in flat order, each at that entry's offset. |
| Numbers.Divide | ktblast/ktblast.py:50 | A quotient is finite exactly when the denominator is nonzero, and then it times the denominator is the numerator. |
| Numbers.NormOfScale | ktblast/ktblast.py:53 | Scaling a complex sample by w multiplies its squared magnitude by w^2. |
| WienerFilter.Energy | ktblast/ktblast.py:42 | `abs(prior)**2` keeps the shape and is the nonnegative squared magnitude at every voxel. |
| WienerFilter.Plus | ktblast/ktblast.py:45 | `+=` of two arrays of one shape adds them voxel by voxel. |
| WienerFilter.Denominator | ktblast/ktblast.py:43-47 | The loop's denominator at every voxel is the energy folded there by each alias offset plus psi. |
| WienerFilter.Weight | ktblast/ktblast.py:47-50 | A filter value is finite exactly when folded energy + psi is nonzero, and then it times that denominator is the voxel's energy. |
| WienerFilter.Filter | ktblast/ktblast.py:43-50 | The filter array has the energy's shape and holds the filter value at every voxel. |
| WienerFilter.Quotient | ktblast/ktblast.py:50 | The filter is the energy over the denominator at each voxel, non-finite where the denominator is 0. |
| WienerFilter.Reconstruct | ktblast/ktblast.py:53 | The output is the aliased sample times the filter times R at each voxel; a non-finite filter gives a non-finite output. |
| WienerFilter.Applied | ktblast/ktblast.py:53 | One output sample is finite exactly when its filter value is, and a zero filter value gives a zero sample. |
| WienerFilter.AliasedEnergy | ktblast/ktblast.py:44-46 | The energy the R rolls fold onto a voxel is nonnegative whenever the energy is. |
| WienerFilter.AliasedEnergyCovers | ktblast/ktblast.py:44-46 | Each offset's rolled energy is part of the folded energy. |
| WienerFilter.PositiveNoiseFilter | ktblast/ktblast.py:47-50 | With psi > 0 the denominator is positive and the filter is finite and nonnegative. |
| WienerFilter.NoiseMonotone | ktblast/ktblast.py:47-50 | A larger noise term never raises a filter value. |
| WienerFilter.OriginPeakBound | ktblast/ktblast.py:44-50 | When one offset rolls by a multiple of the size, the filter is non-finite exactly where the denominator is 0 and otherwise lies in [0, 1]. |
| WienerFilter.ZeroEnergyGivesZero | ktblast/ktblast.py:50-53 | A voxel with no prior energy and a nonzero denominator reconstructs to zero. |
| WienerFilter.OutputBound | ktblast/ktblast.py:53 | A filter value in [0, 1] bounds the output's squared magnitude by R^2 times the aliased sample's. |
| KtBlast.FilterStage | ktblast/ktblast.py:42-53 | On the time-last layout, each output voxel is the aliased sample times energy / (folded energy + noise), times R. |
| KtBlast.OutputAt | ktblast/ktblast.py:44-53 | An output sample on the time-last layout is non-finite exactly where folded energy + abs(psi) is 0. |
| KtBlast.KtBlast | ktblast/ktblast.py:7-53 | A bad time axis raises AxisError. A sampling grid with an axis of length zero makes the FFTs of line 34 raise a ValueError. A PSF with other than R peaks fails the assert. Otherwise the result has the input's shape, and on the time-last layout every voxel is the aliased sample times the filter with noise abs(psi), times R. |
| KtBlast.NonzeroNoiseFinite | ktblast/ktblast.py:31-50 | With any nonzero psi, negative included, every filter value is finite and nonnegative, and every output sample is finite. |
| KtBlast.OriginOffset | ktblast/ktblast.py:38 | A PSF peak at the origin yields the zero offset (0, 0, 0) among the `np.where` indices. |
| KtBlast.OriginPeakWeight | ktblast/ktblast.py:38-50 | With a PSF peak at the origin, every finite filter value lies in [0, 1]. |
| KtBlast.OriginPeakOutputBound | ktblast/ktblast.py:38-53 | With a PSF peak at the origin, every finite output sample has at most R^2 times the aliased sample's squared magnitude. |
| KtBlast.ZeroPriorZeroOutput | ktblast/ktblast.py:31-53 | With nonzero psi, a voxel whose prior is zero reconstructs to zero. |
| KtBlast.FilterNoiseMonotone | ktblast/ktblast.py:31-50 | A larger abs(psi) never raises the filter value at any voxel. |
| MalikKtBlast.NoiseDtype | ktblast/malik_ktblast.py:18 | `psi.dtype` fails exactly when psi is a plain Python float. |
| MalikKtBlast.DefaultNoiseHasNoDtype | ktblast/malik_ktblast.py:6-18 | The default `psi=0.01` has no dtype, so line 18 fails on it. |
| MalikKtBlast.Offsets | ktblast/malik_ktblast.py:19-23 | Iteration ii rolls by the triple (xShift[ii], yShift[ii], fShift[ii]), for each ii in `range(R)`. |
| MalikKtBlast.Rescaled | ktblast/malik_ktblast.py:33 | Scaling one sample by R keeps it finite or non-finite, and multiplies a finite sample's squared magnitude by R^2. |
| MalikKtBlast.RescaleInPlace | ktblast/malik_ktblast.py:33 | `recon *= R` scales every sample of the array in place. |
| MalikKtBlast.FilteredRecon | ktblast/malik_ktblast.py:30-33 | The product with the filter, rescaled by R in its buffer, is data times filter times R at every voxel. |
| MalikKtBlast.KtBlast | ktblast/malik_ktblast.py:6-35 | A Python-float psi fails at `psi.dtype`, and a shift list shorter than R raises IndexError. Otherwise the function returns the filter and the reconstruction, each of the input's shape: at each voxel the filter is energy / (rolled energy + psi) and recon is data times filter times R. |
| MalikKtBlast.KtBlastFloatNoise | ktblast/malik_ktblast.py:6-35 | With the noise term taken as a float64 scalar, the only failure left is a short shift list, and the results are as above. |
| Unfold.SliceBound | ktblast/unfold.py:51 | Python's slice bound normalisation: an in-range bound is kept and a negative one counts from the end. |
| Unfold.InSupport | ktblast/unfold.py:50-51 | A point of the support mask lies inside the (sx, sy) plane. |
| Unfold.SupportWindow | ktblast/unfold.py:38-51 | The mask is the centred window [sx//4, sx - sx//4) x [sy//4, sy - sy//4). It is empty when either quarter is 0, because the slice `0:-0` selects nothing. |
| Unfold.SmallAxisEmptySupport | ktblast/unfold.py:38-51 | An axis shorter than 4 leaves the whole mask false. |
| Unfold.SupportMask | ktblast/unfold.py:50-51 | The mask built by the two lines has shape (sx, sy) and is true exactly inside the support. |
| Unfold.UnfoldedAt | ktblast/unfold.py:50-60 | Every sample of the masked and adjusted spectrum is either xf_u's sample at that position or zero. |
| Unfold.UnfoldSpectrum | ktblast/unfold.py:52-60 | The masked spectrum keeps the shape of xf_u. |
| Unfold.SpectrumInsideSupport | ktblast/unfold.py:52-60 | Inside the support, every plane except plane 0 keeps its x-f value. |
| Unfold.SpectrumOutsideSupport | ktblast/unfold.py:52-60 | Outside the support, every plane except plane st//2 (frequency zero) is zero. |
| Unfold.SpectrumFirstPlaneCleared | ktblast/unfold.py:59 | With st >= 2, plane 0 (the most negative frequency) is zero everywhere. |
| Unfold.SpectrumCentrePlaneRestored | ktblast/unfold.py:60 | Plane st//2 (frequency zero) equals xf_u's plane everywhere, mask or not (it is plane 0 itself when st = 1). |
| Unfold.AssignPlane | ktblast/unfold.py:59-60 | Assigning one temporal plane changes exactly the flat positions on that plane. |
| Unfold.MaskSpectrum | ktblast/unfold.py:50-60 | An empty time axis raises IndexError; otherwise the masked and adjusted spectrum is the one UnfoldSpectrum defines. |
| Unfold.BindKt2xfKeyword | ktblast/unfold.py:46 | With kt passed positionally, a keyword argument binds to kt2xf exactly when it is `coil_axis`; any other name raises a TypeError. |
| Unfold.ShiftKeywordRejected | ktblast/unfold.py:46 | The `shift` keyword passed at line 46 is rejected. |
| Unfold.Unfold | ktblast/unfold.py:7-65 | A bad time axis raises AxisError. An axis of length zero makes the FFTs of line 46 raise a ValueError. Otherwise the result has kspace's shape, and on the time-last layout it is the inverse temporal transform of the masked spectrum of the x-f transform. |
| KtUndersample2d.RolledUnit | utils/kt_undersample_2d.py:34 | Rolling the column with only row 0 set by s puts its single true entry at row s mod R. |
| KtUndersample2d.Sampled | utils/kt_undersample_2d.py:34 | A row sampled in frame t is a row of the R x R tile. |
| KtUndersample2d.SetFirstRow | utils/kt_undersample_2d.py:30 | `kt_pat[0, :] = True` sets every entry of row 0 and leaves the other rows as they were. |
| KtUndersample2d.RolledFirstColumn | utils/kt_undersample_2d.py:34 | While column 0 holds its single sample at row 0, rolling it by `(dkydt*t, 0)` gives the column sampled only at row (dkydt * t) mod R. |
| KtUndersample2d.SetColumn | utils/kt_undersample_2d.py:34 | `kt_pat[:, t] = column` replaces column t and leaves the other columns as they were. |
| KtUndersample2d.ShearColumns | utils/kt_undersample_2d.py:33-34 | Starting from the tile with only row 0 set, the loop leaves entry (k, t) true exactly when k = (dkydt * t) mod R. |
| KtUndersample2d.FirstFrame | utils/kt_undersample_2d.py:30-34 | Frame 0 samples row 0 alone. |
| KtUndersample2d.KtUndersample2d | utils/kt_undersample_2d.py:5-36 | A negative R raises the np.zeros error and R = 0 raises IndexError at `kt_pat[0, :]`. Otherwise the tile is R x R and entry (k, t) is true exactly when k = (dkydt * t) mod R. |
| KtUndersample2d.ColumnSingleSample | utils/kt_undersample_2d.py:30-34 | Every frame samples exactly one ky row. |
| KtUndersample2d.TileHasRSamples | utils/kt_undersample_2d.py:27-34 | The tile holds exactly one sample per frame, R in all. |
| KtUndersample2d.CoprimeRowFrame | utils/kt_undersample_2d.py:33-34 | When gcd(dkydt, R) = 1, row k is sampled exactly in frame (u * k) mod R, where u is the inverse of dkydt modulo R. |
| KtUndersample2d.CoprimeRowSingleSample | utils/kt_undersample_2d.py:33-34 | When gcd(dkydt, R) = 1, every ky row is sampled in exactly one frame. |

## Left out

- The Fourier transforms are outside the model:
  - the PSF computation (`kt2xf(kt_grid)` in ktblast.py, and lines 10-12 of malik_ktblast.py);
  - unfold's x-f transform and temporal inverse transform.
  They need floating-point FFTs. `Unfold.Unfold` takes them as shape-preserving function parameters, and the
  k-t BLAST entry points take the PSF's outcome as input.
- KtBlast.KtBlast: the input is the boolean mask `PSF > 1e-5`. The threshold comparison on complex PSF values is
  not modelled.
- MalikKtBlast.KtBlast: the input is the flattened shift lists. How `np.unravel_index(np.argwhere(...))` at lines
  13-14 derives them is not modelled, and neither is the ValueError the FFTs of lines 10-12 raise for a
  `kt_grid` with an axis of length zero.
- KtBlast.KtBlast: psi is a real. `np.abs` of a complex psi would need a square root.
- MalikKtBlast.KtBlast: psi is a real. The model's only dtype is float64. A complex psi, or an integer NumPy
  scalar whose dtype cannot hold the float energies, is not modelled.
- Arithmetic is on exact reals. Floating-point rounding is not modelled, except that a zero denominator gives
  a non-finite result.
- KtBlast.KtBlast and MalikKtBlast.KtBlast require the aliased and prior arrays to have one shape. NumPy
  broadcasting between different shapes is not modelled.
- The model covers rank-3 arrays only. `xf_prior` (ktblast.py:28), `xf_data` (malik_ktblast.py:8) and `kspace`
  (unfold.py:37) are unpacked with `cx, cy, ct = ...shape`, so another rank raises a ValueError there. That error
  is not modelled.
- KtBlast.KtBlast: `kt_grid` is never unpacked. The PSF mask is any rank-3 boolean array, of the grid's shape;
  only its true positions, and the sum of each index triple, are used. With a rank-2
  grid `idx[2]` raises IndexError at ktblast.py:46, and with a rank-4 grid the roll silently ignores the fourth
  coordinate. Neither case is modelled.
- KtBlast.KtBlast and MalikKtBlast.KtBlast: `xf_aliased` and `training_data` are not unpacked. The model gives
  them the shape of the unpacked array; other ranks are not modelled.
- Unfold.Unfold: any axis of length zero is the ValueError NumPy's FFTs raise at line 46. The model therefore
  never reaches `MaskSpectrum`'s IndexError for `st = 0`, which is modelled for `MaskSpectrum` on its own.
- utils/kt2xf.py's transform is not part of this model. Only its keyword signature (line 5) is used, for the
  unfold finding.
- The demonstration blocks under `if __name__ == '__main__'`, the examples/ scripts, setup.py and the plotting
  calls are outside the reconstruction core.
- `np.cov` (the noise estimate in the demonstration code) is outside the core.

## Findings

| source | as written | input that shows it | evidently intended | confidence | as-written member | corrected member |
|---|---|---|---|---|---|---|
| ktblast/malik_ktblast.py:6-18 | The default `psi=0.01` is a Python float, and line 18 reads `psi.dtype`, which a float does not have. | `ktBLAST(xf, prior, grid, 2)`, with psi left at its default, raises AttributeError at line 18. | The default noise term is used as a float64 scalar. | high; not executed | MalikKtBlast.DefaultNoiseHasNoDtype | MalikKtBlast.KtBlastFloatNoise |
| ktblast/unfold.py:46 | `kt2xf(kspace, shift=True)`, but kt2xf (utils/kt2xf.py:5) declares only `kt` and `coil_axis`. | Any `unfold(kspace)` with a valid time axis raises TypeError at line 46. | The shifted x-f transform of kspace. | medium (utils/__init__.py is not part of this model); not executed | Unfold.ShiftKeywordRejected | Unfold.Unfold |
