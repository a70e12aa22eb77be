/** The slice of NumPy the reconstruction code leans on, for three-axis
    arrays: C-order (row-major) layout, `np.unravel_index`, `np.transpose`
    and `np.moveaxis`, `np.roll` without an axis, and `np.where` on a
    boolean array. */
module NdArray {
  import opened ModArith
  import opened Results

  function Size(dims: seq<nat>): nat
    requires |dims| == 3
  {
    dims[0] * dims[1] * dims[2]
  }

  /** A three-axis array stored flat in C order: the last axis varies fastest. */
  datatype Array3<T> = Array3(dims: seq<nat>, data: seq<T>) {
    predicate Valid() {
      |dims| == 3 && |data| == Size(dims)
    }
  }

  predicate InBounds(dims: seq<nat>, idx: seq<int>)
    requires |dims| == 3
  {
    |idx| == 3 && 0 <= idx[0] < dims[0] && 0 <= idx[1] < dims[1] && 0 <= idx[2] < dims[2]
  }

  /** Flat C-order position of an in-bounds index (np.ravel_multi_index). */
  function Offset(dims: seq<nat>, idx: seq<int>): (o: int)
    requires |dims| == 3 && InBounds(dims, idx)
    ensures 0 <= o < Size(dims)
  {
    MixedRadixBound(idx[0], idx[1], dims[1], dims[0]);
    MixedRadixBound(idx[0] * dims[1] + idx[1], idx[2], dims[2], dims[0] * dims[1]);
    (idx[0] * dims[1] + idx[1]) * dims[2] + idx[2]
  }

  /** np.unravel_index: the index whose C-order position is `p`. */
  function Unravel(dims: seq<nat>, p: int): (idx: seq<int>)
    requires |dims| == 3 && 0 <= p < Size(dims)
    ensures InBounds(dims, idx) && Offset(dims, idx) == p
  {
    UnravelDigits(dims, p);
    [p / (dims[1] * dims[2]), (p / dims[2]) % dims[1], p % dims[2]]
  }

  lemma UnravelDigits(dims: seq<nat>, p: int)
    requires |dims| == 3 && 0 <= p < Size(dims)
    ensures dims[1] > 0 && dims[2] > 0
    ensures var idx := [p / (dims[1] * dims[2]), (p / dims[2]) % dims[1], p % dims[2]];
            InBounds(dims, idx) && Offset(dims, idx) == p
  {
    MixedRadixDigits(dims[0], dims[1], dims[2], p);
  }

  /** The three C-order digits of a position below d0 * d1 * d2. */
  lemma MixedRadixDigits(d0: nat, d1: nat, d2: nat, p: int)
    requires 0 <= p < d0 * d1 * d2
    ensures d1 > 0 && d2 > 0
    ensures 0 <= p / (d1 * d2) < d0
    ensures ((p / (d1 * d2)) * d1 + (p / d2) % d1) * d2 + p % d2 == p
  {
    ZeroFactor(d0, d1, d2);
    var a, k := p / d2, p % d2;
    var i, j := a / d1, a % d1;
    SplitTwice(p, d1, d2);
    MixedRadixBound(j, k, d2, d1);
    DivModUnique(p, d1 * d2, i, j * d2 + k);
    assert d0 * d1 * d2 == d0 * (d1 * d2);
    DivBelow(p, d1 * d2, d0);
  }

  lemma ZeroFactor(d0: nat, d1: nat, d2: nat)
    ensures d1 == 0 || d2 == 0 ==> d0 * d1 * d2 == 0
  {
  }

  /** p = i * (d1 * d2) + (j * d2 + k) for the digits i, j, k of p. */
  lemma SplitTwice(p: int, d1: int, d2: int)
    requires d1 > 0 && d2 > 0
    ensures p == ((p / d2) / d1) * (d1 * d2) + (((p / d2) % d1) * d2 + p % d2)
  {
    var a, k := p / d2, p % d2;
    var i, j := a / d1, a % d1;
    assert p == a * d2 + k;
    assert a == i * d1 + j;
    calc {
      a * d2;
      (i * d1 + j) * d2;
      i * d1 * d2 + j * d2;
      i * (d1 * d2) + j * d2;
    }
  }

  /** Unravelling the position of an in-bounds index gives the index back. */
  lemma UnravelOffset(dims: seq<nat>, idx: seq<int>)
    requires |dims| == 3 && InBounds(dims, idx)
    ensures Unravel(dims, Offset(dims, idx)) == idx
  {
    var d0, d1, d2 := dims[0], dims[1], dims[2];
    var i, j, k := idx[0], idx[1], idx[2];
    var p := Offset(dims, idx);
    DivModUnique(p, d2, i * d1 + j, k);
    DivModUnique(i * d1 + j, d1, i, j);
    MixedRadixBound(j, k, d2, d1);
    assert p == i * (d1 * d2) + (j * d2 + k);
    DivModUnique(p, d1 * d2, i, j * d2 + k);
  }

  /** Two in-bounds indices share a position only if they are equal. */
  lemma OffsetInjective(dims: seq<nat>, idx1: seq<int>, idx2: seq<int>)
    requires |dims| == 3 && InBounds(dims, idx1) && InBounds(dims, idx2)
    requires Offset(dims, idx1) == Offset(dims, idx2)
    ensures idx1 == idx2
  {
    UnravelOffset(dims, idx1);
    UnravelOffset(dims, idx2);
  }

  // ---------------------------------------------------------------------
  // np.transpose and np.moveaxis

  /** No axis has length zero, as NumPy's FFTs require of every axis they
      transform. */
  predicate NonemptyAxes(dims: seq<nat>)
    requires |dims| == 3
  {
    dims[0] > 0 && dims[1] > 0 && dims[2] > 0
  }

  /** A permutation of the three axes, as np.transpose takes it. */
  predicate IsAxisOrder(order: seq<nat>) {
    |order| == 3 && order[0] < 3 && order[1] < 3 && order[2] < 3 &&
    order[0] != order[1] && order[0] != order[2] && order[1] != order[2]
  }

  function InverseOrder(order: seq<nat>): (inv: seq<nat>)
    requires IsAxisOrder(order)
    ensures IsAxisOrder(inv)
    ensures forall m :: 0 <= m < 3 ==> inv[order[m]] == m && order[inv[m]] == m
  {
    seq(3, n => if order[0] == n then 0 else if order[1] == n then 1 else 2)
  }

  function Permute(dims: seq<nat>, order: seq<nat>): (r: seq<nat>)
    requires |dims| == 3 && IsAxisOrder(order)
    ensures |r| == 3 && Size(r) == Size(dims)
  {
    PermutedProduct(dims[0], dims[1], dims[2], order);
    [dims[order[0]], dims[order[1]], dims[order[2]]]
  }

  /** Permuting the three factors of a shape keeps its size. */
  lemma PermutedProduct(d0: nat, d1: nat, d2: nat, order: seq<nat>)
    requires IsAxisOrder(order)
    ensures [d0, d1, d2][order[0]] * [d0, d1, d2][order[1]] * [d0, d1, d2][order[2]] == d0 * d1 * d2
  {
    ProductReordered(d0, d1, d2);
    var o0, o1, o2 := order[0], order[1], order[2];
    if o0 == 0 {
      if o1 == 1 { assert o2 == 2; } else { assert o1 == 2 && o2 == 1; }
    } else if o0 == 1 {
      if o1 == 0 { assert o2 == 2; } else { assert o1 == 2 && o2 == 0; }
    } else {
      if o1 == 0 { assert o2 == 1; } else { assert o1 == 1 && o2 == 0; }
    }
  }

  /** A product of three factors does not depend on their order. */
  lemma ProductReordered(x: int, y: int, z: int)
    ensures x * y * z == x * z * y == y * x * z == y * z * x == z * x * y == z * y * x
  {
    assert x * y == y * x && x * z == z * x && y * z == z * y;
    assert (x * y) * z == x * (y * z) && (x * z) * y == x * (z * y) && (y * x) * z == y * (x * z);
  }

  /** The index of the source array that np.transpose(a, order) places at
      `idx`: source axis order[m] takes coordinate idx[m]. */
  function SourceIndex(idx: seq<int>, order: seq<nat>): seq<int>
    requires |idx| == 3 && IsAxisOrder(order)
  {
    var inv := InverseOrder(order);
    [idx[inv[0]], idx[inv[1]], idx[inv[2]]]
  }

  function TransposedAt<T>(a: Array3<T>, order: seq<nat>, p: int): T
    requires a.Valid() && IsAxisOrder(order) && 0 <= p < Size(a.dims)
  {
    var dims := Permute(a.dims, order);
    var src := SourceIndex(Unravel(dims, p), order);
    assert InBounds(a.dims, src);
    a.data[Offset(a.dims, src)]
  }

  /** np.transpose(a, order). */
  function Transpose<T>(a: Array3<T>, order: seq<nat>): (r: Array3<T>)
    requires a.Valid() && IsAxisOrder(order)
    ensures r.Valid() && r.dims == Permute(a.dims, order)
    ensures forall idx :: InBounds(r.dims, idx) ==>
              InBounds(a.dims, SourceIndex(idx, order)) &&
              r.data[Offset(r.dims, idx)] == a.data[Offset(a.dims, SourceIndex(idx, order))]
  {
    var r := Array3(Permute(a.dims, order),
                    seq(Size(a.dims), p requires 0 <= p < Size(a.dims) => TransposedAt(a, order, p)));
    TransposeAt(a, order, r);
    r
  }

  lemma TransposeAt<T>(a: Array3<T>, order: seq<nat>, r: Array3<T>)
    requires a.Valid() && IsAxisOrder(order)
    requires r.dims == Permute(a.dims, order)
    requires r.data == seq(Size(a.dims), p requires 0 <= p < Size(a.dims) => TransposedAt(a, order, p))
    ensures forall idx :: InBounds(r.dims, idx) ==>
              InBounds(a.dims, SourceIndex(idx, order)) &&
              r.data[Offset(r.dims, idx)] == a.data[Offset(a.dims, SourceIndex(idx, order))]
  {
    forall idx | InBounds(r.dims, idx)
      ensures InBounds(a.dims, SourceIndex(idx, order))
      ensures r.data[Offset(r.dims, idx)] == a.data[Offset(a.dims, SourceIndex(idx, order))]
    {
      UnravelOffset(r.dims, idx);
    }
  }

  /** Transposing by an order and then by its inverse restores the array. */
  lemma TransposeInverse<T>(a: Array3<T>, order: seq<nat>)
    requires a.Valid() && IsAxisOrder(order)
    ensures Transpose(Transpose(a, order), InverseOrder(order)) == a
  {
    var inv := InverseOrder(order);
    var b := Transpose(a, order);
    var c := Transpose(b, inv);
    assert c.dims == a.dims;
    forall p | 0 <= p < |a.data|
      ensures c.data[p] == a.data[p]
    {
      var idx := Unravel(c.dims, p);
      var mid := SourceIndex(idx, inv);
      assert SourceIndex(mid, order) == idx;
    }
  }

  /** numpy's normalize_axis_index for a three-axis array. */
  function NormalizeAxis(axis: int): (r: Option<nat>)
    ensures r.Some? <==> -3 <= axis < 3
    ensures r.Some? ==> r.value < 3 && (r.value == axis || r.value == axis + 3)
  {
    if -3 <= axis < 0 then Some(axis + 3)
    else if 0 <= axis < 3 then Some(axis)
    else None
  }

  /** The order np.moveaxis(a, ax, -1) transposes by: the other axes in
      their order, then `ax`. */
  function ToLastOrder(ax: nat): (order: seq<nat>)
    requires ax < 3
    ensures IsAxisOrder(order) && order[2] == ax && order[0] < order[1]
  {
    (if ax == 0 then [1, 2] else if ax == 1 then [0, 2] else [0, 1]) + [ax]
  }

  /** The order np.moveaxis(a, -1, ax) transposes by: axis 2 inserted at
      position `ax` of [0, 1]. */
  function FromLastOrder(ax: nat): (order: seq<nat>)
    requires ax < 3
    ensures IsAxisOrder(order) && order[ax] == 2
    ensures order == InverseOrder(ToLastOrder(ax))
  {
    [0, 1][..ax] + [2] + [0, 1][ax..]
  }

  function MoveAxisToLast<T>(a: Array3<T>, ax: nat): (r: Array3<T>)
    requires a.Valid() && ax < 3
    ensures r.Valid() && r.dims[2] == a.dims[ax]
    ensures r.dims[0] == a.dims[if ax == 0 then 1 else 0] && r.dims[1] == a.dims[if ax == 2 then 1 else 2]
  {
    Transpose(a, ToLastOrder(ax))
  }

  function MoveAxisFromLast<T>(a: Array3<T>, ax: nat): (r: Array3<T>)
    requires a.Valid() && ax < 3
    ensures r.Valid() && r.dims[ax] == a.dims[2]
    ensures r.dims[if ax == 0 then 1 else 0] == a.dims[0] && r.dims[if ax == 2 then 1 else 2] == a.dims[1]
  {
    Transpose(a, FromLastOrder(ax))
  }

  /** Moving the time axis last and back again restores the caller's array,
      and the other way round. */
  lemma MoveAxisRoundTrip<T>(a: Array3<T>, ax: nat)
    requires a.Valid() && ax < 3
    ensures MoveAxisFromLast(MoveAxisToLast(a, ax), ax) == a
    ensures MoveAxisToLast(MoveAxisFromLast(a, ax), ax) == a
  {
    TransposeInverse(a, ToLastOrder(ax));
    var o := FromLastOrder(ax);
    TransposeInverse(a, o);
    assert InverseOrder(o) == ToLastOrder(ax);
  }

  // ---------------------------------------------------------------------
  // np.roll and np.where

  function Sum(xs: seq<int>): (s: int)
    ensures |xs| == 1 ==> s == xs[0]
    ensures |xs| == 2 ==> s == xs[0] + xs[1]
    ensures |xs| == 3 ==> s == xs[0] + xs[1] + xs[2]
  {
    if xs == [] then 0
    else
      var init := xs[..|xs| - 1];
      assert |xs| >= 2 ==> init[0] == xs[0];
      assert |xs| == 3 ==> init[1] == xs[1];
      Sum(init) + xs[|xs| - 1]
  }

  /** np.roll of a flat sequence: every element moves `shift` places
      forward, wrapping around the end. */
  function Roll<T>(a: seq<T>, shift: int): (r: seq<T>)
    ensures |r| == |a|
    ensures forall p :: 0 <= p < |a| ==> r[p] == a[(p - shift) % |a|]
  {
    if |a| == 0 then a
    else
      var n := |a|;
      var k := shift % n;
      var r := a[n - k..] + a[..n - k];
      RollAt(a, shift, r);
      r
  }

  lemma RollAt<T>(a: seq<T>, shift: int, r: seq<T>)
    requires |a| > 0
    requires r == a[|a| - shift % |a|..] + a[..|a| - shift % |a|]
    ensures forall p :: 0 <= p < |a| ==> r[p] == a[(p - shift) % |a|]
  {
    var n := |a|;
    var k := shift % n;
    forall p | 0 <= p < n
      ensures r[p] == a[(p - shift) % n]
    {
      assert shift == (shift / n) * n + k;
      if p < k {
        DivModUnique(p - shift, n, -(shift / n) - 1, n - k + p);
      } else {
        DivModUnique(p - shift, n, -(shift / n), p - k);
      }
    }
  }

  /** np.roll(a, shifts) with no axis: NumPy flattens `a` in C order and
      rolls it once, by the sum of all the shifts. */
  function NpRoll<T>(a: Array3<T>, shifts: seq<int>): (r: Array3<T>)
    requires a.Valid()
    ensures r.Valid() && r.dims == a.dims
    ensures forall p :: 0 <= p < |a.data| ==> r.data[p] == a.data[(p - Sum(shifts)) % |a.data|]
  {
    Array3(a.dims, Roll(a.data, Sum(shifts)))
  }

  /** The positions of the true entries, in increasing order. */
  function Nonzero(bits: seq<bool>): (ps: seq<nat>)
    ensures forall k :: 0 <= k < |ps| ==> ps[k] < |bits| && bits[ps[k]]
    ensures forall p :: 0 <= p < |bits| && bits[p] ==> p in ps
    ensures forall k, l :: 0 <= k < l < |ps| ==> ps[k] < ps[l]
  {
    if bits == [] then []
    else
      var init := Nonzero(bits[..|bits| - 1]);
      if bits[|bits| - 1] then init + [|bits| - 1] else init
  }

  /** np.where(a): the indices of the true entries of `a`, in C order. */
  function Where(a: Array3<bool>): (idx: seq<seq<int>>)
    requires a.Valid()
    ensures |idx| == |Nonzero(a.data)|
    ensures forall k :: 0 <= k < |idx| ==>
              InBounds(a.dims, idx[k]) && Offset(a.dims, idx[k]) == Nonzero(a.data)[k]
  {
    var ps := Nonzero(a.data);
    seq(|ps|, k requires 0 <= k < |ps| => Unravel(a.dims, ps[k]))
  }
}
