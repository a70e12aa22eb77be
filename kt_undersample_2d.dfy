/** The sheared ky-t sampling tile of utils/kt_undersample_2d.py: an R x R
    boolean pattern whose column t samples the single ky row
    (dkydt * t) mod R. */
module KtUndersample2d {
  import opened Results
  import opened NdArray
  import opened ModArith

  /** Whether the tile samples ky row `k` at frame `t`. */
  predicate Sampled(r: int, dkydt: int, k: int, t: int): (b: bool)
    requires r > 0
    ensures b ==> 0 <= k < r
  {
    k == (dkydt * t) % r
  }

  /** Rolling the unit vector e0 by `s` moves its one true entry to s mod R. */
  lemma RolledUnit(r: int, s: int, k: int)
    requires 0 <= k < r
    ensures ((k - s) % r == 0) <==> k == s % r
  {
    assert k - s == (k - s % r) + (-(s / r)) * r by {
      assert s == (s / r) * r + s % r;
    }
    ModAddMultiple(k - s % r, -(s / r), r);
    if k >= s % r {
      DivModUnique(k - s % r, r, 0, k - s % r);
    } else {
      DivModUnique(k - s % r, r, -1, k - s % r + r);
    }
  }

  /** `kt_pat[0, :] = True`. */
  method SetFirstRow(pat: array2<bool>)
    requires pat.Length0 > 0
    modifies pat
    ensures forall k, t :: 0 <= k < pat.Length0 && 0 <= t < pat.Length1 ==>
              pat[k, t] == (k == 0 || old(pat[k, t]))
  {
    var c := 0;
    while c < pat.Length1
      invariant 0 <= c <= pat.Length1
      invariant forall k, t :: 0 <= k < pat.Length0 && 0 <= t < pat.Length1 ==>
                  pat[k, t] == ((k == 0 && t < c) || old(pat[k, t]))
    {
      pat[0, c] := true;
      c := c + 1;
    }
  }

  /** `kt_pat[:, t] = column`. */
  method SetColumn(pat: array2<bool>, t: nat, column: seq<bool>)
    requires t < pat.Length1 && |column| == pat.Length0
    modifies pat
    ensures forall k, u :: 0 <= k < pat.Length0 && 0 <= u < pat.Length1 ==>
              pat[k, u] == if u == t then column[k] else old(pat[k, u])
  {
    var k := 0;
    while k < pat.Length0
      invariant 0 <= k <= pat.Length0
      invariant forall i, u :: 0 <= i < pat.Length0 && 0 <= u < pat.Length1 ==>
                  pat[i, u] == if u == t && i < k then column[i] else old(pat[i, u])
    {
      pat[k, t] := column[k];
      k := k + 1;
    }
  }

  /** `np.roll(kt_pat[:, 0], (dkydt*t, 0))` while column 0 holds its single
      sample at row 0: the column sampled at row (dkydt * t) mod R. */
  method RolledFirstColumn(pat: array2<bool>, dkydt: int, t: int) returns (column: seq<bool>)
    requires pat.Length0 > 0 && pat.Length1 > 0
    requires forall k :: 0 <= k < pat.Length0 ==> pat[k, 0] == (k == 0)
    ensures |column| == pat.Length0
    ensures forall k :: 0 <= k < pat.Length0 ==> column[k] == Sampled(pat.Length0, dkydt, k, t)
  {
    var r := pat.Length0;
    var column0 := seq(r, k requires 0 <= k < r reads pat => pat[k, 0]);
    var shift := [dkydt * t, 0];
    assert Sum(shift) == dkydt * t by {
      assert shift[..1] == [dkydt * t] && [dkydt * t][..0] == [];
      assert Sum(shift[..1]) == dkydt * t;
    }
    column := Roll(column0, Sum(shift));
    forall k | 0 <= k < r
      ensures column[k] == Sampled(r, dkydt, k, t)
    {
      RolledUnit(r, dkydt * t, k);
    }
  }

  /** `for t in range(1, R): kt_pat[:, t] = np.roll(kt_pat[:, 0], (dkydt*t, 0))`,
      starting from the tile whose row 0 alone is set. */
  method ShearColumns(pat: array2<bool>, dkydt: int)
    requires 0 < pat.Length0 == pat.Length1
    requires forall k, u :: 0 <= k < pat.Length0 && 0 <= u < pat.Length1 ==> pat[k, u] == (k == 0)
    modifies pat
    ensures forall k, u :: 0 <= k < pat.Length0 && 0 <= u < pat.Length1 ==>
              pat[k, u] == Sampled(pat.Length0, dkydt, k, u)
  {
    var r := pat.Length0;
    var t := 1;
    while t < r
      invariant 1 <= t <= r
      invariant forall k, u :: 0 <= k < r && 1 <= u < t ==> pat[k, u] == Sampled(r, dkydt, k, u)
      invariant forall k, u :: 0 <= k < r && (u == 0 || t <= u < r) ==> pat[k, u] == (k == 0)
    {
      var rolled := RolledFirstColumn(pat, dkydt, t);
      SetColumn(pat, t, rolled);
      assert forall k :: 0 <= k < r ==> pat[k, t] == Sampled(r, dkydt, k, t);
      t := t + 1;
    }
    FirstFrame(r, dkydt);
  }

  /** Frame 0 samples row 0 alone. */
  lemma FirstFrame(r: int, dkydt: int)
    requires r > 0
    ensures forall k :: 0 <= k < r ==> (Sampled(r, dkydt, k, 0) <==> k == 0)
  {
    assert dkydt * 0 == 0;
  }

  /** kt_undersample_2d(R, dkydt). */
  method KtUndersample2d(r: int, dkydt: int) returns (result: Result<array2<bool>>)
    ensures r < 0 ==> result == Err(NegativeDimensions)
    ensures r == 0 ==> result == Err(IndexError)
    ensures result.Ok? <==> r > 0
    ensures result.Ok? ==> fresh(result.value)
    ensures result.Ok? ==> result.value.Length0 == r && result.value.Length1 == r
    ensures result.Ok? ==>
              forall k, t :: 0 <= k < r && 0 <= t < r ==> result.value[k, t] == Sampled(r, dkydt, k, t)
  {
    if r < 0 {
      return Err(NegativeDimensions);
    }
    var pat := new bool[r, r]((_, _) => false);
    if r == 0 {
      return Err(IndexError);
    }
    SetFirstRow(pat);
    ShearColumns(pat, dkydt);
    return Ok(pat);
  }

  // ---------------------------------------------------------------------
  // Properties of the tile

  function CountTrue(s: seq<bool>): nat
  {
    if s == [] then 0 else CountTrue(s[..|s| - 1]) + (if s[|s| - 1] then 1 else 0)
  }

  /** A sequence whose only true entry is at `j` counts one. */
  lemma {:induction false} CountSingle(s: seq<bool>, j: int)
    requires 0 <= j < |s| && s[j]
    requires forall i :: 0 <= i < |s| && i != j ==> !s[i]
    ensures CountTrue(s) == 1
  {
    var init := s[..|s| - 1];
    if j == |s| - 1 {
      CountNone(init);
    } else {
      CountSingle(init, j);
    }
  }

  lemma {:induction false} CountNone(s: seq<bool>)
    requires forall i :: 0 <= i < |s| ==> !s[i]
    ensures CountTrue(s) == 0
  {
    if s != [] {
      CountNone(s[..|s| - 1]);
    }
  }

  function Column(r: int, dkydt: int, t: int): (c: seq<bool>)
    requires r > 0
    ensures |c| == r
  {
    seq(r, k requires 0 <= k < r => Sampled(r, dkydt, k, t))
  }

  function Row(r: int, dkydt: int, k: int): (w: seq<bool>)
    requires r > 0
    ensures |w| == r
  {
    seq(r, t requires 0 <= t < r => Sampled(r, dkydt, k, t))
  }

  /** Every frame samples exactly one ky row. */
  lemma ColumnSingleSample(r: int, dkydt: int, t: int)
    requires r > 0
    ensures CountTrue(Column(r, dkydt, t)) == 1
  {
    CountSingle(Column(r, dkydt, t), (dkydt * t) % r);
  }

  function TileCount(r: int, dkydt: int, frames: nat): nat
    requires r > 0
  {
    if frames == 0 then 0 else TileCount(r, dkydt, frames - 1) + CountTrue(Column(r, dkydt, frames - 1))
  }

  /** The tile holds exactly R samples, one per frame. */
  lemma {:induction false} TileHasRSamples(r: int, dkydt: int, frames: nat)
    requires r > 0
    ensures TileCount(r, dkydt, frames) == frames
  {
    if frames > 0 {
      TileHasRSamples(r, dkydt, frames - 1);
      ColumnSingleSample(r, dkydt, frames - 1);
    }
  }

  /** Multiplying by `a` undoes multiplying by its inverse `u` modulo R. */
  lemma InverseCancels(r: int, a: int, u: int, x: int)
    requires r > 0 && (a * u) % r == 1 % r
    ensures (a * ((u * x) % r)) % r == x % r
  {
    calc {
      (a * ((u * x) % r)) % r;
      { ModMulRight(a, u * x, r); }
      (a * (u * x)) % r;
      { assert a * (u * x) == (a * u) * x; }
      ((a * u) * x) % r;
      { ModMulLeft(a * u, x, r); }
      (((a * u) % r) * x) % r;
      ((1 % r) * x) % r;
      { ModMulLeft(1, x, r); }
      x % r;
    }
  }

  /** With dkydt coprime to R, frame t = u*k mod R (u the inverse of dkydt)
      samples row k, and no other frame does. */
  lemma CoprimeRowFrame(r: int, dkydt: int, k: int, t: int)
    requires r > 0 && Gcd(AbsInt(dkydt), r) == 1 && 0 <= k < r && 0 <= t < r
    ensures Sampled(r, dkydt, k, t) <==> t == (ModInverse(dkydt, r) * k) % r
  {
    var u := ModInverse(dkydt, r);
    assert (dkydt * u) % r == 1 % r;
    InverseCancels(r, dkydt, u, k);
    DivModUnique(k, r, 0, k);
    if Sampled(r, dkydt, k, t) {
      assert (u * dkydt) % r == 1 % r by {
        assert u * dkydt == dkydt * u;
      }
      InverseCancels(r, u, dkydt, t);
      DivModUnique(t, r, 0, t);
    }
  }

  /** With dkydt coprime to R, every ky row is sampled in exactly one frame. */
  lemma CoprimeRowSingleSample(r: int, dkydt: int, k: int)
    requires r > 0 && Gcd(AbsInt(dkydt), r) == 1 && 0 <= k < r
    ensures CountTrue(Row(r, dkydt, k)) == 1
  {
    var t0 := (ModInverse(dkydt, r) * k) % r;
    forall t | 0 <= t < r
      ensures Row(r, dkydt, k)[t] <==> t == t0
    {
      CoprimeRowFrame(r, dkydt, k, t);
    }
    CountSingle(Row(r, dkydt, k), t0);
  }
}
