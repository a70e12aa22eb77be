/** Exact stand-ins for the floating-point values of the source: complex
    samples as pairs of reals, and a marker for the non-finite values
    (nan, inf) that NumPy produces on division by zero. */
module Numbers {

  datatype Complex = Complex(re: real, im: real)

  const Zero := Complex(0.0, 0.0)

  /** np.abs(z)**2, the squared magnitude. */
  function Norm2(z: Complex): (n: real)
    ensures n >= 0.0
  {
    z.re * z.re + z.im * z.im
  }

  /** A complex sample times a real factor. */
  function Scale(z: Complex, w: real): Complex
  {
    Complex(z.re * w, z.im * w)
  }

  function Abs(x: real): (r: real)
    ensures r >= 0.0 && (r == x || r == -x)
  {
    if x < 0.0 then -x else x
  }

  /** A floating-point result: a finite value, or nan/inf. */
  datatype Fp<+T> = Finite(val: T) | NonFinite

  /** NumPy's elementwise `num / den`: a zero denominator yields nan
      (0/0) or inf (x/0), both non-finite. */
  function Divide(num: real, den: real): (q: Fp<real>)
    ensures q.Finite? <==> den != 0.0
    ensures q.Finite? ==> q.val * den == num
  {
    if den == 0.0 then NonFinite else Finite(num / den)
  }

  lemma {:induction false} NormOfScale(z: Complex, w: real)
    ensures Norm2(Scale(z, w)) == w * w * Norm2(z)
  {
    calc {
      Norm2(Scale(z, w));
      (z.re * w) * (z.re * w) + (z.im * w) * (z.im * w);
      w * w * (z.re * z.re) + w * w * (z.im * z.im);
      w * w * Norm2(z);
    }
  }
}
