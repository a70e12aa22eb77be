/** Outcomes of the reconstruction entry points: a value, or the Python
    exception the corresponding source line raises. */
module Results {

  datatype Option<+T> = None | Some(value: T)

  /** The exceptions the modelled code can raise. */
  datatype Error =
    | AxisError                                  // np.moveaxis with an out-of-range axis
    | AliasCountMismatch(expected: int, found: nat) // `assert ... == R` in ktblast
    | IndexError                                 // indexing past the end of an axis or a list
    | MissingDtype                               // `psi.dtype` on a plain Python float
    | NegativeDimensions                         // np.zeros with a negative size
    | UnexpectedKeyword(name: string)            // a call naming a keyword the callee does not declare
    | EmptyFftAxis                               // np.fft on an axis of length zero (ValueError)

  datatype Result<+T> = Ok(value: T) | Err(error: Error)
}
