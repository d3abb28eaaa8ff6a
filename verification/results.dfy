/** Failure outcomes shared by the hypercomplex value and the quaternion dense layer. */
module Results {

  /** The error conditions the core can raise. */
  datatype Error =
    | DimensionError   // the last input dimension is not divisible by 4
    | ShapeMismatch    // operand shapes that must agree do not
    | NotImplemented   // multiplication requested on the base abstraction

  datatype Option<+T> = None | Some(value: T)

  /** Either a value or the error that stopped the computation; a failed call produces no value. */
  datatype Result<+T> = Ok(value: T) | Err(error: Error)
}
