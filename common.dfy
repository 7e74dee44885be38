/** Shared datatypes: optional values, the exceptions the Python code can raise,
    and voxel coordinates as produced by the pixel generators. */
module Common {

  datatype Option<T> = None | Some(value: T)

  /** The Python exceptions that the modelled code raises (or lets escape). */
  datatype Error =
    | ValueError(msg: string)
    | RuntimeError(msg: string)
    | AssertionError
    | ZeroDivisionError
    | IndexError
    /** Not an exception: a floating-point result that is infinite, which
        numpy returns with a warning and the model's reals cannot hold. */
    | NonFinite

  datatype Result<T> = Ok(value: T) | Err(error: Error)

  /** A voxel index triple (slice, row, column), one row of an `Idx` array. */
  datatype Voxel = Voxel(z: int, r: int, c: int)
}
