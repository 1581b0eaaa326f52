/** Small shared vocabulary: nullable values, results and the exceptions the
    save manager raises. */
module Common {

  /** A value that may be absent; stands for a C# reference that may be null. */
  datatype Option<+T> = None | Some(value: T)

  /** The outcome of an operation that either produces a value or throws. */
  datatype Result<+R, +E> = Success(value: R) | Failure(error: E)

  /** The outcome of an operation that returns nothing or throws. */
  datatype Outcome<+E> = Pass | Fail(error: E)

  /** The exceptions of the source, by kind. `param` is the parameter name the
      source passes to the exception's constructor. `RuntimeError` stands for
      any failure of the file system or of the binary formatter, which are not
      part of this model; `code` only tells such failures apart. */
  datatype Error =
    | ArgumentNullError(param: string)
    | ArgumentError(param: string)
    | NullReferenceError
    | DeserializationError
    | RuntimeError(code: nat)

  /** An opaque identity for a callback supplied by the caller. */
  type CallbackId = nat

  /** An application object handed to the save manager for saving
      (`object gameSpecificData`); `id` only tells objects apart. */
  datatype GameData = GameData(id: nat)

  /** `string.IsNullOrEmpty` on a nullable string. */
  predicate IsNullOrEmpty(s: Option<string>)
  {
    s.None? || s.value == ""
  }
}
