/**
 * How a run of the codec ends. Go signals codec errors by `panic` with a
 * `bytecodecError` that `CodecState.code` recovers (codec.go:119-137); any
 * other panic is re-raised and ends the program. Both become values here.
 */
module Outcomes {
  import opened Wrappers

  /** Which encoder reported a length mismatch. */
  datatype Site = StringSite | ArraySite | SliceSite

  /** The errors `CodecState.error` raises. */
  datatype CodecError =
    | DataLengthErr                                      // not enough data (codec.go:139)
    | LengthErr(site: Site, actual: int, tagLength: int) // codec.go:648-650, 910-912, 968-970
    | LengthrefNotFound(field: string)                   // codec.go:753-755, 847-849
    | LengthrefInvalidKind(field: string)                // codec.go:826-827, 873-874
    | UnsupportedTypeError(typeName: string)             // codec.go:717-723
    | UnsupportedValueError(cycleVia: string)            // codec.go:1034, 1053
    | EncodeBCDErr | DecodeBCDErr | EncodeGBKErr | DecodeGBKErr

  /**
   * Ways a run ends without returning: a panic that is not recovered, or a
   * run the model does not follow to its end.
   */
  datatype Crash =
    | ReflectPanic     // a reflect call on a value it does not apply to (Set on an unaddressable value)
    | MakeSliceLen     // make([]byte, n) with n < 0 or n above the runtime's allocation limit
    | IllTyped         // a value that does not have the shape of its type or points outside the heap
    | OutOfFuel        // the decode recursion or a decode loop went on longer than the fuel given

  datatype Failure = Raised(err: CodecError) | Crashed(crash: Crash)

  datatype Outcome<+T> = Done(value: T) | Failed(failure: Failure) {
    predicate IsFailure() { Failed? }
    function PropagateFailure<U>(): Outcome<U>
      requires Failed?
    {
      Failed(failure)
    }
    function Extract(): T
      requires Done?
    {
      value
    }
  }

  function Raise<T>(e: CodecError): Outcome<T> { Failed(Raised(e)) }
  function Abort<T>(c: Crash): Outcome<T> { Failed(Crashed(c)) }

  /** The failure an outcome carries, if any. */
  function FailureOf<T>(o: Outcome<T>): Option<Failure>
  {
    if o.Failed? then Some(o.failure) else None
  }
}
