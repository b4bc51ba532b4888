/** Failure-compatible result type shared by both address-derivation models,
    and the kinds of error the two scripts can report. */
module Wrappers {

  datatype Option<+T> = None | Some(value: T)

  /** What went wrong.  Python raises an exception and Go returns an `error`;
      both end the call without an address. */
  datatype Error =
    | DecodeError                 // Base58Check decoding failed (bad character, bad checksum)
    | ParseError                  // the extended key string was not accepted by the BIP 32 parser
    | DeriveError                 // Python's DerivePath failed (bad path element or CKD failure)
    | DeriveChangeError           // Go's first Derive step (the change level) failed
    | DeriveIndexError            // Go's second Derive step (the address index) failed
    | ByteRangeError              // Python's bytes([x]) with x outside 0..255
    | ScriptBuildError            // Go's txscript ScriptBuilder recorded an error
    | UnknownScriptType(tag: string)

  datatype Result<+T> = Ok(value: T) | Err(error: Error) {
    predicate IsFailure() {
      Err?
    }

    function PropagateFailure<U>(): Result<U>
      requires Err?
    {
      Err(error)
    }

    function Extract(): T
      requires Ok?
    {
      value
    }
  }

  /** Two results agree when both fail or both succeed with the same value;
      the two scripts word their errors differently. */
  predicate Agree<T(==)>(a: Result<T>, b: Result<T>) {
    a.Ok? == b.Ok? && (a.Ok? ==> a.value == b.value)
  }
}
