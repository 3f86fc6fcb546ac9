/** Failure-carrying datatypes shared by every module of the model.

    Go's `(value, error)` pairs become `Result`, a bare `error` return becomes
    `Outcome`, and pointers that may be nil become `Option`. */
module Wrappers {

  datatype Option<+T> = None | Some(value: T) {
    predicate IsFailure() { None? }
    function PropagateFailure<U>(): Option<U> requires None? { None }
    function Extract(): T requires Some? { value }
  }

  /** The errors the modelled code can return.  Sentinel errors of go-git and
      gorm get their own constructor so that callers can compare them with
      `errors.Is`; every `fmt.Errorf`/`errors.New` keeps its message text. */
  datatype Error =
    | Message(text: string)
      // a Go runtime panic (nil pointer dereference, slice out of range) or a
      // Python exception that ends the call
    | Panic(reason: string)
    | ReferenceNotFound
    | ReferenceHasChanged
    | ObjectNotFound
    | InvalidObjectType
    | NotFound(what: string)
    | AlreadyExists(what: string)
      // an update carrying a stale resource version
    | Conflict(what: string)
    | Stop
      // `io.EOF`: an iterator has nothing more to give
    | EndOfIteration
      // an error produced by a foreign call the model does not look inside
    | Foreign(call: string)

  datatype Result<+T> = Ok(value: T) | Err(error: Error) {
    predicate IsFailure() { Err? }
    function PropagateFailure<U>(): Result<U> requires Err? { Err(error) }
    function Extract(): T requires Ok? { value }
  }

  datatype Outcome = Pass | Fail(error: Error) {
    predicate IsFailure() { Fail? }
    function PropagateFailure(): Outcome requires Fail? { this }
  }

  function Need(condition: bool, error: Error): (r: Outcome)
    ensures r.Pass? <==> condition
  {
    if condition then Pass else Fail(error)
  }
}
