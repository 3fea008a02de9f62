/** Go's nil-able `error` values, as the assertion and fault-injection code
    produces and inspects them. */
module Errors {

  /** An optional value; `None` stands for Go's `nil`. */
  datatype Option<+T> = None | Some(value: T)

  /** An error value.
      - `Sentinel` is `ErrFault` itself, the error whose text is "fault".
      - `Fault(name)` is what the default fault factory builds: it wraps
        `ErrFault` and carries the checkpoint name.
      - `Other(text)` is any other error, known only by its text. */
  datatype Error = Sentinel | Fault(name: string) | Other(text: string) {

    /** `errors.Is(e, ErrFault)`: the error is, or wraps, the sentinel. */
    predicate IsFault() {
      Sentinel? || Fault?
    }

    /** `e.Error()`: the error's text. */
    function Text(): string {
      match this
      case Sentinel => "fault"
      case Fault(name) => "fault: " + name
      case Other(text) => text
    }
  }
}
