/** Small shared vocabulary of the record/replay model. */
module Common {

  /** A value that may be absent (JavaScript `undefined`/`null` where the engine tests for it). */
  datatype Option<+T> = None | Some(value: T)

  /**
   * The payload of an event flowing through a channel. The engine never
   * inspects payloads; it only stores them in the log and re-sends them,
   * so an opaque integer stands for any JavaScript value.
   */
  type Payload = int
}
