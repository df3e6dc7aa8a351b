/** Value types shared by every part of the TimeGate model. */
module Types {

  datatype Option<+T> = None | Some(value: T)

  /** The exceptions the TimeGate code raises or lets through, as values. */
  datatype Error =
    | NotFound          // no URL rule matches the request (werkzeug's 404)
    | Forbidden         // abort(403): the handler does not serve TimeMaps
    | NotImplemented    // register_handler: the handler has neither capability
    | AssertionFailed   // a Python `assert` that does not hold
    | MissingMethod     // AttributeError: the handler lacks the method that is called
    | InternalError     // the endpoint does not split, or names no registered handler
    | Upstream(status: int)  // an HTTP error raised by the handler's own request

  datatype Result<+T> = Ok(value: T) | Err(error: Error)

  /** The absence of a result, for operations that only succeed or fail. */
  datatype Outcome = Pass | Fail(error: Error)

  /** A Memento: the URI of an archived version and its datetime (seconds). */
  datatype Memento = Memento(uri: string, datetime: int)

  /** A TimeMap as the handlers return it: Mementos in ascending datetime order. */
  type TimeMap = seq<Memento>
}
