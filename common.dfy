/** Values shared by both copies of the widget: the wrappers for the
    exceptions it throws, and the JavaScript values its callers pass in. */
module Common {

  datatype Option<+T> = None | Some(value: T)

  /** Every exception the widget throws, and the rejection of a fetch. */
  datatype Error =
    | InvalidParameter(key: string)  // "Invalid configuration parameter passed (key)"
    | SelectorRequired               // "# style selector required"
    | TargetNotString                // TypeError: a `target` value without `indexOf`
    | NoHandlers                     // "No functions/data provided to execute"
    | FetchRejected                  // one of the d3.json requests failed
    | InvalidCallbackKey             // "Invalid callback key passed (...)"

  datatype Result<+T> = Ok(value: T) | Err(error: Error)

  /** A JavaScript value as found in a configuration object or a
      control-panel event. Arrays are not among them. */
  datatype Value =
    | Undefined
    | Null
    | Bool(b: bool)
    | Num(x: real)
    | Str(s: string)
    | Func(id: nat)
    | Obj

  /** JavaScript truthiness, as `!!v` and `if (v)` compute it (NaN is not modelled). */
  predicate Truthy(v: Value) {
    match v
    case Undefined => false
    case Null => false
    case Bool(b) => b
    case Num(x) => x != 0.0
    case Str(s) => s != ""
    case Func(_) => true
    case Obj => true
  }
}
