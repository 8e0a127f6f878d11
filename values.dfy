/** Values shared by the agent model: the JSON values the decoder produces and the tools
    exchange, the Python exceptions the agent can raise, and the result wrappers that carry
    either a value or a raised exception. */
module Values {

  /** A decoded JSON value, as Python's json module hands it back: objects become dicts
      (one value per key), arrays become lists. Only integral numbers are modelled. */
  datatype Json =
    | Null
    | Bool(b: bool)
    | Int(i: int)
    | Str(s: string)
    | Array(items: seq<Json>)
    | Object(fields: map<string, Json>)

  /** The Python exceptions that leave the agent's methods. */
  datatype Error =
    | ValueError(message: string)   // bad state, or text the decoder rejects
    | KeyError(key: Json)           // a missing dict key
    | TypeError                     // subscripting None, a list or a scalar with a string key
    | ToolError(message: string)    // any other exception raised inside a tool

  datatype Option<+T> = None | Some(value: T)

  /** A value, or the exception raised instead of returning it. */
  datatype Result<+T> = Ok(value: T) | Err(error: Error)

  /** What a method that returns nothing does: returns normally, or raises. */
  datatype Outcome = Done | Raised(error: Error)
}
