/** Values shared by the execution store, the runs endpoint and the workflow editor hook. */
module Values {

  /** A field that may be missing (`undefined` / an optional argument that was not supplied). */
  datatype Option<+T> = None | Some(value: T) {
    /** The value, or `default` when the field is missing. */
    function GetOr(default: T): T {
      match this
      case Some(v) => v
      case None => default
    }
  }

  /** The outcome of a store mutation: the id it returns, or the error it throws. */
  datatype Result<+T, +E> = Ok(value: T) | Err(error: E)

  /**
   * A JSON-like value: what the store keeps in its `v.any()` columns (input, output,
   * node results, variables) and what a workflow node keeps in its `data` object.
   * Numbers are integers (see README).
   */
  datatype Value =
    | Null
    | Bool(b: bool)
    | Number(n: int)
    | Str(s: string)
    | Array(items: seq<Value>)
    | Object(fields: map<string, Value>)

  /** JavaScript truthiness of an optional string: present and not empty. */
  predicate Truthy(s: Option<string>) {
    s.Some? && s.value != ""
  }
}
