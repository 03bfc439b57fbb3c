/** Values shared by every request handler of the serving tier. */
module Common {

  datatype Option<+T> = None | Some(value: T)

  /** A form or query parameter of a request: None when the request does not carry it. */
  type Field = Option<string>

  /** Python truthiness of a parameter: present and not the empty string. */
  predicate Truthy(f: Field)
  {
    f.Some? && f.value != ""
  }

  /** What a call returned, or the error it raised. A handler whose exception
      is not caught answers with Raised. */
  datatype Outcome<+T> = Returned(value: T) | Raised(error: string)
}
