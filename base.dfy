/** Shared vocabulary of the model: optional values, results and identifiers. */
module Base {

  /** A value that may be absent: JavaScript `undefined` or `null`. */
  datatype Option<+T> = None | Some(value: T)

  /** The outcome of a step that either yields a value or fails with an error. */
  datatype Result<+T, +E> = Ok(value: T) | Err(error: E)

  /** Why a document failed schema validation on insert: a required path is missing or
      empty, or a value lies outside the path's enum. */
  datatype ValidationError = Missing(path: string) | NotInEnum(path: string, value: string)

  /** Document ids, user ids and room names all travel as strings. */
  type Id = string

  /** JavaScript truthiness of an optional string: present and not empty. */
  predicate Truthy(s: Option<string>) {
    s.Some? && s.value != ""
  }

  /** `a || b` on optional strings: the first operand when truthy, else the fallback. */
  function OrElse(a: Option<string>, fallback: string): string {
    if Truthy(a) then a.value else fallback
  }
}
