/** Outcomes shared by every service: an optional value, the error kinds the
    backend raises, and a result that carries either a value or one of them. */
module Common {

  datatype Option<T> = None | Some(value: T) {
    function GetOr(default: T): T {
      if Some? then value else default
    }

    /** This value when present, otherwise `other`. */
    function Or(other: Option<T>): Option<T> {
      if Some? then this else other
    }
  }

  /** The exception kinds of the backend, each mapped to an HTTP status by the
      framework. `UniqueViolation` and `ForeignKeyViolation` are failures of
      the storage layer (a unique index or a NO ACTION foreign key), which the
      services do not check themselves. */
  datatype Error =
    | NotFound
    | Conflict
    | Unauthorized
    | UniqueViolation
    | ForeignKeyViolation

  datatype Result<T> = Ok(value: T) | Err(error: Error) {
    predicate IsFailure() { Err? }
    function PropagateFailure<U>(): Result<U>
      requires Err?
    {
      Err(error)
    }
    function Extract(): T
      requires Ok?
    {
      value
    }
  }

  /** JavaScript truthiness of an optional string: absent and "" are falsy. */
  predicate Truthy(s: Option<string>) {
    s.Some? && s.value != ""
  }

  /** `a || b` on optional strings. */
  function OrElse(a: Option<string>, b: string): string {
    if Truthy(a) then a.value else b
  }
}
