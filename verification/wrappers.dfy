/**
 * Shared result types. `Option` stands for Java's nullable references and
 * `Optional`; `Outcome` stands for a service call that either returns a value
 * or throws one of the application's exceptions.
 */
module Wrappers {

  datatype Option<T> = None | Some(value: T)
  {
    predicate IsSome() { Some? }

    function GetOr(default: T): (r: T)
      ensures Some? ==> r == value
      ensures None? ==> r == default
    {
      match this
      case Some(v) => v
      case None => default
    }
  }

  /**
   * The application's exception hierarchy: ValidationException carries a
   * field -> message map, ServiceException and AuthenticationException carry
   * a message only. `Runtime` stands for an unchecked exception (a null
   * dereference, an IllegalArgumentException, a failed database constraint).
   */
  datatype Failure =
    | Validation(message: string, errors: map<string, string>)
    | Service(message: string)
    | Authentication(message: string)
    | Runtime(message: string)

  datatype Outcome<T> = Ok(value: T) | Err(failure: Failure)
  {
    predicate IsFailure() { Err? }
  }
}
