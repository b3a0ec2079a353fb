/**
 * ValidationException: the service layer's validation failure, a message
 * with a mutable map from field name to error message. The services in
 * this model throw it as the `Failure.Validation` value; `AsFailure` is the
 * bridge between the object and that value.
 */
module ValidationErrors {
  import opened Wrappers

  class ValidationException {
    const message: string
    var validationErrors: map<string, string>

    /** The message-only constructor: no field errors. */
    constructor (message: string)
      ensures this.message == message && validationErrors == map[]
      ensures !HasErrors()
    {
      this.message := message;
      validationErrors := map[];
    }

    /** The map constructor: a copy of the given map, and a null map gives none. */
    constructor WithErrors(message: string, errors: Option<map<string, string>>)
      ensures this.message == message
      ensures errors.Some? ==> validationErrors == errors.value
      ensures errors.None? ==> validationErrors == map[]
      ensures HasErrors() <==> errors.Some? && errors.value != map[]
    {
      this.message := message;
      validationErrors := if errors.Some? then errors.value else map[];
    }

    /**
     * addValidationError: stores the message under the field, replacing
     * any earlier one, and hands back this same exception for chaining.
     */
    method AddValidationError(field: string, errorMessage: string) returns (self: ValidationException)
      modifies this
      ensures self == this
      ensures validationErrors == old(validationErrors)[field := errorMessage]
      ensures field in validationErrors && validationErrors[field] == errorMessage && HasErrors()
      ensures forall f :: f != field ==> (f in validationErrors <==> f in old(validationErrors))
    {
      validationErrors := validationErrors[field := errorMessage];
      self := this;
    }

    /**
     * getValidationErrors: a copy. A Dafny map is a value, so what the
     * caller gets cannot alias the exception's own map.
     */
    function GetValidationErrors(): (r: map<string, string>)
      reads this
      ensures forall f :: f in r <==> f in validationErrors
      ensures forall f :: f in r ==> r[f] == validationErrors[f]
    {
      validationErrors
    }

    /** hasErrors: some field carries an error. */
    predicate HasErrors()
      reads this
      ensures HasErrors() <==> exists f :: f in validationErrors
    {
      validationErrors != map[]
    }

    /** The exception as the value the services return. */
    function AsFailure(): (r: Failure)
      reads this
      ensures r.Validation? && r.message == message && r.errors == GetValidationErrors()
    {
      Validation(message, validationErrors)
    }
  }

}
