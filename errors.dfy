/**
 * The error taxonomy of src/errors: five error classes, each an `Error` whose
 * only added field is a `statusCode` fixed by the class.
 */
module Errors {
  import opened Wrappers

  /**
   * The named status constants of src/types/status. Their numeric values are
   * not part of this model; the constructors are distinct by construction.
   * EXPRESS_DEFAULT stands for a response whose status the handler never set.
   */
  datatype Status =
    | REQUEST_SUCCESS
    | CREATED_SUCCESS
    | VALIDATION_ERROR
    | UNAUTHORIZED
    | FORBIDDEN_ACTION
    | DATA_NOT_FOUND
    | CONFLICT_ERROR
    | SERVER_ERROR
    | EXPRESS_DEFAULT

  /**
   * An error of one of the five classes, carrying the `message` given to its
   * constructor. None stands for `super(undefined)`: the error then has no own
   * `message` property, and reading `.message` gives "" from `Error.prototype`.
   */
  datatype Err =
    | Validation(msg: Option<string>)
    | NotFound(msg: Option<string>)
    | Conflict(msg: Option<string>)
    | Forbidden(msg: Option<string>)
    | Unauthorized(msg: Option<string>)

  /** The status constant each class assigns in its constructor; every status it yields is an error status. */
  function StatusCode(e: Err): (s: Status)
    ensures s == VALIDATION_ERROR <==> e.Validation?
    ensures s == DATA_NOT_FOUND <==> e.NotFound?
    ensures s == CONFLICT_ERROR <==> e.Conflict?
    ensures s == FORBIDDEN_ACTION <==> e.Forbidden?
    ensures s == UNAUTHORIZED <==> e.Unauthorized?
  {
    match e
    case Validation(_) => VALIDATION_ERROR
    case NotFound(_) => DATA_NOT_FOUND
    case Conflict(_) => CONFLICT_ERROR
    case Forbidden(_) => FORBIDDEN_ACTION
    case Unauthorized(_) => UNAUTHORIZED
  }

  /** `new validationError(message)`: cannot fail, keeps the message, status VALIDATION_ERROR. */
  function NewValidationError(message: Option<string>): (e: Err)
    ensures e.msg == message && StatusCode(e) == VALIDATION_ERROR
  {
    Validation(message)
  }

  /** `new forbiddenError(message)`: cannot fail, keeps the message, status FORBIDDEN_ACTION. */
  function NewForbiddenError(message: Option<string>): (e: Err)
    ensures e.msg == message && StatusCode(e) == FORBIDDEN_ACTION
  {
    Forbidden(message)
  }

  /** `new unauthorizedError(message)`: cannot fail, keeps the message, status UNAUTHORIZED. */
  function NewUnauthorizedError(message: Option<string>): (e: Err)
    ensures e.msg == message && StatusCode(e) == UNAUTHORIZED
  {
    Unauthorized(message)
  }

  /** `new conflictError(message)`: cannot fail, keeps the message, status CONFLICT_ERROR. */
  function NewConflictError(message: Option<string>): (e: Err)
    ensures e.msg == message && StatusCode(e) == CONFLICT_ERROR
  {
    Conflict(message)
  }

  /** `new notFoundError(message)`: cannot fail, keeps the message, status DATA_NOT_FOUND. */
  function NewNotFoundError(message: Option<string>): (e: Err)
    ensures e.msg == message && StatusCode(e) == DATA_NOT_FOUND
  {
    NotFound(message)
  }

  /**
   * The observable fields of an error object: the base `message` (None: no own
   * `message` property) and the added `statusCode`.
   */
  datatype ErrorFields = ErrorFields(message: Option<string>, statusCode: Status)

  function Fields(e: Err): ErrorFields {
    ErrorFields(e.msg, StatusCode(e))
  }

  /** Reads an error back from its two fields; a status no error class uses gives None. */
  function FromFields(f: ErrorFields): (r: Option<Err>)
    ensures r.Some? <==> f.statusCode in {VALIDATION_ERROR, DATA_NOT_FOUND, CONFLICT_ERROR, FORBIDDEN_ACTION, UNAUTHORIZED}
  {
    match f.statusCode
    case VALIDATION_ERROR => Some(Validation(f.message))
    case DATA_NOT_FOUND => Some(NotFound(f.message))
    case CONFLICT_ERROR => Some(Conflict(f.message))
    case FORBIDDEN_ACTION => Some(Forbidden(f.message))
    case UNAUTHORIZED => Some(Unauthorized(f.message))
    case _ => None
  }

  /**
   * `message` and `statusCode` are all an error carries: the two fields give the
   * error back, and two errors with the same fields are the same error.
   */
  lemma FieldsDetermineError(e: Err, e': Err)
    ensures FromFields(Fields(e)) == Some(e)
    ensures Fields(e) == Fields(e') <==> e == e'
  {
  }

  /** The status depends on the class alone, never on the message. */
  lemma StatusIgnoresMessage(e: Err, m: Option<string>)
    ensures StatusCode(e.(msg := m)) == StatusCode(e)
    ensures e.(msg := m).msg == m
  {
  }
}
