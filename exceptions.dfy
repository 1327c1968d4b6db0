/** The business errors of the banking core and the wrappers that carry them.

    Every exception of core/exceptions.py becomes an `Error` value with a
    machine-distinguishable kind, the human-readable detail and the HTTP status
    code it carries. Raising becomes returning `Err`/`Fail`. */
module Exceptions {

  /** HTTPStatus.UNPROCESSABLE_ENTITY, the default code of every validation error. */
  const UnprocessableEntity: int := 422
  /** HTTPStatus.INTERNAL_SERVER_ERROR, the code of store failures. */
  const InternalServerError: int := 500

  datatype ErrorKind =
    | UserWeakPassword
    | UserInvalidCpf
    | UserInvalidAge
    | UserInvalidUsername
    | UserInvalidName
    | AccountTypeInvalid
    | AccountInvalidNumber
    | AccountInvalidAmount
    | TransactionError
    | DatabaseError  // DatabaseException, which the controller imports but core/exceptions.py does not define
    | MissingModel      // the AttributeError of a controller built without a model
    | MissingAttribute  // an attribute read on a rules object that does not define it
    | TypeMismatch  // a Python TypeError: an operator or a validator applied to a value of the wrong type
    | IntegrityViolation  // the driver's IntegrityError for a statement the store refuses

  datatype Error = Error(kind: ErrorKind, detail: string, code: int)

  /** A ValidationException subclass raised with its default code. */
  function Validation(kind: ErrorKind, detail: string): Error {
    Error(kind, detail, UnprocessableEntity)
  }

  datatype Option<+T> = None | Some(value: T)

  datatype Result<+T> = Ok(value: T) | Err(error: Error)

  /** The outcome of a check that returns nothing or raises. */
  datatype Outcome = Pass | Fail(error: Error)
}
