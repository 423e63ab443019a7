/** The exceptions the services raise, one constructor per exception class. */
module Errors {

  datatype Error =
    /** ResourceNotFoundException: a missing task or user. */
    | ResourceNotFound(message: string)
    /** UnauthorizedException: bad credentials, or a mutation of a task the caller may not touch. */
    | Unauthorized(message: string)
    /** DuplicateResourceException: registering an email that is already taken. */
    | DuplicateResource(message: string)
    /** The rejection raised by the method-security guard hasRole('ADMIN'). */
    | AccessDenied
    /** The store refusing a row that breaks a column constraint (length, not-null, foreign key, unique). */
    | ConstraintViolation
}
