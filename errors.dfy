/** The exceptions the core raises, with their status codes and messages. */
module Errors {

  const HTTP_400_BAD_REQUEST: int := 400
  const HTTP_401_UNAUTHORIZED: int := 401
  const HTTP_403_FORBIDDEN: int := 403
  const HTTP_404_NOT_FOUND: int := 404

  datatype Error =
    | HttpException(statusCode: int, detail: string)
      /** Raised by the user update for a key that may not change. */
    | KeyError(message: string)
      /** Raised when a string `_id` is not a valid document id. */
    | InvalidId(text: string)
      /** Raised by the collection when an inserted `_id` is already present. */
    | DuplicateKeyError

  const EmailAlreadyTaken: Error := HttpException(HTTP_400_BAD_REQUEST, "Email already taken")
  const InvalidPasswordLength: Error :=
    HttpException(HTTP_400_BAD_REQUEST, "Invalid password length. Password length must be at least 8 characters")
  const UserNotFound: Error := HttpException(HTTP_404_NOT_FOUND, "User not found")
  /** The shared 401 exception; it also carries a `WWW-Authenticate: Bearer` header. */
  const CredentialsException: Error := HttpException(HTTP_401_UNAUTHORIZED, "Could not validate credentials")
  const InvalidTokenType: Error := HttpException(HTTP_400_BAD_REQUEST, "Invalid token type")
  const AccountNotActivated: Error := HttpException(HTTP_403_FORBIDDEN, "User account not activated")
  const AccountDisabled: Error := HttpException(HTTP_403_FORBIDDEN, "User account disabled")
  const UnauthorizedAction: Error := HttpException(HTTP_403_FORBIDDEN, "Unautorized action")
  const RoleNotPermitted: Error := HttpException(HTTP_403_FORBIDDEN, "User role not permitted to perform this action")

  /** The message of the KeyError raised for an immutable key. */
  function ImmutableKey(key: string): Error
  {
    KeyError("Invalid Key. KEY " + key + " cannot be changed")
  }
}
