/** Optional values and handler outcomes shared by every router model. */
module Wrappers {

  datatype Option<+T> = None | Some(value: T)

  /** The error kinds the handlers answer with: 400, 401, 403, 404, 409 and 500. */
  datatype Status = BadRequest | Unauthorized | Forbidden | NotFound | Conflict | ServerError

  /** A handler either succeeds with a value or answers with an error kind. */
  datatype Result<+T> = Ok(value: T) | Err(status: Status)
}
