/**
 * The shapes shared by the Express handlers of the backend: the outcome of
 * an awaited call into the database, bcrypt or JWT (a value, or a throw),
 * the JSON reply with its status, and the cookies a reply sets.
 */
module Express {
  import opened JsValues

  /** An awaited call that either returned a value or threw. */
  datatype Outcome<+T> = Returned(value: T) | Threw(message: string)

  /** The token pair `generateAccessAndRefreshToken` resolves to. */
  datatype Tokens = Tokens(access: string, refresh: string)

  datatype Cookie = Cookie(name: string, value: string, httpOnly: bool, secure: bool)

  /**
   * `res.status(status).cookie(...).json({ success, message, data })`: `user`
   * is the id of the user document in `data` (None for null or absent), and
   * the tokens are those placed in `data`.
   */
  datatype Reply = Reply(
    status: int, success: bool, message: string,
    user: Option<string>, accessToken: Option<string>, refreshToken: Option<string>,
    cookies: seq<Cookie>)

  /** A reply with `success: false` and no data. */
  function Failure(status: int, message: string): Reply
  {
    Reply(status, false, message, None, None, None, [])
  }

  const ServerError := "Server error"
}
