/** What a handler sends back: status, JSON body and the cookies it sets. */
module Replies {
  import opened Tokens
  import opened Users
  import opened CookieOptions

  /** An error's message: literal text, or the message of an error `jsonwebtoken` threw. */
  datatype Message = Text(text: string) | JwtMessage(error: JwtError)

  datatype Body =
    | Error(error: Message)                                           // { success: false, message }
    | Registered(message: string, activationToken: Jwt, email: string)
    | Activated                                                       // { success: true }
    | SignedIn(user: User, accessToken: Jwt)
    | LoggedOut(message: string)
    | Refreshed(accessToken: Jwt)

  datatype SetCookie = SetCookie(name: string, value: Jwt, options: Options)

  /** `NoReply`: the handler never answers the request. */
  datatype Reply = NoReply | Reply(status: nat, body: Body, cookies: seq<SetCookie>)

  /** `next(new ErrorHandler(message, status))` */
  function Fail(status: nat, message: Message): Reply
  {
    Reply(status, Error(message), [])
  }

  /** A reply that reports success. */
  predicate Succeeded(r: Reply)
  {
    r.Reply? && !r.body.Error?
  }
}
