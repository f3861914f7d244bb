/** The HTTP side of the Express handlers: the part of a request a handler
    reads, and the single response it sends. */
module Http {
  import opened Js

  /** `req.user`, set by Passport when the session holds a principal. */
  datatype Request<U> = Request(user: Option<U>)

  /** Passport's `req.isAuthenticated()`: a principal is attached. */
  predicate IsAuthenticated<U>(req: Request<U>) {
    req.user.Some?
  }

  /** The JSON bodies the handlers send. `V` is the type of the service value passed through. */
  datatype Body<V> =
    | ErrorBody(error: string)                           // { error }
    | MessageBody(message: string)                       // { message }
    | UploadedBody(message: string, publicId: string)    // { message, publicId }
    | ColorsBody(colors: V)                              // { colors }
    | ImageTagBody(imageTag: V)                          // { imageTag }
    | ValueBody(value: V)                                // the value itself
    | StatusBody(isAuthenticated: bool, user: Option<V>) // { isAuthenticated, user? }

  /** The one response a handler sends: a status with a JSON body, or a redirect. */
  datatype Reply<V> = Json(status: nat, body: Body<V>) | Redirect(location: string)
}
