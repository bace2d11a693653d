/** What the core sees of an HTTP exchange once the wire is stripped away:
    the decoded JSON body (or the decoder's failure), the status line, and
    the cookies the shared jar holds afterwards. */
module Http {

  /** A cookie as the jar lists it for the community URL. */
  datatype Cookie = Cookie(Name: string, Value: string)

  /** The outcome of `json.NewDecoder(r.Body).Decode(&v)`. */
  datatype Body<T> = Decoded(value: T) | Undecodable(cause: string)

  /** A reply in the login flow: its body, and the contents of the cookie jar
      once the client has stored the reply's cookies. */
  datatype Reply<T> = Reply(body: Body<T>, cookies: seq<Cookie>)

  /** A reply in the chat protocol, where the status code is checked. */
  datatype Response<T> = Response(StatusCode: int, Status: string, body: Body<T>)
}
