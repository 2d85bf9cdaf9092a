/** The HTTP replies the controllers send: a status code and either an
    `{ error }` body or a payload. */
module Http {

  datatype Body<+T> = ErrorBody(error: string) | Payload(value: T)

  datatype Reply<+T> = Reply(status: int, body: Body<T>)
}
