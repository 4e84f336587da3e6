/** What an Express handler answers: `res.status(code).json(body)`. */
module Http {

  /** The JSON bodies the controllers send. */
  datatype Body<T> =
    | ErrorBody(error: string)
    | MessageBody(message: string)
    | ListBody(items: seq<T>)

  datatype Response<T> = Response(status: int, body: Body<T>)
}
