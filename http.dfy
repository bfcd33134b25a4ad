/** The JSON responses the route handlers build with `NextResponse.json`: a status code and a body. */
module Http {
  import opened Wrappers

  /** A JSON payload, or the `{ error, message }` object of a failed request (`None` leaves `message` out). */
  datatype Body<T> = Json(payload: T) | Problem(error: string, message: Option<string>)

  datatype Reply<T> = Reply(status: nat, body: Body<T>)
}
