/** Outcomes of the HTTP handlers, and the status codes they are sent with.

    Every handler ends in one of these. `BadRequest` is the error handler's
    answer to a failed input-schema check (400), `StoreError` its answer to
    anything else that escapes a handler, such as a store call that fails (500). */
module Responses {

  datatype Option<+T> = None | Some(value: T)

  /** The value of an optional input, or `default` when it was omitted. */
  function OrDefault<T>(o: Option<T>, default: T): T
  {
    match o
    case Some(v) => v
    case None => default
  }

  datatype Response<+T> =
    | Ok(value: T)          // 200 with a body
    | Created(value: T)     // 201 with the created row
    | NoContent             // 204
    | BadRequest            // 400: the request failed its input schema
    | NotFound              // 404: the referenced client or allocation is absent
    | Conflict              // 409: the allocation already exists
    | StoreError            // 500: an unclassified failure, e.g. a store call that threw

  /** The HTTP status a response is sent with. */
  function StatusCode<T>(r: Response<T>): (code: int)
    ensures 200 <= code < 600
    ensures code < 300 <==> (r.Ok? || r.Created? || r.NoContent?)
    ensures code == 400 <==> r.BadRequest?
    ensures code == 500 <==> r.StoreError?
  {
    match r
    case Ok(_) => 200
    case Created(_) => 201
    case NoContent => 204
    case BadRequest => 400
    case NotFound => 404
    case Conflict => 409
    case StoreError => 500
  }
}
