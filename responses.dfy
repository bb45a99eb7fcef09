/** The outcomes a request handler can send back, with their HTTP status codes. */
module Responses {

  /** `Ok` is 200 with a document, `Created` is 201 with the new document,
      `Deleted` is 200 with a confirmation only, `BadRequest` is 400 with the
      validation message, `NotFound` is 404 and `ServerError` is the generic 500
      that every handler's catch block sends. */
  datatype Response<+T> =
    | Ok(body: T)
    | Created(body: T)
    | Deleted
    | BadRequest(message: string)
    | NotFound
    | ServerError

  function StatusCode<T>(r: Response<T>): (code: nat)
    ensures 200 <= code < 600
    ensures code == 404 <==> r.NotFound?
    ensures code == 400 <==> r.BadRequest?
  {
    match r
    case Ok(_) => 200
    case Created(_) => 201
    case Deleted => 200
    case BadRequest(_) => 400
    case NotFound => 404
    case ServerError => 500
  }
}
