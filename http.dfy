/** The HTTP errors the routers raise with `HTTPException`. */
module Http {

  datatype HttpError = BadRequest | Unauthorized | NotFound | InternalServerError

  function StatusCode(e: HttpError): (code: int)
    ensures 400 <= code < 600
  {
    match e
    case BadRequest => 400
    case Unauthorized => 401
    case NotFound => 404
    case InternalServerError => 500
  }
}
