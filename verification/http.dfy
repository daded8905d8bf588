/**
 * HTTP responses of the Python services, reduced to a status code and a
 * JSON body.  FastAPI's `HTTPException` answers `{"detail": message}`; the
 * Azure Functions handler answers `{"error": message}`.
 */
module Http {
  import opened Json

  datatype Response = Response(status: nat, body: Json)

  /** A FastAPI `HTTPException(status_code, detail)`. */
  function Detail(status: nat, message: string): Response
  {
    Response(status, Obj(map["detail" := Str(message)]))
  }

  /** A handler's `{'error': message}` answer. */
  function Error(status: nat, message: string): Response
  {
    Response(status, Obj(map["error" := Str(message)]))
  }

  function Ok(body: Json): Response
  {
    Response(200, body)
  }
}
