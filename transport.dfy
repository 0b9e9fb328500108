/** The response half of `_get` and `_request`: the HTTP status decides
    between one of the `ChargifyError` subclasses and the response body.
    Opening the connection, the headers, sending and reading are I/O and
    are not modelled; the body is passed through untouched, so its type is
    a parameter. */
module Transport {
  import opened Wrappers
  import opened Errors

  datatype Verb = GET | POST | PUT | DELETE

  /** A request as the client issues it: verb, path and body. */
  datatype Request<B> = Request(verb: Verb, path: string, body: B)

  /** The statuses that raise, and the error each raises. */
  function StatusErrors(): map<int, Error> {
    map[401 := UnAuthorized, 403 := Forbidden, 404 := NotFound,
        422 := UnProcessableEntity, 405 := ServerError, 500 := ServerError]
  }

  /** The if/elif chain shared by `_get` and `_request`. */
  function Classify<B>(status: int, body: B): (r: Result<B, Error>)
    ensures r == if status in StatusErrors() then Failure(StatusErrors()[status]) else Success(body)
  {
    if status == 401 then Failure(UnAuthorized)
    else if status == 403 then Failure(Forbidden)
    else if status == 404 then Failure(NotFound)
    else if status == 422 then Failure(UnProcessableEntity)
    else if status in [405, 500] then Failure(ServerError)
    else Success(body)
  }

  /** Each listed status raises exactly its error; every other status,
      200 and 201 included, returns the body unchanged. */
  lemma ClassifyCases<B>(status: int, body: B)
    ensures Classify(status, body) == Failure(UnAuthorized) <==> status == 401
    ensures Classify(status, body) == Failure(Forbidden) <==> status == 403
    ensures Classify(status, body) == Failure(NotFound) <==> status == 404
    ensures Classify(status, body) == Failure(UnProcessableEntity) <==> status == 422
    ensures Classify(status, body) == Failure(ServerError) <==> status == 405 || status == 500
    ensures Classify(status, body).Success? <==> status !in {401, 403, 404, 405, 422, 500}
    ensures Classify(status, body).Success? ==> Classify(status, body).value == body
  {
  }
}
