/** The two ways a FastAPI handler answers: a JSON body with a status code and headers, or an
    `HTTPException` with a status code and a detail message. */
module Http {
  import opened Wrappers

  const Ok200: int := 200
  const Created201: int := 201
  const NotFound404: int := 404
  const InternalServerError500: int := 500

  datatype Response<+B> =
    | JsonResponse(statusCode: int, body: B, headers: map<string, string>)
    | HttpError(statusCode: int, detail: string)

  /** The detail of the 500 a handler raises for an exception `e`: its prefix, then
      `{type(e).__name__} - {str(e)}`. */
  function ErrorDetail(prefix: string, e: Exception): string
  {
    prefix + e.name + " - " + e.message
  }

  /** The detail names the exception's type and message after the handler's prefix. */
  lemma ErrorDetailShape(prefix: string, e: Exception)
    ensures |ErrorDetail(prefix, e)| == |prefix| + |e.name| + 3 + |e.message|
    ensures ErrorDetail(prefix, e)[..|prefix|] == prefix
    ensures ErrorDetail(prefix, e)[|prefix|..|prefix| + |e.name|] == e.name
  {
  }
}
