/** The response dictionaries the handlers return to API Gateway.  The
    JSON text of a body is represented by its structure. */
module Http {

  datatype Body =
    | Empty                                       // ''
    | Message(message: string)                    // {"message": ...}
    | ErrorReport(message: string, error: string) // {"message": ..., "error": str(e)}
    | Shortened(longUrl: string, shortUrl: string) // {"long_url": ..., "short_url": ...}

  datatype Response = Response(statusCode: int, headers: map<string, string>, body: Body)

  const JsonHeaders: map<string, string> := map["Content-Type" := "application/json"]

  function JsonResponse(statusCode: int, body: Body): (r: Response) {
    Response(statusCode, JsonHeaders, body)
  }

  /** The catch-all `except Exception as e` response of both handlers. */
  function InternalError(error: string): (r: Response) {
    JsonResponse(500, ErrorReport("Internal Server Error", error))
  }
}
