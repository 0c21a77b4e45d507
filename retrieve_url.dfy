/** The retrieve handler (`lambda_functions/retrieve_url_lambda/index.py`):
    read the code from the path, look it up, redirect or report. */
module RetrieveUrl {
  import opened Wrappers
  import opened ShortCode
  import opened Http
  import opened UrlStore

  /** `event['pathParameters']`: absent (then `{}` is used), present but
      null, or a dictionary whose `short_code` may be absent. */
  datatype PathParameters = Missing | Null | Params(shortCode: Option<string>)

  datatype Event = Event(pathParameters: PathParameters)

  /** `str(e)` of the AttributeError raised by `.get` on None. */
  const NoneHasNoGet: string := "'NoneType' object has no attribute 'get'"

  /** The code the handler looks up: a non-empty `short_code`, if any. */
  function RequestedCode(event: Event): (code: Option<string>) {
    match event.pathParameters
    case Params(Some(code)) => if code != "" then Some(code) else None
    case _ => None
  }

  /** `handler(event, context)` over a table holding `items`; `lookupFault`
      is the error `get_item` raises, if any.  The table is only read. */
  function Handler(items: map<string, Record>, event: Event, lookupFault: Option<string>): (r: Response)
    ensures r.statusCode in {301, 400, 404, 500}
    ensures r.statusCode == 301 <==>
      RequestedCode(event).Some? && lookupFault.None? && RequestedCode(event).value in items
    ensures r.statusCode == 301 ==>
      r.headers == map["Location" := items[RequestedCode(event).value].longUrl] && r.body == Empty
    ensures r.statusCode == 404 <==>
      RequestedCode(event).Some? && lookupFault.None? && RequestedCode(event).value !in items
    ensures r.statusCode == 404 ==> r == JsonResponse(404, Message("Short code not found"))
    ensures r.statusCode == 400 <==> !event.pathParameters.Null? && RequestedCode(event).None?
    ensures r.statusCode == 400 ==> r == JsonResponse(400, Message("Short code not provided"))
    ensures event.pathParameters.Null? ==> r == InternalError(NoneHasNoGet)
    ensures RequestedCode(event).Some? && lookupFault.Some? ==> r == InternalError(lookupFault.value)
  {
    if event.pathParameters.Null? then InternalError(NoneHasNoGet)
    else
      match RequestedCode(event)
      case None => JsonResponse(400, Message("Short code not provided"))
      case Some(code) =>
        match lookupFault
        case Some(error) => InternalError(error)
        case None =>
          if code in items then Response(301, map["Location" := items[code].longUrl], Empty)
          else JsonResponse(404, Message("Short code not found"))
  }

  /** The lookup is by exact key: tables that agree on the requested code
      (both lack it, or both hold the same record) give the same response. */
  lemma ExactKeyLookup(m1: map<string, Record>, m2: map<string, Record>, event: Event, lookupFault: Option<string>)
    requires RequestedCode(event).Some? ==>
      var code := RequestedCode(event).value;
      (code in m1 <==> code in m2) && (code in m1 ==> m1[code] == m2[code])
    ensures Handler(m1, event, lookupFault) == Handler(m2, event, lookupFault)
  {
  }

  /** A table that only ever received writes from the create handler holds
      default-length codes alone: any other non-empty code is not found. */
  lemma ForeignCodeNotFound(items: map<string, Record>, code: string)
    requires WellFormed(items)
    requires code != "" && !IsShortCode(code)
    ensures Handler(items, Event(Params(Some(code))), None) == JsonResponse(404, Message("Short code not found"))
  {
  }
}
