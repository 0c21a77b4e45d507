/** The create handler (`lambda_functions/create_url_lambda/index.py`):
    validate the request, generate a code, write the item, answer. */
module CreateUrl {
  import opened Wrappers
  import opened ShortCode
  import opened Http
  import opened UrlStore

  /** The result of `json.loads(event['body'])` followed by `body.get('url')`:
      the error one of them raised (a malformed or null body, a body that
      is not an object), or the value of `url`, None when the key is absent. */
  datatype RequestBody = Unreadable(error: string) | Parsed(url: Option<string>)

  /** The Lambda event; `body` is None when the event has no `body` key. */
  datatype Event = Event(body: Option<RequestBody>)

  /** The `short_url` of every success response.  The f-string doubles its
      braces, so the code is not interpolated: the text is this constant
      for every draw. */
  const ShortUrl: string := "https://your.api.endpoint/{short_code}"

  /** `not long_url` is false: the key is present and the string non-empty. */
  predicate Truthy(url: Option<string>) {
    url.Some? && url.value != ""
  }

  /** The request carries a URL the handler accepts. */
  predicate Accepted(event: Event) {
    event.body.Some? && event.body.value.Parsed? && Truthy(event.body.value.url)
  }

  /** A handler invocation: its response and the table afterwards. */
  datatype Outcome = Outcome(response: Response, items: map<string, Record>)

  /** What one invocation does to a table holding `items`.  `draws` are the
      choices of the random source, `clock` the result of the time call
      (a value or the error it raised), `writeFault` the error `put_item`
      raises, if any. */
  function Create(items: map<string, Record>, event: Event, draws: seq<Pick>,
                  clock: Result<nat, string>, writeFault: Option<string>): (o: Outcome)
    requires |draws| == DefaultLength
    ensures o.response.statusCode in {200, 400, 500}
    ensures o.response.statusCode == 200 <==> Accepted(event) && clock.Success? && writeFault.None?
    ensures o.response.statusCode == 200 ==>
      && o.response == JsonResponse(200, Shortened(event.body.value.url.value, ShortUrl))
      && o.items == items[GenerateShortCode(DefaultLength, draws) := Record(event.body.value.url.value, clock.value)]
    ensures o.response.statusCode != 200 ==> o.items == items
    ensures event.body.None? ==> o.response == JsonResponse(400, Message("Missing request body"))
    ensures event.body.Some? && event.body.value.Unreadable? ==> o.response == InternalError(event.body.value.error)
    ensures event.body.Some? && event.body.value.Parsed? && !Truthy(event.body.value.url) ==>
      o.response == JsonResponse(400, Message("URL not provided"))
    ensures Accepted(event) && clock.Failure? ==> o.response == InternalError(clock.error)
    ensures Accepted(event) && clock.Success? && writeFault.Some? ==> o.response == InternalError(writeFault.value)
    ensures WellFormed(items) ==> WellFormed(o.items)
  {
    match event.body
    case None => Outcome(JsonResponse(400, Message("Missing request body")), items)
    case Some(Unreadable(error)) => Outcome(InternalError(error), items)
    case Some(Parsed(url)) =>
      if !Truthy(url) then Outcome(JsonResponse(400, Message("URL not provided")), items)
      else
        var shortCode := GenerateShortCode(DefaultLength, draws);
        match clock
        case Failure(error) => Outcome(InternalError(error), items)
        case Success(now) =>
          match writeFault
          case Some(error) => Outcome(InternalError(error), items)
          case None =>
            Outcome(JsonResponse(200, Shortened(url.value, ShortUrl)), items[shortCode := Record(url.value, now)])
  }

  /** `handler(event, context)` against the shared table. */
  method Handler(table: Table, event: Event, draws: seq<Pick>,
                 clock: Result<nat, string>, writeFault: Option<string>) returns (response: Response)
    requires |draws| == DefaultLength
    modifies table
    ensures Outcome(response, table.items) == Create(old(table.items), event, draws, clock, writeFault)
  {
    if event.body.None? {
      return JsonResponse(400, Message("Missing request body"));
    }
    var body := event.body.value;
    if body.Unreadable? {
      return InternalError(body.error);
    }
    var longUrl := body.url;
    if !Truthy(longUrl) {
      return JsonResponse(400, Message("URL not provided"));
    }
    var shortCode := GenerateShortCode(DefaultLength, draws);
    if clock.Failure? {
      return InternalError(clock.error);
    }
    var error := table.PutItem(shortCode, Record(longUrl.value, clock.value), writeFault);
    if error.Some? {
      return InternalError(error.value);
    }
    return JsonResponse(200, Shortened(longUrl.value, ShortUrl));
  }

  /** The response does not depend on the generated code: two invocations
      that differ only in their random draws answer the same. */
  lemma ResponseIgnoresCode(items: map<string, Record>, event: Event, d1: seq<Pick>, d2: seq<Pick>,
                            clock: Result<nat, string>, writeFault: Option<string>)
    requires |d1| == DefaultLength && |d2| == DefaultLength
    ensures Create(items, event, d1, clock, writeFault).response == Create(items, event, d2, clock, writeFault).response
  {
  }

  /** The write is blind: a record already stored under the generated code
      is replaced, and every other key keeps its record. */
  lemma BlindWrite(items: map<string, Record>, event: Event, draws: seq<Pick>, now: nat, key: string)
    requires |draws| == DefaultLength
    requires Accepted(event)
    ensures var o := Create(items, event, draws, Success(now), None);
      var code := GenerateShortCode(DefaultLength, draws);
      && o.items.Keys == items.Keys + {code}
      && o.items[code] == Record(event.body.value.url.value, now)
      && (key in items && key != code ==> key in o.items && o.items[key] == items[key])
  {
  }
}
