/** How the two handlers compose over the shared table. */
module RoundTrip {
  import opened Wrappers
  import opened ShortCode
  import opened Http
  import opened UrlStore
  import CreateUrl
  import RetrieveUrl

  /** The retrieve event for a code taken from the request path. */
  function PathEvent(code: string): (event: RetrieveUrl.Event) {
    RetrieveUrl.Event(RetrieveUrl.Params(Some(code)))
  }

  /** Retrieving a code just written redirects to the written URL. */
  lemma RetrieveStored(items: map<string, Record>, code: string, record: Record)
    requires code != ""
    ensures RetrieveUrl.Handler(items[code := record], PathEvent(code), None) ==
      Response(301, map["Location" := record.longUrl], Empty)
  {
  }

  /** After a successful create, retrieving the generated code redirects to
      the `long_url` the create response reported, which is the request's URL. */
  lemma {:induction false} CreateThenRetrieve(items: map<string, Record>, event: CreateUrl.Event, draws: seq<Pick>,
                           clock: Result<nat, string>, writeFault: Option<string>)
    requires |draws| == DefaultLength
    requires CreateUrl.Create(items, event, draws, clock, writeFault).response.statusCode == 200
    ensures var o := CreateUrl.Create(items, event, draws, clock, writeFault);
      var code := GenerateShortCode(DefaultLength, draws);
      && o.response.body.Shortened?
      && o.response.body.longUrl == event.body.value.url.value
      && RetrieveUrl.Handler(o.items, PathEvent(code), None) ==
         Response(301, map["Location" := o.response.body.longUrl], Empty)
  {
    var code := GenerateShortCode(DefaultLength, draws);
    RetrieveStored(items, code, Record(event.body.value.url.value, clock.value));
  }

  /** A later successful create keeps an earlier link unless it draws the
      same code, in which case the earlier link now redirects to the later URL. */
  lemma LaterCreateOverwritesOnlyItsOwnCode(items: map<string, Record>, first: CreateUrl.Event, second: CreateUrl.Event,
                                            d1: seq<Pick>, d2: seq<Pick>, t1: nat, t2: nat)
    requires |d1| == DefaultLength && |d2| == DefaultLength
    requires CreateUrl.Accepted(first) && CreateUrl.Accepted(second)
    ensures var after := CreateUrl.Create(CreateUrl.Create(items, first, d1, Success(t1), None).items,
                                          second, d2, Success(t2), None).items;
      var code := GenerateShortCode(DefaultLength, d1);
      var url := if d1 == d2 then second.body.value.url.value else first.body.value.url.value;
      RetrieveUrl.Handler(after, PathEvent(code), None) == Response(301, map["Location" := url], Empty)
  {
    if d1 != d2 {
      if GenerateShortCode(DefaultLength, d1) == GenerateShortCode(DefaultLength, d2) {
        GenerateInjective(DefaultLength, d1, d2);
      }
    }
  }

  /** On an empty table every non-empty code is not found. */
  lemma EmptyTableNotFound(code: string)
    requires code != ""
    ensures RetrieveUrl.Handler(map[], PathEvent(code), None).statusCode == 404
  {
  }

  /** One invocation of the create handler: the event and the foreign results. */
  datatype CreateCall = CreateCall(event: CreateUrl.Event, draws: seq<Pick>,
                                   clock: Result<nat, string>, writeFault: Option<string>)

  /** Every call comes with the draws of one default-length code. */
  predicate ValidCalls(calls: seq<CreateCall>) {
    forall i :: 0 <= i < |calls| ==> |calls[i].draws| == DefaultLength
  }

  /** The call answers 200 and writes its code. */
  predicate Succeeds(call: CreateCall) {
    CreateUrl.Accepted(call.event) && call.clock.Success? && call.writeFault.None?
  }

  /** The table after the calls, in order, starting from `items`. */
  function Replay(items: map<string, Record>, calls: seq<CreateCall>): (after: map<string, Record>)
    requires ValidCalls(calls)
    decreases |calls|
  {
    if calls == [] then items
    else
      var last := calls[|calls| - 1];
      CreateUrl.Create(Replay(items, calls[..|calls| - 1]), last.event, last.draws, last.clock, last.writeFault).items
  }

  /** The codes the successful calls drew. */
  function Issued(calls: seq<CreateCall>): (codes: set<string>)
    requires ValidCalls(calls)
    decreases |calls|
  {
    if calls == [] then {}
    else
      var last := calls[|calls| - 1];
      Issued(calls[..|calls| - 1]) + if Succeeds(last) then {GenerateShortCode(DefaultLength, last.draws)} else {}
  }

  /** Starting from an empty table, the stored codes are exactly the issued ones. */
  lemma {:induction false} ReplayKeysAreIssued(calls: seq<CreateCall>)
    requires ValidCalls(calls)
    ensures Replay(map[], calls).Keys == Issued(calls)
    decreases |calls|
  {
    if calls != [] {
      var prefix := calls[..|calls| - 1];
      assert ValidCalls(prefix);
      ReplayKeysAreIssued(prefix);
    }
  }

  /** A code that no successful create issued is not found. */
  lemma NeverIssuedNotFound(calls: seq<CreateCall>, code: string)
    requires ValidCalls(calls)
    requires code != "" && code !in Issued(calls)
    ensures RetrieveUrl.Handler(Replay(map[], calls), PathEvent(code), None) ==
      JsonResponse(404, Message("Short code not found"))
  {
    ReplayKeysAreIssued(calls);
  }

  /** The shortening of a long path, then its resolution, on a fresh table. */
  method ShortenThenResolve(draws: seq<Pick>, now: nat) returns (created: Response, resolved: Response)
    requires |draws| == DefaultLength
    ensures created == JsonResponse(200, Shortened("https://example.com/a/very/long/path", CreateUrl.ShortUrl))
    ensures resolved == Response(301, map["Location" := "https://example.com/a/very/long/path"], Empty)
  {
    var table := new Table(map[]);
    var url := "https://example.com/a/very/long/path";
    created := CreateUrl.Handler(table, CreateUrl.Event(Some(CreateUrl.Parsed(Some(url)))), draws, Success(now), None);
    resolved := RetrieveUrl.Handler(table.items, PathEvent(GenerateShortCode(DefaultLength, draws)), None);
  }
}
