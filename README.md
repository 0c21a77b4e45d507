# URL shortener: a Dafny model of the two Lambda handlers

The system is a URL shortener made of two AWS Lambda handlers that share one
DynamoDB table, `ShortenedUrls`, keyed by `short_code`:

- the **create** handler reads `{"url": ...}` from the request body, draws a
  6-character code from the 62 letters and digits, writes
  `short_code -> (long_url, created_at)` to the table and answers 200 (or 400
  for a missing body or URL, 500 for anything that raises);
- the **retrieve** handler reads `short_code` from the path parameters, looks
  it up and answers 301 with a `Location` header (or 404 when the code is
  unknown, 400 when no code is given, 500 for anything that raises).

The model keeps the code's own behaviour. In particular:

- the write is a blind `put_item`, with no collision check and no retry;
- the success response's `short_url` is the literal text
  `https://your.api.endpoint/{short_code}`, because the f-string doubles its braces;
- every exception becomes the same 500 response.

Modules, one per component:

- `Wrappers`: `Option` and `Result`.
- `ShortCode`: `generate_short_code` as a function of the random draws. It also
  has the inverse of that function, which shows that generation is a
  bijection between draw sequences and codes.
- `Http`: the response dictionaries. Bodies are kept as structured values, not JSON text.
- `UrlStore`: the table, a class with a `map` field, and its `put_item`.
- `CreateUrl`: the create handler. `Create` is the specification function,
  giving the response and the new table. `Handler` is the imperative method
  on a `Table` that is proved equal to it.
- `RetrieveUrl`: the retrieve handler, a function of the table contents.
- `RoundTrip`: lemmas about create followed by retrieve.

Inputs that stand for foreign calls:

- the random draws: a `seq<Pick>` of indices below 62;
- the result of the time call: `Result<nat, string>`;
- the error `put_item` or `get_item` raises, if any: `Option<string>`;
- the outcome of `json.loads(event['body'])` and `body.get('url')`: either the
  error one of them raised, or the (optional) `url` string.

## Model

| member | source | states |
|---|---|---|
| `ShortCode.AlphabetPositions` | lambda_functions/create_url_lambda/index.py:15 | `ascii_letters + digits` has 62 symbols, and the symbol at position k is the one `SymbolAt` computes (a-z, then A-Z, then 0-9) |
| `ShortCode.GenerateShortCode` | lambda_functions/create_url_lambda/index.py:13-16 | a code generated with `length` draws has exactly `length` characters, each a letter or a digit |
| `ShortCode.GeneratedCodeInAlphabet` | lambda_functions/create_url_lambda/index.py:15-16 | every character of a generated code lies in `ascii_letters + digits` |
| `ShortCode.AlphabetIsLettersAndDigits` | lambda_functions/create_url_lambda/index.py:15 | the alphabet is exactly the characters a-z, A-Z and 0-9 |
| `ShortCode.DecodeGenerated` | lambda_functions/create_url_lambda/index.py:13-16 | decoding a generated code gives back the draws that produced it |
| `ShortCode.GenerateDecoded` | lambda_functions/create_url_lambda/index.py:13-16 | every string over the alphabet is the code generated from its own decoding |
| `ShortCode.GenerateInjective` | lambda_functions/create_url_lambda/index.py:16 | different draw sequences of one length give different codes, so uniform draws make every code equally likely |
| `ShortCode.ShortCodesAreGenerated` | lambda_functions/create_url_lambda/index.py:13-16 | a string is a 6-character alphanumeric code if and only if some 6 draws generate it |
| `UrlStore.Table.constructor` | lambda_functions/create_url_lambda/index.py:11 | the shared table starts with whatever items it already holds |
| `UrlStore.Table.PutItem` | lambda_functions/create_url_lambda/index.py:42-48 | a successful put sets the key to the item and replaces any previous item under that key; a failing put changes nothing and reports its error |
| `CreateUrl.Create` | lambda_functions/create_url_lambda/index.py:21-65 | no `body` key gives 400 "Missing request body"; a body that cannot be read gives 500 "Internal Server Error" with the error; a missing or empty `url` gives 400 "URL not provided"; a failing clock or write gives 500; the status is 200 exactly when the URL is accepted and both foreign calls succeed, and then the response echoes the URL with the constant `short_url` and the table gains the generated code mapped to (URL, time); every other outcome leaves the table unchanged; a well-formed table stays well-formed |
| `CreateUrl.Handler` | lambda_functions/create_url_lambda/index.py:18-65 | the handler's validation, generation, write and response steps, run against the table object, give the response and new table contents of `Create` |
| `CreateUrl.ResponseIgnoresCode` | lambda_functions/create_url_lambda/index.py:50-57 | the response does not depend on the random draws: the code is not interpolated, and `short_url` is the same constant for every draw |
| `CreateUrl.BlindWrite` | lambda_functions/create_url_lambda/index.py:39-48 | on success the keys become the old keys plus the code, the code maps to the new record whatever it held before, and every other key keeps its record |
| `RetrieveUrl.Handler` | lambda_functions/retrieve_url_lambda/index.py:11-51 | 301 exactly when a non-empty code is given, the lookup succeeds and the code is stored, with only a `Location` header equal to the stored URL and an empty body; 404 "Short code not found" exactly when the code is not stored; 400 "Short code not provided" exactly when `pathParameters` is absent or lacks a non-empty `short_code`; null `pathParameters` and a failing lookup give 500 "Internal Server Error" with the error; the table is only read |
| `RetrieveUrl.ExactKeyLookup` | lambda_functions/retrieve_url_lambda/index.py:25-26 | the response depends on the table only through the record at the requested key |
| `RetrieveUrl.ForeignCodeNotFound` | lambda_functions/retrieve_url_lambda/index.py:25-43 | on a table that only the create handler wrote to, a non-empty code that is not a 6-character alphanumeric code is not found |
| `RoundTrip.RetrieveStored` | lambda_functions/retrieve_url_lambda/index.py:25-37 | retrieving a code just written redirects to the URL written |
| `RoundTrip.CreateThenRetrieve` | lambda_functions/create_url_lambda/index.py:39-57 | after a successful create, retrieving the generated code gives 301 with `Location` equal to the request's URL, which is the `long_url` of the create response |
| `RoundTrip.LaterCreateOverwritesOnlyItsOwnCode` | lambda_functions/create_url_lambda/index.py:42-48 | a second successful create keeps the first link unless it draws the same code, in which case the first code now redirects to the second URL |
| `RoundTrip.ReplayKeysAreIssued` | lambda_functions/create_url_lambda/index.py:39-48 | after a sequence of create calls on an empty table, the stored codes are exactly the codes the successful calls drew |
| `RoundTrip.NeverIssuedNotFound` | lambda_functions/retrieve_url_lambda/index.py:25-43 | after a sequence of create calls on an empty table, a non-empty code that no successful call drew gives 404 "Short code not found" |
| `RoundTrip.EmptyTableNotFound` | lambda_functions/retrieve_url_lambda/index.py:38-43 | on an empty table every non-empty code gives 404 |
| `RoundTrip.ShortenThenResolve` | lambda_functions/create_url_lambda/index.py:18-57 | shortening `https://example.com/a/very/long/path` on a fresh table answers 200 with that URL, and resolving the generated code then redirects to it |

## Left out

- DynamoDB client construction and the `TABLE_NAME` lookup: the table is an in-memory map.
- `print` logging is left out. So is the JSON text of events and responses: bodies are structured values.
- The `random` module: its choices are an input sequence of indices below 62. No probability is modelled beyond the bijection lemmas.
- `boto3.util.current_time_millis()`: its result, a number or the error it raises, is an input. Published boto3 has a `boto3.utils` module and no `boto3.util`. If that holds for the deployed version, the call always raises and every accepted request gets a 500. The model leaves this choice open.
- `str(e)` of an exception is an input string, except that the text of `.get` on null `pathParameters` at `retrieve_url_lambda/index.py:16` is written out. The other exceptions the handlers raise arrive as inputs. One is `body.get('url')` on a JSON body that is not an object (`create_url_lambda/index.py:30`), which is `Unreadable(error)`. Another is the attribute access `boto3.util` (`create_url_lambda/index.py:46`), which is a failing clock.
- A `url` or `short_code` whose JSON value is not a string (a number, a list, `true`) is not modelled: both are strings or absent. A falsy non-string `url` would give 400 like an empty one. A truthy non-string `url` goes to `put_item`. Some such values, such as a float, make the DynamoDB serializer raise, which is a write fault (500, nothing written). Others would be stored with a non-string `long_url`.
- A stored item without `long_url`, or an empty item (`KeyError` or falsy `item`), is not modelled. Items are only ever written with both attributes.
- A write that fails after DynamoDB applied it (a timeout) is not modelled: a failing `put_item` leaves the table unchanged.
- Read consistency: `get_item` at `retrieve_url_lambda/index.py:25` is called without `ConsistentRead=True`, so it is an eventually consistent read, and right after a create the real handler can answer 404. The model's lookup always sees the latest write, so `CreateThenRetrieve` and `LaterCreateOverwritesOnlyItsOwnCode` state what a strongly consistent read returns.
- Concurrent invocations: each handler call is one atomic step on the map.
- Collision detection, conditional insert and bounded retries are not modelled, because the code has none of them. `BlindWrite` and `LaterCreateOverwritesOnlyItsOwnCode` state the overwrite the code does instead.
