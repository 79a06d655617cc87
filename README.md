# Canary REST client: a verified model

This project models the REST client of the birdsong library. The client talks
to a Canary historian server.

- It composes the address of an API endpoint from the host, the TLS flag and
  the (HTTP, HTTPS) port pair.
- It encodes the caller's payload dictionary as a JSON body. Its default hook
  turns dates, date-times and Arrow values into ISO-8601 text.
- It posts the body and keeps the parsed reply as `lastResults`.
- On this it builds two call shapes:
  - A single call. It raises when the reply reports `errors`.
  - A paginated call. It follows the server's `continuation` tokens. Each
    token is written into the caller's payload dictionary, in place, before
    the next request.

Modules:

- `Values` — the JSON documents the server sends back (`Json`). The Python
  values a payload may hold (`Value`). Python truthiness of JSON values. The
  failures the client raises.
- `Urls` — the endpoint address, the decimal text of the port, and the lemmas
  that read the address back: scheme, host, port and path.
- `Coercion` — the default hook `_coerceThingForJSON`, the argument
  normaliser `_coerceToList`, and the JSON encoder with that hook. The encoder
  is modelled as a function into a JSON tree.
- `Protocol` — the reading side of the wire protocol:
  - `Paginate` is a pure reference definition of what a paginated run yields.
  - `SingleResult` is the `errors` check of a single call.
- `Rest` — the client as a class, `RestInterface`:
  - `lastResults` is a field that every post overwrites.
  - The server is the field `server`: the replies it will give, in order.
  - Every request the client posts is appended to the field `sent`.
  - The caller's payload dictionary is a `Payload` object, which `IterPost`
    updates in place.
  - `IterPost` is the pagination loop. Its contract ties the items it yields,
    the requests it sends and the final state to `Paginate`.

Behaviour of the code that is easy to misread:

- A reply to a single call that lacks `errors` raises a KeyError before any
  other check.
- A page lacking the result key raises a KeyError. The items of the pages
  before it stay yielded.
- A tuple argument to `_coerceToList` becomes a list of its items in order.

## Model

| member | source | states |
|---|---|---|
| Urls.SelectedPort | birdsong/rest.py:74 | indexing the port pair with the TLS flag picks the HTTPS port exactly when TLS is on, and the HTTP port otherwise |
| Urls.UrlShape | birdsong/rest.py:72-76 | the address starts with `https://` exactly when TLS is on (`http://` otherwise). Then come the host and a colon, and the address ends with `/api/v1/` followed by the endpoint path |
| Urls.UrlCarriesPort | birdsong/rest.py:72-76 | between `host:` and `/api/v1/…` the address holds decimal text, with no leading zero and no `-0`, that parses back to the port the TLS flag selects |
| Urls.NatTextLeadingDigit | birdsong/rest.py:74 | the text of a positive port number starts with a digit other than zero |
| Urls.IntTextCanonical | birdsong/rest.py:74 | the `%s` text of any integer has no leading zero except in `0` itself, and no `-0` |
| Urls.ParseNatText | birdsong/rest.py:72-76 | the decimal text written for a port number reads back as that number |
| Urls.ParseIntText | birdsong/rest.py:72-76 | the `%s` text of any integer, signed, is well-formed decimal text and reads back as that integer |
| Urls.DefaultUrl | birdsong/rest.py:17-22 | with the default host and ports and TLS off, a request to `points` goes to `http://localhost:80/api/v1/points` |
| Coercion.CoerceThingForJSON | birdsong/rest.py:42-49 | the hook never returns a temporal value. A temporal value becomes exactly its ISO text. Every other value comes back unchanged |
| Coercion.CoerceThingIdempotent | birdsong/rest.py:42-49 | applying the hook to its own result changes nothing |
| Coercion.SetToList | birdsong/rest.py:62 | `list(set)` has as many elements as the set and exactly its members, in an unspecified order |
| Coercion.CoerceToList | birdsong/rest.py:56-65 | the result is always a list: a list comes back unchanged, a tuple becomes a list of its items in the same order, a set becomes a list of the same size holding exactly its members, and any other value becomes the one-element list holding it. |
| Coercion.CoerceToListIdempotent | birdsong/rest.py:56-65 | normalising an already normalised argument changes nothing |
| Coercion.CoerceToListExamples | birdsong/rest.py:56-65 | `5` gives `[5]`, `[1, 2]` is kept, and `{1, 2, 3}` gives a list of exactly those three numbers |
| Coercion.EncodeOkIff | birdsong/rest.py:51-53 | the encoder with the default hook accepts a value exactly when no set and no foreign object occurs anywhere inside it |
| Coercion.PackagePayloadOk | birdsong/rest.py:51-53 | a payload is encoded exactly when all its values are serializable. The body then has the payload's keys, and each key holds the encoding of its value |
| Coercion.PackageSendsIsoText | birdsong/rest.py:46-47 | a date-like entry of an encodable payload is sent as the JSON string of its ISO text |
| Coercion.OpaqueRefused | birdsong/rest.py:48-53 | a payload holding a foreign object, such as an open connection, is refused with a serialization error |
| Coercion.EncodeToValue | birdsong/rest.py:90-91 | encoding a parsed JSON document gives that document back, so an echoed token is sent as it was received |
| Coercion.PackageUpdate | birdsong/rest.py:90 | storing a parsed JSON value, such as a continuation token, under a key keeps the payload encodable. The body changes at that key only, to that value |
| Protocol.FirstStop | birdsong/rest.py:83 | the index of the first page whose continuation token is falsy: every page before it has a truthy token |
| Protocol.ConcatFlattenSnoc | birdsong/rest.py:84-89 | reading one more page appends that page's flattened result to the items yielded so far |
| Protocol.Paginate | birdsong/rest.py:81-98 | the reference run. Every page read before the last has a truthy token and holds the result key. A successful run ends at a page with no token that holds the key. A failed run ends with a KeyError at a page lacking the key. The items are the flattened results of the pages read, in order |
| Protocol.RunPrefixStep | birdsong/rest.py:83-91 | one loop turn over a page with a token and the result key extends the prefix invariant by that page's items |
| Protocol.PaginateEndsAt | birdsong/rest.py:83-98 | when the loop condition first fails at page `n`, the run made `n + 1` posts. It yields the items so far plus page `n`'s own items, or raises a KeyError if page `n` lacks the key |
| Protocol.PaginateStopsAtFirstStop | birdsong/rest.py:81-98 | when the pages up to the first one with no token all hold the key, the run succeeds after exactly FirstStop + 1 posts, yielding the results of all those pages |
| Protocol.SinglePageRun | birdsong/rest.py:92-98 | a page with no token yields its own items after a single post |
| Protocol.SingleResult | birdsong/rest.py:100-105 | the call succeeds, with the value under the result key, exactly when `errors` is present and falsy and the key is present. It is an API error carrying the endpoint, the errors and the payload exactly when `errors` is truthy. A missing `errors` is a KeyError on `errors`, and a missing result key after falsy `errors` is a KeyError on that key |
| Protocol.SingleResultExamples | birdsong/rest.py:100-105 | `{"errors": [], "widgets": [1, 2, 3]}` gives `[1, 2, 3]`. `{"errors": ["bad request"], …}` gives an API error carrying `["bad request"]` |
| Rest.RunRequestsAt | birdsong/rest.py:90-91 | a run of `n` posts sends exactly `n` requests to the same address. The first request carries the original body; each later one carries it with `continuation` set to the previous page's token |
| Rest.ResumeStep | birdsong/rest.py:90 | writing the last page's token into the payload gives the payload of the next request, and that payload encodes to the next body |
| Urls.Url | birdsong/rest.py:72-76 | no contract of its own: UrlShape, UrlCarriesPort and DefaultUrl state what the address holds |
| Coercion.Encode | birdsong/rest.py:51-53 | no contract of its own: EncodeOkIff says which values it accepts, and EncodeToValue and PackageSendsIsoText say what it produces |
| Coercion.PackagePayload | birdsong/rest.py:51-53 | no contract of its own: PackagePayloadOk, PackageUpdate and OpaqueRefused state when the body exists and what it holds |
| Protocol.Flatten | birdsong/rest.py:85-89 | no contract of its own: ConcatFlattenSnoc and Paginate state how the flattened results of the pages make up the items yielded |
| Protocol.Token | birdsong/rest.py:83 | no contract of its own: HasMoreHasToken states what the `.get('continuation', False)` test reads |
| Protocol.HasMoreHasToken | birdsong/rest.py:83-90 | a page passes the loop test exactly when it holds `continuation` and that token is truthy, so the read of the token at line 90 cannot fail |
| Protocol.ResumedPayload | birdsong/rest.py:90 | no contract of its own: ResumeStep and IterPost state that after `posts` requests the caller's payload holds, under `continuation`, the token of page `posts - 2`, the last token the loop wrote, and is unchanged after the first request; a run that ends with a KeyError on a page with a token leaves the previous token there |
| Rest.RestInterface.Verify | birdsong/rest.py:77 | no contract of its own: Post states that every request carries `https and verifySSL` as its verify flag |
| Rest.RestInterface.constructor | birdsong/rest.py:17-28 | the configuration is stored as given, with the defaults localhost, no TLS, ports 80 and 443 and no certificate checks. No reply has been received yet |
| Rest.RestInterface.Post | birdsong/rest.py:69-79 | a payload the encoder refuses raises a serialization error before anything is sent. Otherwise one request is logged, carrying the endpoint address, the encoded body and the verify flag `https and verifySSL`. The next reply becomes `lastResults` |
| Rest.RestInterface.SinglePost | birdsong/rest.py:100-105 | posts once and answers SingleResult of the reply. `lastResults` is that reply |
| Rest.RestInterface.Resume | birdsong/rest.py:90-91 | one loop turn: the payload receives the last page's token, and the next request is posted. The run state advances by one post |
| Rest.RestInterface.Advance | birdsong/rest.py:84-91 | one loop turn with its yields: the items of the last page are appended, then the run resumes |
| Rest.RestInterface.Drain | birdsong/rest.py:83-98 | the loop and the read after it: the items, the outcome and the number of posts are those of Paginate on the replies |
| Rest.RestInterface.IterPost | birdsong/rest.py:81-98 | a refused payload sends nothing. Otherwise, for the run Paginate gives on the replies, IterPost yields its items and ends with its outcome. It sends exactly its requests (RunRequests), consumes exactly its replies, leaves the last one in `lastResults`, and leaves the last echoed token in the caller's payload |
| Rest.TwoPageScenario | birdsong/rest.py:81-98 | a first page with token `tok1` and items 1, 2 and a second page with no token and items 3, 4 yield 1, 2, 3, 4 after exactly two posts, and the second post echoes `tok1` back |

## Left out

- The HTTP session and the network. `requests.Session`, its lazy creation and the POST itself are replaced by the `server` replies and the `sent` log.
- Transport errors. A failing connection is not modelled.
- A reply body that is not valid JSON, or not a JSON object. Replies are parsed JSON objects (`Response`).
- JSON text. The encoder and the parser are modelled on JSON trees, not on strings. Floats are not modelled (JSON numbers are integers).
- The error's type and message. The values the model refuses are a set and a foreign object; for both the hook hands the object back unchanged and the encoder raises `ValueError("Circular reference detected")`, modelled as `SerializationError`. A TypeError for a non-string key cannot arise, since payload keys are strings. The RuntimeError message text becomes the fields of `ApiError`.
- `isoformat()`. The ISO-8601 text of a temporal value is the client's `isoFormat` parameter, not computed.
- The process-wide urllib3 warning suppression in the constructor. It has no effect on the client's behaviour.
- The `**configuration` forwarding to `super().__init__` and `__slots__`. The slots at rest.py:15 do not list `verifySSL`, so on a reading of the code (not executed) `self.verifySSL = verifySSL` at rest.py:28 raises AttributeError when `RestInterface` itself is built; only a subclass with an instance dictionary, the mixin use behind rest.py:32, can be built. Rest.RestInterface.constructor models that use: it stores `verifySSL` as given.
- Generator laziness. `IterPost` consumes the whole paginated call. A consumer that stops early is not modelled.
- A server that never stops sending tokens. `IterPost` requires that some reply carries no truthy token, and `Post` requires a reply to be available.
- Rest.RestInterface.IterPost: the loop condition also tests that the page holds the result key, and the KeyError is raised after the loop. The source raises it inside the loop body at the same page, with the same items yielded before it.
- Coercion.CoerceToList: the identity of a list argument (it is returned as the same object) and the set order are not modelled. The function is ghost because Python's set order is unspecified.
- An `https` flag that is not a bool. The flag is a bool; the port index uses `True == 1`.
- Tuples in replies. A parsed JSON reply never holds a tuple, so the tuple case of the result check does not occur.
