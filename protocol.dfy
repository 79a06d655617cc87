/** The response protocol of the Canary API as the client reads it: the
    `errors` check of a single call, and continuation-token pagination. */
module Protocol {
  import opened Values

  /** A parsed response body: a JSON object. */
  type Response = map<string, Json>

  const ContinuationKey: string := "continuation"
  const ErrorsKey: string := "errors"

  /** `page.get('continuation', False)`: the continuation token of a page. */
  function Token(page: Response): Json {
    if ContinuationKey in page then page[ContinuationKey] else JBool(false)
  }

  /** The page's continuation token is truthy: more pages remain. */
  predicate HasMore(page: Response) {
    Truthy(Token(page))
  }

  /** A page with more to come carries its token under `continuation`, so
      reading that key after the loop test cannot fail. */
  lemma HasMoreHasToken(page: Response)
    ensures HasMore(page) <==> ContinuationKey in page && Truthy(page[ContinuationKey])
  {
  }

  /** The items a page's result contributes: the elements of a JSON array, or
      the result itself when it is anything else. */
  function Flatten(results: Json): seq<Json> {
    match results
    case JArray(elements) => elements
    case _ => [results]
  }

  /** Some page of the sequence carries no continuation token. */
  predicate StopsWithin(pages: seq<Response>) {
    exists i :: 0 <= i < |pages| && !HasMore(pages[i])
  }

  /** The index of the first page without a continuation token. */
  function FirstStop(pages: seq<Response>): (n: nat)
    requires StopsWithin(pages)
    ensures n < |pages| && !HasMore(pages[n])
    ensures forall i :: 0 <= i < n ==> HasMore(pages[i])
  {
    if !HasMore(pages[0]) then 0
    else
      assert StopsWithin(pages[1..]) by {
        var i :| 0 <= i < |pages| && !HasMore(pages[i]);
        assert pages[1..][i - 1] == pages[i];
      }
      1 + FirstStop(pages[1..])
  }

  /** The in-order concatenation of the flattened results of the pages. */
  function ConcatFlatten(pages: seq<Response>, key: string): seq<Json>
    requires forall i :: 0 <= i < |pages| ==> key in pages[i]
  {
    if pages == [] then [] else Flatten(pages[0][key]) + ConcatFlatten(pages[1..], key)
  }

  /** Taking one page more adds that page's flattened result at the end. */
  lemma {:induction false} ConcatFlattenSnoc(pages: seq<Response>, n: nat, key: string)
    requires n < |pages|
    requires forall i :: 0 <= i <= n ==> key in pages[i]
    ensures ConcatFlatten(pages[..n + 1], key) == ConcatFlatten(pages[..n], key) + Flatten(pages[n][key])
    decreases n
  {
    if n > 0 {
      ConcatFlattenSnoc(pages[1..], n - 1, key);
      assert pages[..n + 1][1..] == pages[1..][..n];
      assert pages[..n][1..] == pages[1..][..n - 1];
    }
  }

  /** What consuming a whole pagination run produced: the items yielded, how
      the run ended, and how many requests were posted. */
  datatype Run = Run(items: seq<Json>, outcome: Outcome, posts: nat)

  /** A pagination run over the pages the server sends, in order. Each page
      read must hold `key`; while a page carries a continuation token its items
      are yielded and the next page is fetched; the page without a token is
      yielded once and ends the run. */
  function Paginate(pages: seq<Response>, key: string): (run: Run)
    requires StopsWithin(pages)
    ensures 1 <= run.posts <= |pages|
    ensures forall i :: 0 <= i < run.posts - 1 ==> HasMore(pages[i]) && key in pages[i]
    ensures run.outcome.Pass? ==> key in pages[run.posts - 1] && !HasMore(pages[run.posts - 1])
    ensures run.outcome.Fail? ==> run.outcome == Fail(MissingKey(key)) && key !in pages[run.posts - 1]
    ensures run.items == ConcatFlatten(pages[..if run.outcome.Pass? then run.posts else run.posts - 1], key)
  {
    var page := pages[0];
    if key !in page then Run([], Fail(MissingKey(key)), 1)
    else if !HasMore(page) then Run(Flatten(page[key]), Pass, 1)
    else
      assert StopsWithin(pages[1..]) by {
        var i :| 0 <= i < |pages| && !HasMore(pages[i]);
        assert pages[1..][i - 1] == pages[i];
      }
      var rest := Paginate(pages[1..], key);
      var taken := if rest.outcome.Pass? then rest.posts else rest.posts - 1;
      assert pages[..taken + 1][1..] == pages[1..][..taken];
      assert pages[1..][rest.posts - 1] == pages[rest.posts];
      Run(Flatten(page[key]) + rest.items, rest.outcome, 1 + rest.posts)
  }

  /** The first `n` pages of a run have been read: each carried a continuation
      token and `key`, and `items` holds their flattened results in order. */
  predicate RunPrefix(pages: seq<Response>, key: string, n: nat, items: seq<Json>) {
    && n <= |pages|
    && (forall i :: 0 <= i < n ==> HasMore(pages[i]) && key in pages[i])
    && items == ConcatFlatten(pages[..n], key)
  }

  /** Reading one more page that carries a token and `key` extends the prefix
      by that page's flattened result. */
  lemma RunPrefixStep(pages: seq<Response>, key: string, n: nat, items: seq<Json>)
    requires RunPrefix(pages, key, n, items) && n < |pages|
    requires HasMore(pages[n]) && key in pages[n]
    ensures RunPrefix(pages, key, n + 1, items + Flatten(pages[n][key]))
  {
    ConcatFlattenSnoc(pages, n, key);
  }

  /** The run ends at the first page that lacks `key` or lacks a continuation
      token: the number of requests is that page's 1-based position, the items
      are those of every page before it, followed by its own when it holds
      `key`, and a page without `key` ends the run with a KeyError. */
  lemma PaginateEndsAt(pages: seq<Response>, key: string, n: nat, items: seq<Json>)
    requires StopsWithin(pages) && n < |pages|
    requires RunPrefix(pages, key, n, items)
    requires !(HasMore(pages[n]) && key in pages[n])
    ensures Paginate(pages, key)
         == if key in pages[n] then Run(items + Flatten(pages[n][key]), Pass, n + 1)
            else Run(items, Fail(MissingKey(key)), n + 1)
  {
    var run := Paginate(pages, key);
    assert run.posts == n + 1;
    if key in pages[n] {
      ConcatFlattenSnoc(pages, n, key);
    }
  }

  /** When every page up to the first one without a token holds `key`, the run
      succeeds with exactly FirstStop + 1 requests. */
  lemma PaginateStopsAtFirstStop(pages: seq<Response>, key: string)
    requires StopsWithin(pages)
    requires forall i :: 0 <= i <= FirstStop(pages) ==> key in pages[i]
    ensures Paginate(pages, key)
         == Run(ConcatFlatten(pages[..FirstStop(pages) + 1], key), Pass, FirstStop(pages) + 1)
  {
    var n := FirstStop(pages);
    var items := ConcatFlatten(pages[..n], key);
    PaginateEndsAt(pages, key, n, items);
    ConcatFlattenSnoc(pages, n, key);
  }

  /** The body of the request numbered `i` (from 0) in a run: the first request
      sends `body`, every later one sends it with `continuation` set to the
      token of the page before. */
  function ResumedBody(body: map<string, Json>, pages: seq<Response>, i: nat): map<string, Json>
    requires i <= |pages|
  {
    if i == 0 then body else body[ContinuationKey := Token(pages[i - 1])]
  }

  /** The caller's payload after `posts` requests of a run: under
      `continuation` it holds the token of page `posts - 2`, the last token
      the loop wrote; after the first request it is unchanged. */
  function ResumedPayload(payload: map<string, Value>, pages: seq<Response>, posts: nat): map<string, Value>
    requires posts <= |pages|
  {
    if posts <= 1 then payload else payload[ContinuationKey := ToValue(Token(pages[posts - 2]))]
  }

  /** The answer of a single call on the response `page`: an APIError when the
      server reported errors, otherwise the value under `key`. */
  function SingleResult(page: Response, apiUrl: string, payload: map<string, Value>, key: string): (r: Result<Json>)
    ensures r.Ok? <==> ErrorsKey in page && !Truthy(page[ErrorsKey]) && key in page
    ensures r.Ok? ==> r.value == page[key]
    ensures r.Err? && r.error.ApiError? <==> ErrorsKey in page && Truthy(page[ErrorsKey])
    ensures r.Err? && r.error.ApiError? ==> r.error == ApiError(apiUrl, page[ErrorsKey], payload)
    ensures ErrorsKey !in page ==> r == Err(MissingKey(ErrorsKey))
    ensures ErrorsKey in page && !Truthy(page[ErrorsKey]) && key !in page ==> r == Err(MissingKey(key))
  {
    if ErrorsKey !in page then Err(MissingKey(ErrorsKey))
    else if Truthy(page[ErrorsKey]) then Err(ApiError(apiUrl, page[ErrorsKey], payload))
    else if key !in page then Err(MissingKey(key))
    else Ok(page[key])
  }

  /** A single page without a token: the run yields that page's items after
      one request. */
  lemma SinglePageRun()
    ensures var page := map[ErrorsKey := JArray([]), "items" := JArray([JNum(7)])];
      && StopsWithin([page])
      && Paginate([page], "items") == Run([JNum(7)], Pass, 1)
  {
    var page := map[ErrorsKey := JArray([]), "items" := JArray([JNum(7)])];
    assert !HasMore([page][0]);
  }

  /** A reply with empty errors hands back the value under the result key; a
      reply whose errors list is not empty raises an API error carrying them. */
  lemma SingleResultExamples(apiUrl: string, payload: map<string, Value>)
    ensures SingleResult(map[ErrorsKey := JArray([]), "widgets" := JArray([JNum(1), JNum(2), JNum(3)])], apiUrl, payload, "widgets")
         == Ok(JArray([JNum(1), JNum(2), JNum(3)]))
    ensures SingleResult(map[ErrorsKey := JArray([JStr("bad request")]), "widgets" := JArray([])], apiUrl, payload, "widgets")
         == Err(ApiError(apiUrl, JArray([JStr("bad request")]), payload))
  {
  }
}
