/** The client object: it posts JSON payloads to the Canary server, keeps the
    last response, and drives single calls and paginated calls.

    The network is replaced by `server`, the replies the server will give, in
    order; every request the client posts is appended to `sent`. */
module Rest {
  import opened Values
  import opened Coercion
  import opened Urls
  import opened Protocol

  /** Default of the certificate-verification flag. */
  const ValidateSslCerts: bool := false

  /** A POST as it goes over the wire: address, JSON body, and whether the
      server certificate is checked. */
  datatype Request = Request(url: string, body: map<string, Json>, verify: bool)

  /** A caller's payload dictionary; the pagination loop changes it in place. */
  class Payload {
    var entries: map<string, Value>

    constructor (entries: map<string, Value>)
      ensures this.entries == entries
    {
      this.entries := entries;
    }
  }

  /** The requests a pagination run posts to `url` in its first `n` steps:
      number `i` carries the body of ResumedBody. */
  function RunRequests(url: string, body: map<string, Json>, pages: seq<Response>, n: nat, verify: bool): seq<Request>
    requires n <= |pages|
  {
    if n == 0 then [] else RunRequests(url, body, pages, n - 1, verify) + [Request(url, ResumedBody(body, pages, n - 1), verify)]
  }

  /** The run's requests in full: there is one per step, and request `i` goes
      to `url` with `body`, its `continuation` entry replaced, from the second
      request on, by the token of the page before. */
  lemma {:induction false} RunRequestsAt(url: string, body: map<string, Json>, pages: seq<Response>, n: nat, verify: bool)
    requires n <= |pages|
    ensures |RunRequests(url, body, pages, n, verify)| == n
    ensures forall i :: 0 <= i < n ==>
      RunRequests(url, body, pages, n, verify)[i]
        == Request(url, if i == 0 then body else body[ContinuationKey := Token(pages[i - 1])], verify)
    decreases n
  {
    if n > 0 { RunRequestsAt(url, body, pages, n - 1, verify); }
  }

  /** One turn of the pagination loop: storing the token of page `posts - 1`
      into the payload gives the payload of the next request, and its body is
      the next ResumedBody. */
  lemma ResumeStep(entries: map<string, Value>, body: map<string, Json>, pages: seq<Response>, posts: nat,
                   isoFormat: Temporal -> string)
    requires 1 <= posts < |pages|
    requires PackagePayload(entries, isoFormat) == Ok(body)
    ensures ResumedPayload(entries, pages, posts)[ContinuationKey := ToValue(Token(pages[posts - 1]))]
         == ResumedPayload(entries, pages, posts + 1)
    ensures PackagePayload(ResumedPayload(entries, pages, posts + 1), isoFormat) == Ok(ResumedBody(body, pages, posts))
  {
    PackageUpdate(entries, ContinuationKey, Token(pages[posts - 1]), isoFormat);
  }

  /** One more step of a run adds its request at the end of the log and
      consumes one more reply. */
  lemma RunStep(log: seq<Request>, url: string, body: map<string, Json>, pages: seq<Response>, posts: nat, verify: bool)
    requires 1 <= posts < |pages|
    ensures pages[posts..] != [] && pages[posts..][0] == pages[posts] && pages[posts..][1..] == pages[posts + 1..]
    ensures log + RunRequests(url, body, pages, posts, verify) + [Request(url, ResumedBody(body, pages, posts), verify)]
         == log + RunRequests(url, body, pages, posts + 1, verify)
  {
  }

  class RestInterface {
    const host: string
    const https: bool
    const ports: (int, int)          // (HTTP port, HTTPS port)
    const verifySSL: bool
    const isoFormat: Temporal -> string

    var lastResults: Option<Response>
    var server: seq<Response>
    var sent: seq<Request>

    constructor (isoFormat: Temporal -> string, replies: seq<Response>,
                 host: string := "localhost", https: bool := false,
                 httpPort: int := 80, httpsPort: int := 443, verifySSL: bool := ValidateSslCerts)
      ensures this.host == host && this.https == https && ports == (httpPort, httpsPort)
      ensures this.verifySSL == verifySSL && this.isoFormat == isoFormat
      ensures lastResults == None && server == replies && sent == []
    {
      this.host := host;
      this.https := https;
      this.ports := (httpPort, httpsPort);
      this.verifySSL := verifySSL;
      this.isoFormat := isoFormat;
      lastResults := None;
      server := replies;
      sent := [];
    }

    /** The address requests to `apiUrl` go to. */
    function EndpointUrl(apiUrl: string): string {
      Url(host, https, ports, apiUrl)
    }

    /** The body of a request carrying `payload`, or the encoder's refusal. */
    function Body(payload: map<string, Value>): Result<map<string, Json>> {
      PackagePayload(payload, isoFormat)
    }

    /** Certificates are checked only over TLS and when asked for. */
    function Verify(): bool {
      https && verifySSL
    }

    /** Encodes the payload, posts it, and stores the reply as `lastResults`.
        When the encoder refuses the payload nothing is sent. */
    method Post(apiUrl: string, payload: Payload) returns (outcome: Outcome)
      requires Body(payload.entries).Ok? ==> server != []
      modifies this
      ensures Body(payload.entries).Err? ==>
        && outcome == Fail(SerializationError)
        && server == old(server) && sent == old(sent) && lastResults == old(lastResults)
      ensures Body(payload.entries).Ok? ==>
        && outcome == Pass
        && sent == old(sent) + [Request(EndpointUrl(apiUrl), Body(payload.entries).value, Verify())]
        && lastResults == Some(old(server)[0])
        && server == old(server)[1..]
    {
      var body := Body(payload.entries);
      if body.Err? {
        return Fail(SerializationError);
      }
      var url := EndpointUrl(apiUrl);
      sent := sent + [Request(url, body.value, Verify())];
      lastResults := Some(server[0]);
      server := server[1..];
      outcome := Pass;
    }

    /** One call whose reply holds a single result under `resultKey`; raises
        when the reply reports errors. */
    method SinglePost(apiUrl: string, payload: Payload, resultKey: string) returns (r: Result<Json>)
      requires Body(payload.entries).Ok? ==> server != []
      modifies this
      ensures Body(payload.entries).Err? ==>
        && r == Err(SerializationError)
        && server == old(server) && sent == old(sent) && lastResults == old(lastResults)
      ensures Body(payload.entries).Ok? ==>
        && r == SingleResult(old(server)[0], apiUrl, payload.entries, resultKey)
        && sent == old(sent) + [Request(EndpointUrl(apiUrl), Body(payload.entries).value, Verify())]
        && lastResults == Some(old(server)[0])
        && server == old(server)[1..]
    {
      var outcome := Post(apiUrl, payload);
      if outcome.Fail? {
        return Err(outcome.error);
      }
      r := SingleResult(lastResults.value, apiUrl, payload.entries, resultKey);
    }

    /** The state after `posts` requests of a run over `pages` that started
        with the log `before` and the payload `entries` (whose body is `body`). */
    ghost predicate InRun(apiUrl: string, payload: Payload, pages: seq<Response>, before: seq<Request>,
                          entries: map<string, Value>, body: map<string, Json>, posts: nat)
      reads this, payload
    {
      && 1 <= posts <= |pages|
      && Body(entries) == Ok(body)
      && lastResults == Some(pages[posts - 1])
      && server == pages[posts..]
      && sent == before + RunRequests(EndpointUrl(apiUrl), body, pages, posts, Verify())
      && payload.entries == ResumedPayload(entries, pages, posts)
    }

    /** One turn of the pagination loop: store the last page's continuation
        token in the caller's payload and post it again. */
    method Resume(apiUrl: string, payload: Payload, ghost pages: seq<Response>, ghost before: seq<Request>,
                  ghost entries: map<string, Value>, ghost body: map<string, Json>, ghost posts: nat)
      requires InRun(apiUrl, payload, pages, before, entries, body, posts) && posts < |pages|
      requires HasMore(lastResults.value)
      modifies this, payload
      ensures InRun(apiUrl, payload, pages, before, entries, body, posts + 1)
    {
      ResumeStep(entries, body, pages, posts, isoFormat);
      RunStep(before, EndpointUrl(apiUrl), body, pages, posts, Verify());
      payload.entries := payload.entries[ContinuationKey := ToValue(lastResults.value[ContinuationKey])];
      var _ := Post(apiUrl, payload);
    }

    /** The state of a pagination run for `key` after `posts` requests, with
        `items` the items yielded so far (every page read before the last one). */
    ghost predicate Progress(apiUrl: string, payload: Payload, key: string, pages: seq<Response>, before: seq<Request>,
                             entries: map<string, Value>, body: map<string, Json>, posts: nat, items: seq<Json>)
      reads this, payload
    {
      && InRun(apiUrl, payload, pages, before, entries, body, posts)
      && RunPrefix(pages, key, posts - 1, items)
    }

    /** One turn of the pagination loop: yield the last page's items, then
        resume the run from its continuation token. */
    method Advance(apiUrl: string, payload: Payload, key: string, ghost pages: seq<Response>, ghost before: seq<Request>,
                   ghost entries: map<string, Value>, ghost body: map<string, Json>, ghost posts: nat, items: seq<Json>)
      returns (more: seq<Json>)
      requires Progress(apiUrl, payload, key, pages, before, entries, body, posts, items) && posts < |pages|
      requires HasMore(lastResults.value) && key in lastResults.value
      modifies this, payload
      ensures Progress(apiUrl, payload, key, pages, before, entries, body, posts + 1, more)
    {
      RunPrefixStep(pages, key, posts - 1, items);
      more := items + Flatten(lastResults.value[key]);
      assert RunPrefix(pages, key, posts, more);
      Resume(apiUrl, payload, pages, before, entries, body, posts);
    }

    /** The pagination loop and the read after it, from the state after the
        first request of a run to the end of the run. */
    method Drain(apiUrl: string, payload: Payload, resultKey: string, ghost pages: seq<Response>,
                 ghost before: seq<Request>, ghost entries: map<string, Value>, ghost body: map<string, Json>)
      returns (items: seq<Json>, outcome: Outcome)
      requires StopsWithin(pages) && InRun(apiUrl, payload, pages, before, entries, body, 1)
      modifies this, payload
      ensures var run := Paginate(pages, resultKey);
        && items == run.items && outcome == run.outcome
        && InRun(apiUrl, payload, pages, before, entries, body, run.posts)
    {
      ghost var stop :| 0 <= stop < |pages| && !HasMore(pages[stop]);
      ghost var posts: nat := 1;
      items := [];
      // A page lacking `resultKey` ends the run with a KeyError; testing for
      // the key in the guard makes the loop end there and the read after the
      // loop raise it.
      while HasMore(lastResults.value) && resultKey in lastResults.value
        invariant Progress(apiUrl, payload, resultKey, pages, before, entries, body, posts, items)
        invariant posts - 1 <= stop
        decreases |pages| - posts
      {
        items := Advance(apiUrl, payload, resultKey, pages, before, entries, body, posts, items);
        posts := posts + 1;
      }
      PaginateEndsAt(pages, resultKey, posts - 1, items);
      if resultKey !in lastResults.value {
        outcome := Fail(MissingKey(resultKey));
      } else {
        items := items + Flatten(lastResults.value[resultKey]);
        outcome := Pass;
      }
    }

    /** The paginated call, consumed to the end: the items yielded, in order,
        and how the run ended. The caller's payload receives each continuation
        token before the next request. */
    method IterPost(apiUrl: string, payload: Payload, resultKey: string) returns (items: seq<Json>, outcome: Outcome)
      requires Body(payload.entries).Ok? ==> StopsWithin(server)
      modifies this, payload
      ensures Body(old(payload.entries)).Err? ==>
        && items == [] && outcome == Fail(SerializationError)
        && server == old(server) && sent == old(sent) && lastResults == old(lastResults)
        && payload.entries == old(payload.entries)
      ensures Body(old(payload.entries)).Ok? ==>
        var run := Paginate(old(server), resultKey);
        var body := Body(old(payload.entries)).value;
        && items == run.items
        && outcome == run.outcome
        && sent == old(sent) + RunRequests(EndpointUrl(apiUrl), body, old(server), run.posts, Verify())
        && lastResults == Some(old(server)[run.posts - 1])
        && server == old(server)[run.posts..]
        && payload.entries == ResumedPayload(old(payload.entries), old(server), run.posts)
    {
      ghost var pages := server;
      ghost var before := sent;
      ghost var entries := payload.entries;
      items := [];
      outcome := Post(apiUrl, payload);
      if outcome.Fail? {
        return;
      }
      items, outcome := Drain(apiUrl, payload, resultKey, pages, before, entries, Body(entries).value);
    }
  }

  /** Two pages: the first carries the token "tok1" and the items 1 and 2,
      the second has no token and the items 3 and 4. Consuming the call
      yields 1, 2, 3, 4 after exactly two posts, and the second post echoes
      the token back. */
  method TwoPageScenario() returns (items: seq<Json>, requests: seq<Request>)
    ensures items == [JNum(1), JNum(2), JNum(3), JNum(4)]
    ensures |requests| == 2
    ensures requests[0].body == map[]
    ensures requests[1].body == map[ContinuationKey := JStr("tok1")]
  {
    var page1 := map[ErrorsKey := JArray([]), ContinuationKey := JStr("tok1"), "items" := JArray([JNum(1), JNum(2)])];
    var page2 := map[ErrorsKey := JArray([]), "items" := JArray([JNum(3), JNum(4)])];
    var client := new RestInterface(t => "", [page1, page2]);
    var payload := new Payload(map[]);
    assert client.Body(map[]) == Ok(map[]);
    assert StopsWithin(client.server) by {
      assert !HasMore(client.server[1]);
    }
    var outcome;
    items, outcome := client.IterPost("points", payload, "items");
    PaginateEndsAt([page1, page2], "items", 1, [JNum(1), JNum(2)]);
    RunRequestsAt(client.EndpointUrl("points"), map[], [page1, page2], 2, false);
    requests := client.sent;
  }
}
