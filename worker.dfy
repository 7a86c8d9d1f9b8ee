/** worker/index.js: the proxy in front of the remote model. It routes
    requests, keeps an in-memory fixed-window rate limit per client address,
    validates the query and forwards it upstream. */
module Worker {
  import opened Wrappers
  import opened Text

  const WindowMs: int := 60000
  const MaxRequests: int := 10
  const MaxQueryLength: int := 500

  const RateLimitMessage: string := "Rate limit exceeded. Please wait a minute."
  const InvalidQueryMessage: string := "Invalid query"
  const NoKeyMessage: string := "API key not configured"
  const InternalErrorMessage: string := "Internal server error"
  const NotFoundMessage: string := "Not Found"

  /** One `rateLimitMap` value: `{count, resetAt}`. */
  datatype RateEntry = RateEntry(count: int, resetAt: int)

  type RateTable = map<string, RateEntry>

  /** What `await request.json()` and `body.query?.trim()` meet: a body that
      does not parse (or is `null`), a body without a usable `query`
      (`undefined` or `null`), a `query` that is not a string, or a string. */
  datatype Body = Unparsable | QueryAbsent | QueryNotString | QueryText(text: string)

  /** The upstream exchange: failed (fetch threw, status not ok, or the body
      is not JSON), answered without candidate text, answered with text that
      is not JSON, or answered with JSON (kept as its serialised form). */
  datatype Upstream = UpstreamFailed | UpstreamNoText | UpstreamBadJson | UpstreamJson(payload: string)

  datatype ResponseBody = NoBody | ErrorBody(error: string) | PayloadBody(payload: string)

  datatype Response = Response(status: int, body: ResponseBody)

  datatype Route = Preflight | Recommend | NotFound

  // ---------------------------------------------------------------------
  // Routing (worker/index.js:92-114)
  // ---------------------------------------------------------------------

  /** OPTIONS anywhere is the CORS preflight; POST /api/recommend is handled;
      everything else is 404. */
  function RouteOf(httpMethod: string, path: string): (r: Route)
    ensures r == Preflight <==> httpMethod == "OPTIONS"
    ensures r == Recommend <==> httpMethod == "POST" && path == "/api/recommend"
    ensures r == NotFound <==> httpMethod != "OPTIONS" && (httpMethod != "POST" || path != "/api/recommend")
  {
    if httpMethod == "OPTIONS" then Preflight
    else if path == "/api/recommend" && httpMethod == "POST" then Recommend
    else NotFound
  }

  // ---------------------------------------------------------------------
  // Rate limiting (worker/index.js:124-142)
  // ---------------------------------------------------------------------

  /** `rate:${CF-Connecting-IP || "unknown"}`. */
  function RateKey(clientIP: Option<string>): string {
    "rate:" + (if clientIP.None? || clientIP.value == "" then "unknown" else clientIP.value)
  }

  /** Requests without the header, or with an empty one, share one bucket;
      two different addresses never share one. */
  lemma RateKeyBuckets(a: Option<string>, b: Option<string>)
    ensures (a.None? || a == Some("")) ==> RateKey(a) == "rate:unknown"
    ensures a.Some? && b.Some? && a.value != "" && b.value != "" && a != b ==> RateKey(a) != RateKey(b)
  {
    if a.Some? && b.Some? && a.value != "" && b.value != "" && a != b {
      assert RateKey(a)[5..] == a.value;
      assert RateKey(b)[5..] == b.value;
    }
  }

  /** The entry after lines 127-132: a missing entry starts a window now; a
      stored one is reset only when `now` is strictly past its `resetAt`. */
  function CurrentWindow(entries: RateTable, key: string, now: int): RateEntry {
    var e := if key in entries then entries[key] else RateEntry(0, now + WindowMs);
    if now > e.resetAt then RateEntry(0, now + WindowMs) else e
  }

  /** Lines 134-142: refuse at ten without touching the table, otherwise count
      one more and store. Returns whether the request was admitted, and the table. */
  function Charge(entries: RateTable, key: string, now: int): (bool, RateTable) {
    var e := CurrentWindow(entries, key, now);
    if e.count >= MaxRequests then (false, entries)
    else (true, entries[key := RateEntry(e.count + 1, e.resetAt)])
  }

  /** The window rule: a missing entry or one strictly past its end gives a
      fresh window; `now == resetAt` is still inside the old one. */
  lemma WindowRule(entries: RateTable, key: string, now: int)
    ensures key !in entries ==> CurrentWindow(entries, key, now) == RateEntry(0, now + WindowMs)
    ensures key in entries && now > entries[key].resetAt ==> CurrentWindow(entries, key, now) == RateEntry(0, now + WindowMs)
    ensures key in entries && now <= entries[key].resetAt ==> CurrentWindow(entries, key, now) == entries[key]
  {
  }

  /** Every stored entry has been charged at least once and at most ten times. */
  predicate ValidTable(entries: RateTable) {
    forall k :: k in entries ==> 1 <= entries[k].count <= MaxRequests
  }

  /** Admission happens exactly below the limit; a refusal changes nothing; an
      admission adds exactly one to this key, keeps its window, and leaves every
      other key alone; the table stays valid. */
  lemma ChargeProperties(entries: RateTable, key: string, now: int)
    requires ValidTable(entries)
    ensures Charge(entries, key, now).0 <==> CurrentWindow(entries, key, now).count < MaxRequests
    ensures !Charge(entries, key, now).0 ==> Charge(entries, key, now).1 == entries
    ensures Charge(entries, key, now).0 ==>
      var after := Charge(entries, key, now).1;
      && key in after
      && after[key].count == CurrentWindow(entries, key, now).count + 1
      && after[key].resetAt == CurrentWindow(entries, key, now).resetAt
      && (forall k :: k != key ==> (k in after <==> k in entries) && (k in after ==> after[k] == entries[k]))
    ensures ValidTable(Charge(entries, key, now).1)
  {
  }

  /** The first request after a window has expired (or for a new client) is
      always admitted and leaves the count at one. */
  lemma ExpiredWindowRestarts(entries: RateTable, key: string, now: int)
    requires key !in entries || now > entries[key].resetAt
    ensures Charge(entries, key, now).0
    ensures Charge(entries, key, now).1[key] == RateEntry(1, now + WindowMs)
  {
  }

  /** How many of a run of requests from one key, at the given times, are admitted. */
  function Admitted(entries: RateTable, key: string, times: seq<int>): nat
    decreases |times|
  {
    if times == [] then 0
    else
      var step := Charge(entries, key, times[0]);
      (if step.0 then 1 else 0) + Admitted(step.1, key, times[1..])
  }

  /** Within one window (no request strictly after its end) a key is admitted
      at most ten times in all: what it has already used plus what follows. */
  lemma {:induction false} AtMostTenPerWindow(entries: RateTable, key: string, times: seq<int>)
    requires ValidTable(entries) && key in entries
    requires forall i :: 0 <= i < |times| ==> times[i] <= entries[key].resetAt
    ensures Admitted(entries, key, times) <= MaxRequests - entries[key].count
    decreases |times|
  {
    if times != [] {
      var step := Charge(entries, key, times[0]);
      ChargeProperties(entries, key, times[0]);
      assert step.1[key].resetAt == entries[key].resetAt;
      AtMostTenPerWindow(step.1, key, times[1..]);
    }
  }

  /** A client with no entry that sends requests all within a minute of its
      first one gets at most ten through; the eleventh is refused. */
  lemma FreshClientAtMostTen(entries: RateTable, key: string, times: seq<int>)
    requires ValidTable(entries) && key !in entries && times != []
    requires forall i :: 0 <= i < |times| ==> times[i] <= times[0] + WindowMs
    ensures Admitted(entries, key, times) <= MaxRequests
  {
    var step := Charge(entries, key, times[0]);
    ChargeProperties(entries, key, times[0]);
    AtMostTenPerWindow(step.1, key, times[1..]);
  }

  // ---------------------------------------------------------------------
  // Validation and the upstream decision (worker/index.js:144-205)
  // ---------------------------------------------------------------------

  datatype QueryCheck = BadQuery | BodyError | GoodQuery(query: string)

  /** Lines 145-153: the trimmed query must be non-empty and at most 500
      characters; a body that cannot be read, or a `query` that is not a
      string, throws and ends in the handler's catch. */
  function CheckQuery(body: Body): (r: QueryCheck)
    ensures r.GoodQuery? <==> body.QueryText? && Trim(body.text) != "" && |Trim(body.text)| <= MaxQueryLength
    ensures r.GoodQuery? ==> r.query == Trim(body.text)
    ensures r == BodyError <==> body == Unparsable || body == QueryNotString
  {
    match body
    case Unparsable => BodyError
    case QueryAbsent => BadQuery
    case QueryNotString => BodyError
    case QueryText(text) =>
      var q := Trim(text);
      if q == "" || |q| > MaxQueryLength then BadQuery else GoodQuery(q)
  }

  /** A query of exactly 500 characters (after trimming) passes; 501 does not;
      a query of only white space does not. */
  lemma QueryLengthBoundary(text: string)
    ensures |Trim(text)| == MaxQueryLength ==> CheckQuery(QueryText(text)) == GoodQuery(Trim(text))
    ensures |Trim(text)| == MaxQueryLength + 1 ==> CheckQuery(QueryText(text)) == BadQuery
    ensures AllSpace(text) ==> CheckQuery(QueryText(text)) == BadQuery
  {
    TrimEmptyIff(text);
  }

  /** The response once the request has been charged (lines 144-205). */
  function Respond(body: Body, hasApiKey: bool, upstream: Upstream): Response {
    match CheckQuery(body)
    case BadQuery => Response(400, ErrorBody(InvalidQueryMessage))
    case BodyError => Response(500, ErrorBody(InternalErrorMessage))
    case GoodQuery(_) =>
      if !hasApiKey then Response(500, ErrorBody(NoKeyMessage))
      else match upstream
        case UpstreamJson(payload) => Response(200, PayloadBody(payload))
        case _ => Response(500, ErrorBody(InternalErrorMessage))
  }

  /** The whole of `handleRecommend`: the response and the new table. */
  function Handle(entries: RateTable, now: int, clientIP: Option<string>, body: Body,
                  hasApiKey: bool, upstream: Upstream): (Response, RateTable)
  {
    var step := Charge(entries, RateKey(clientIP), now);
    if !step.0 then (Response(429, ErrorBody(RateLimitMessage)), entries)
    else (Respond(body, hasApiKey, upstream), step.1)
  }

  /** After the charge: 400 exactly for a bad query; a good query without a
      key is 500 whatever the upstream would have said; 200 exactly when the
      query is good, the key is there and the upstream answered with JSON,
      whose payload is passed on verbatim; nothing else but 500. */
  lemma RespondOrder(body: Body, hasApiKey: bool, upstream: Upstream)
    ensures var r := Respond(body, hasApiKey, upstream);
      && (r.status == 400 <==> CheckQuery(body) == BadQuery)
      && (CheckQuery(body).GoodQuery? && !hasApiKey ==> r == Response(500, ErrorBody(NoKeyMessage)))
      && (r.status == 200 <==> CheckQuery(body).GoodQuery? && hasApiKey && upstream.UpstreamJson?)
      && (r.status == 200 ==> r.body == PayloadBody(upstream.payload))
      && r.status in {200, 400, 500}
  {
  }

  /** The rate limit comes first: 429 exactly at the limit, with the table
      untouched; any other answer comes after the request was charged, even a
      400 for a bad query, and is then the answer `Respond` gives. */
  lemma HandleOrder(entries: RateTable, now: int, clientIP: Option<string>, body: Body,
                    hasApiKey: bool, upstream: Upstream)
    requires ValidTable(entries)
    ensures var key := RateKey(clientIP);
      var r := Handle(entries, now, clientIP, body, hasApiKey, upstream);
      && (r.0.status == 429 <==> CurrentWindow(entries, key, now).count >= MaxRequests)
      && (r.0.status == 429 ==> r.1 == entries)
      && (r.0.status != 429 ==> r.0 == Respond(body, hasApiKey, upstream))
      && (r.0.status != 429 ==> r.1 == Charge(entries, key, now).1 && r.1[key].count == CurrentWindow(entries, key, now).count + 1)
      && ValidTable(r.1)
  {
    ChargeProperties(entries, RateKey(clientIP), now);
    RespondOrder(body, hasApiKey, upstream);
  }

  /** The worker's module-level state: `rateLimitMap`. Requests are handled one
      at a time. */
  class RateLimiter {
    var entries: RateTable

    ghost predicate Valid()
      reads this
    {
      ValidTable(entries)
    }

    constructor ()
      ensures Valid() && entries == map[]
    {
      entries := map[];
    }

    /** Lines 124-142: look up this client's entry, restart an expired
        window, refuse at the limit, otherwise count the request and store. */
    method ChargeRequest(now: int, clientIP: Option<string>) returns (admitted: bool)
      requires Valid()
      modifies this
      ensures Valid()
      ensures (admitted, entries) == Charge(old(entries), RateKey(clientIP), now)
    {
      ChargeProperties(entries, RateKey(clientIP), now);
      var key := RateKey(clientIP);
      var rateData := if key in entries then entries[key] else RateEntry(0, now + WindowMs);
      if now > rateData.resetAt {
        rateData := rateData.(count := 0, resetAt := now + WindowMs);
      }
      if rateData.count >= MaxRequests {
        return false;
      }
      rateData := rateData.(count := rateData.count + 1);
      entries := entries[key := rateData];
      admitted := true;
    }

    /** `handleRecommend`, mutating the table in place. */
    method HandleRecommend(now: int, clientIP: Option<string>, body: Body, hasApiKey: bool, upstream: Upstream)
      returns (resp: Response)
      requires Valid()
      modifies this
      ensures Valid()
      ensures (resp, entries) == Handle(old(entries), now, clientIP, body, hasApiKey, upstream)
    {
      var admitted := ChargeRequest(now, clientIP);
      if !admitted {
        return Response(429, ErrorBody(RateLimitMessage));
      }
      var check := CheckQuery(body);
      if check == BodyError {
        return Response(500, ErrorBody(InternalErrorMessage));
      }
      if check == BadQuery {
        return Response(400, ErrorBody(InvalidQueryMessage));
      }
      if !hasApiKey {
        return Response(500, ErrorBody(NoKeyMessage));
      }
      match upstream {
        case UpstreamJson(payload) =>
          resp := Response(200, PayloadBody(payload));
        case _ =>
          resp := Response(500, ErrorBody(InternalErrorMessage));
      }
    }

    /** The `fetch` entry point: only POST /api/recommend touches the table. */
    method Fetch(httpMethod: string, path: string, now: int, clientIP: Option<string>, body: Body,
                 hasApiKey: bool, upstream: Upstream)
      returns (resp: Response)
      requires Valid()
      modifies this
      ensures Valid()
      ensures RouteOf(httpMethod, path) == Preflight ==> resp == Response(200, NoBody) && entries == old(entries)
      ensures RouteOf(httpMethod, path) == NotFound ==> resp == Response(404, ErrorBody(NotFoundMessage)) && entries == old(entries)
      ensures RouteOf(httpMethod, path) == Recommend ==>
        (resp, entries) == Handle(old(entries), now, clientIP, body, hasApiKey, upstream)
    {
      if httpMethod == "OPTIONS" {
        return Response(200, NoBody);
      }
      if path == "/api/recommend" && httpMethod == "POST" {
        resp := HandleRecommend(now, clientIP, body, hasApiKey, upstream);
        return;
      }
      resp := Response(404, ErrorBody(NotFoundMessage));
    }
  }
}
