/** The parts of single-request execution that both executor versions share:
    the request descriptor, the normalisation of method, timeout, headers and
    params, the classification of the network outcome, and the result record. */
module Request {
  import opened Wrappers
  import opened Text
  import opened Json
  import opened PyToJson
  import opened Network
  import opened HttpVersionMode

  /** One request to send. `P` is the proxy-configuration type of the
      executor version. Timeouts are whole milliseconds; `params` and
      `headers` are the entries of the host dicts. */
  datatype RequestItem<P> = RequestItem(
    url: string,
    verb: Option<string>,
    params: Option<seq<(HostValue, HostValue)>>,
    timeoutMs: Option<int>,
    tag: Option<string>,
    headers: Option<seq<(HostValue, HostValue)>>,
    proxy: Option<P>,
    httpVersion: Option<HttpVersion>)

  /** The request's own proxy configuration overrides the process-wide one. */
  function EffectiveProxy<P>(own: Option<P>, global: Option<P>): (r: Option<P>)
    ensures own.Some? ==> r == own
    ensures own.None? ==> r == global
  {
    if own.Some? then own else global
  }

  // ---------------------------------------------------------------- method

  /** A token character of an HTTP method name. */
  predicate IsTChar(c: char) {
    ('a' <= c <= 'z') || ('A' <= c <= 'Z') || ('0' <= c <= '9') || c in "!#$%&'*+-.^_`|~"
  }

  /** What `str::parse::<Method>` accepts: a non-empty string of token characters. */
  predicate IsToken(s: string) {
    |s| > 0 && forall i :: 0 <= i < |s| ==> IsTChar(s[i])
  }

  /** The method defaults to "GET", is upper-cased, and falls back to "GET"
      when the upper-cased text is not a method name. */
  function EffectiveMethod(m: Option<string>): (r: string)
    ensures IsToken(r) && Upper(r) == r
    ensures m.None? ==> r == "GET"
    ensures m.Some? && IsToken(Upper(m.value)) ==> r == Upper(m.value)
    ensures m.Some? && !IsToken(Upper(m.value)) ==> r == "GET"
  {
    var u := Upper(m.GetOr("GET"));
    UpperIdempotent(m.GetOr("GET"));
    if IsToken(u) then u else "GET"
  }

  // --------------------------------------------------------------- timeout

  const DefaultTimeoutMs: nat := 30000
  const MinTimeoutMs: nat := 3000

  /** `max(timeout or 30 s, 3 s)`: never below three seconds, and a timeout
      of at least three seconds is kept as given. */
  function EffectiveTimeoutMs(t: Option<int>): (r: nat)
    ensures r >= MinTimeoutMs
    ensures t.None? ==> r == DefaultTimeoutMs
    ensures t.Some? ==> r >= t.value
    ensures t.Some? && t.value >= MinTimeoutMs ==> r == t.value
    ensures t.Some? && t.value < MinTimeoutMs ==> r == MinTimeoutMs
  {
    var requested := t.GetOr(DefaultTimeoutMs);
    if requested < MinTimeoutMs then MinTimeoutMs else requested
  }

  // --------------------------------------------------------------- headers

  /** A header entry is kept when key and value are strings, the key is a
      valid header name and the value a valid header value. */
  function AcceptedHeader(e: (HostValue, HostValue), env: Env): Option<(string, string)> {
    if e.0.asString.Some? && e.1.asString.Some?
       && env.headerName(e.0.asString.value).Some? && env.headerValueOk(e.1.asString.value)
    then Some((env.headerName(e.0.asString.value).value, e.1.asString.value))
    else None
  }

  function HeaderPairs(entries: seq<(HostValue, HostValue)>, env: Env): seq<(string, string)> {
    if entries == [] then []
    else
      (match AcceptedHeader(entries[0], env) case Some(h) => [h] case None => [])
      + HeaderPairs(entries[1..], env)
  }

  /** The headers attached are exactly the accepted entries; the others are
      skipped silently. */
  lemma {:induction false} HeaderPairsExactlyAccepted(entries: seq<(HostValue, HostValue)>, env: Env, h: (string, string))
    ensures h in HeaderPairs(entries, env) <==>
      exists i :: 0 <= i < |entries| && AcceptedHeader(entries[i], env) == Some(h)
  {
    if entries != [] {
      HeaderPairsExactlyAccepted(entries[1..], env, h);
      if exists i :: 0 <= i < |entries[1..]| && AcceptedHeader(entries[1..][i], env) == Some(h) {
        var i :| 0 <= i < |entries[1..]| && AcceptedHeader(entries[1..][i], env) == Some(h);
        assert AcceptedHeader(entries[i + 1], env) == Some(h);
      }
      if exists i :: 0 <= i < |entries| && AcceptedHeader(entries[i], env) == Some(h) {
        var i :| 0 <= i < |entries| && AcceptedHeader(entries[i], env) == Some(h);
        if i > 0 {
          assert AcceptedHeader(entries[1..][i - 1], env) == Some(h);
        }
      }
    }
  }

  function RequestHeaders(headers: Option<seq<(HostValue, HostValue)>>, env: Env): seq<(string, string)> {
    match headers
    case None => []
    case Some(entries) => HeaderPairs(entries, env)
  }

  // ---------------------------------------------------------------- params

  /** The host dict of the params, as the conversion sees it. */
  function DictValue(entries: seq<(HostValue, HostValue)>): HostValue {
    HostValue(None, None, None, None, Dict(entries), "")
  }

  /** The query value exactly as the source computes it: the value's JSON
      text with every leading and trailing '"' trimmed. */
  function QueryValueAsWritten(v: Json): string {
    TrimQuotes(JsonText(v))
  }

  /** The query value as intended: a string is sent as itself; any other
      value as the source sends it. */
  function QueryValue(v: Json): (r: string)
    ensures v.String? ==> r == v.s
    ensures !v.String? ==> r == QueryValueAsWritten(v)
  {
    if v.String? then v.s else QueryValueAsWritten(v)
  }

  /** The as-written rule: a string value ending in a quote loses the quote
      and gains the backslash of its escape. */
  lemma QueryValueAsWrittenMangles()
    ensures QueryValueAsWritten(String("a\"")) == "a\\"
    ensures QueryValueAsWritten(String("a\"")) != QueryValue(String("a\""))
  {
    assert Escape("a\"") == "a\\\"";
    var text := "\"a\\\"\"";
    assert JsonText(String("a\"")) == text;
    assert TrimStartQuotes(text) == text[1..];
    assert text[1..][..|text[1..]| - 1] == "a\\\"";
    assert "a\\\""[..2] == "a\\";
    assert TrimEndQuotes("a\\\"") == TrimEndQuotes("a\\");
  }

  /** On strings with nothing to escape the as-written rule is right. */
  lemma QueryValueAsWrittenPlain(s: string)
    requires forall i :: 0 <= i < |s| ==> !NeedsEscape(s[i])
    ensures QueryValueAsWritten(String(s)) == s == QueryValue(String(s))
  {
    EscapeIdentity(s);
    TrimQuotesUnwraps(s);
  }

  /** The query pairs of an object: each key with its query value, in order. */
  function QueryPairs(fields: seq<(string, Json)>): (q: seq<(string, string)>)
    ensures |q| == |fields|
    ensures forall i :: 0 <= i < |fields| ==> q[i] == (fields[i].0, QueryValue(fields[i].1))
  {
    seq(|fields|, i requires 0 <= i < |fields| => (fields[i].0, QueryValue(fields[i].1)))
  }

  /** Where the params go. */
  datatype Routed = Routed(query: seq<(string, string)>, body: Option<Json>)

  predicate IsQueryMethod(verb: string) {
    verb == "GET" || verb == "DELETE"
  }

  /** GET and DELETE send the params as query pairs, every other method as a
      JSON body; never both, and nothing without params. */
  function RouteParams(verb: string, params: Option<seq<(HostValue, HostValue)>>): (r: Routed)
    ensures r.query == [] || r.body.None?
    ensures params.None? ==> r == Routed([], None)
    ensures params.Some? && !IsQueryMethod(verb) ==>
      r.query == [] && r.body == Some(ToJson(DictValue(params.value)))
    ensures params.Some? && IsQueryMethod(verb) ==>
      r.body.None? && ToJson(DictValue(params.value)).Object?
      && r.query == QueryPairs(ToJson(DictValue(params.value)).fields)
  {
    match params
    case None => Routed([], None)
    case Some(entries) =>
      var json := ToJson(DictValue(entries));
      if IsQueryMethod(verb) then
        (match json case Object(fields) => Routed(QueryPairs(fields), None) case _ => Routed([], None))
      else Routed([], Some(json))
  }

  /** For a GET or DELETE, a param whose last value is the string `s` is sent
      as the query pair (k, s), once. */
  lemma QueryCarriesStringParam(verb: string, entries: seq<(HostValue, HostValue)>, k: string, s: string)
    requires IsQueryMethod(verb)
    requires LastValue(DictPairs(DictValue(entries)), k) == Some(String(s))
    ensures (k, s) in RouteParams(verb, Some(entries)).query
  {
    var v := DictValue(entries);
    DictConversion(v, k);
    var fields := ToJson(v).fields;
    var i :| 0 <= i < |Keys(fields)| && Keys(fields)[i] == k;
    LookupAt(fields, i);
    assert RouteParams(verb, Some(entries)).query[i] == (k, s);
  }

  /** In an object without duplicate keys, the value at position i is the one
      looked up by its key. */
  lemma {:induction false} LookupAt(fields: seq<(string, Json)>, i: nat)
    requires i < |fields| && UniqueKeys(fields)
    ensures Lookup(fields, fields[i].0) == Some(fields[i].1)
  {
    if i > 0 {
      assert Keys(fields)[0] != Keys(fields)[i];
      assert Keys(fields[1..]) == Keys(fields)[1..];
      LookupAt(fields[1..], i - 1);
    }
  }

  /** The request that is handed to the client. */
  datatype Outbound = Outbound(
    verb: string,
    url: string,
    timeoutMs: nat,
    headers: seq<(string, string)>,
    query: seq<(string, string)>,
    body: Option<Json>)

  /** Builds the outbound request from the descriptor. */
  function Prepare<P>(req: RequestItem<P>, env: Env): (o: Outbound)
    ensures o.verb == EffectiveMethod(req.verb) && o.url == req.url
    ensures o.timeoutMs == EffectiveTimeoutMs(req.timeoutMs) && o.timeoutMs >= MinTimeoutMs
    ensures o.headers == RequestHeaders(req.headers, env)
    ensures o.query == RouteParams(o.verb, req.params).query && o.body == RouteParams(o.verb, req.params).body
    ensures o.query == [] || o.body.None?
  {
    var verb := EffectiveMethod(req.verb);
    var routed := RouteParams(verb, req.params);
    Outbound(verb, req.url, EffectiveTimeoutMs(req.timeoutMs), RequestHeaders(req.headers, env),
             routed.query, routed.body)
  }

  // --------------------------------------------------------------- clients

  type ClientId = nat

  /** The client a request goes out on: one built for its proxy
      configuration, the caller's base client, or the process-wide client. */
  datatype ClientChoice = Fresh(builder: ClientBuilder) | Base(id: ClientId) | GlobalClient

  /** The builder of a proxied client: version flags applied to the base
      builder, then the chosen proxy. */
  function ProxiedBuilder(version: HttpVersion, choice: ProxyChoice): (b: ClientBuilder)
    ensures b.proxies == Routes(choice)
    ensures b.http1Only <==> !SupportsHttp2(version)
    ensures b.http2PriorKnowledge <==> IsHttp2Forced(version)
    ensures b.timeoutMs == 30000 && b.userAgent == UserAgent
  {
    ApplyToBuilder(version, BaseBuilder()).(proxies := Routes(choice))
  }

  /** A network attempt: the client used and the request sent. */
  datatype Attempt = Attempt(client: ClientChoice, request: Outbound)

  // --------------------------------------------------------------- outcome

  /** A status code as reqwest reports it. */
  type StatusCode = s: int | 100 <= s <= 999 witness 200

  predicate IsSuccess(s: StatusCode) {
    200 <= s <= 299
  }

  /** The response body, or the reason reading it failed. */
  datatype Body = Body(text: string) | BodyError(details: string)

  /** What the network did with the request. */
  datatype Outcome =
    | Response(status: StatusCode, headers: seq<(string, string)>, body: Body)
    | SendError(details: string)
    | TimedOut

  /** Start and end of the request as formatted wall-clock times, and the
      elapsed seconds as formatted text. */
  datatype Timing = Timing(start: string, end: string, processTime: string)

  /** A record value: plain text, or the text of a JSON value. */
  datatype Cell = Plain(text: string) | JsonCell(json: Json)

  /** The result record: key to value. */
  type Record = map<string, Cell>

  const RecordKeys: set<string> := {"response", "http_status", "exception", "meta"}

  function ErrorJson(kind: string, message: string): Json {
    Object([("type", String(kind)), ("message", String(message))])
  }

  /** The response of a failed attempt: no headers and no content. */
  const EmptyResponse: Cell := JsonCell(Object([("headers", Object([])), ("content", String(""))]))

  /** The meta object; the tag is present only when the request has one. */
  function MetaJson(tag: Option<string>, requestTime: string, processTime: string): Json {
    Object([("request_time", String(requestTime)), ("process_time", String(processTime))]
           + (match tag case Some(t) => [("tag", String(t))] case None => []))
  }

  /** The tag a meta cell carries. */
  function MetaTag(c: Cell): Option<Json> {
    if c.JsonCell? && c.json.Object? then Lookup(c.json.fields, "tag") else None
  }

  lemma MetaTagOf(tag: Option<string>, requestTime: string, processTime: string)
    ensures MetaTag(JsonCell(MetaJson(tag, requestTime, processTime)))
      == (match tag case Some(t) => Some(String(t)) case None => None)
  {
    var fields := MetaJson(tag, requestTime, processTime).fields;
    assert fields[1..][1..] == (match tag case Some(t) => [("tag", String(t))] case None => []);
    assert Lookup(fields, "tag") == Lookup(fields[1..], "tag") == Lookup(fields[1..][1..], "tag");
  }

  /** A header value as text, or "" when it is not visible ASCII. */
  function HeaderText(v: string): string {
    if forall i :: 0 <= i < |v| ==> (32 <= v[i] as int < 127 || v[i] == '\t') then v else ""
  }

  /** The response headers as an object (a repeated name keeps its last value). */
  function HeadersJson(hs: seq<(string, string)>): seq<(string, Json)> {
    FromPairs(seq(|hs|, i requires 0 <= i < |hs| => (hs[i].0, String(HeaderText(hs[i].1)))))
  }

  /** The headers object has one entry per received name: the last value
      received under that name, or "" when that value is not visible ASCII. */
  lemma HeadersJsonLookup(hs: seq<(string, string)>, k: string, j: nat)
    requires j < |hs| && hs[j].0 == k
    requires forall m :: j < m < |hs| ==> hs[m].0 != k
    ensures UniqueKeys(HeadersJson(hs))
    ensures Lookup(HeadersJson(hs), k) == Some(String(hs[j].1)) || Lookup(HeadersJson(hs), k) == Some(String(""))
    ensures (forall i :: 0 <= i < |hs[j].1| ==> 32 <= hs[j].1[i] as int < 127 || hs[j].1[i] == '\t') ==>
      Lookup(HeadersJson(hs), k) == Some(String(hs[j].1))
    ensures (exists i :: 0 <= i < |hs[j].1| && !(32 <= hs[j].1[i] as int < 127 || hs[j].1[i] == '\t')) ==>
      Lookup(HeadersJson(hs), k) == Some(String(""))
  {
    var pairs := seq(|hs|, i requires 0 <= i < |hs| => (hs[i].0, String(HeaderText(hs[i].1))));
    FromPairsLookup(pairs, k);
    LastValueAt(pairs, k, j);
  }

  /** A name that was not received has no entry. */
  lemma HeadersJsonAbsent(hs: seq<(string, string)>, k: string)
    requires forall m :: 0 <= m < |hs| ==> hs[m].0 != k
    ensures Lookup(HeadersJson(hs), k) == None
  {
    var pairs := seq(|hs|, i requires 0 <= i < |hs| => (hs[i].0, String(HeaderText(hs[i].1))));
    FromPairsLookup(pairs, k);
    assert k !in Keys(pairs);
  }

  function TwoDigits(n: nat): string
    requires n < 100
  {
    [DigitChar(n / 10), DigitChar(n % 10)]
  }

  /** A duration in milliseconds as seconds with two decimals. */
  function SecondsText(ms: nat): string {
    var cs := (ms + 5) / 10;
    NatToString(cs / 100) + "." + TwoDigits(cs % 100)
  }

  /** What an outcome contributes to the record. */
  datatype Classified = Classified(status: string, response: Cell, exception: Cell)

  /** Classification of the outcome. */
  function Classify(outcome: Outcome, timeoutMs: nat): Classified {
    match outcome
    case Response(status, hs, body) =>
      var content := match body case Body(t) => t case BodyError(d) => "Failed to read response text: " + d;
      Classified(
        NatToString(status),
        JsonCell(Object([("headers", Object(HeadersJson(hs))), ("content", String(content))])),
        if IsSuccess(status) then Plain("{}")
        else JsonCell(ErrorJson("HttpStatusError", "HTTP status error: " + NatToString(status))))
    case SendError(d) =>
      Classified("0", EmptyResponse, JsonCell(ErrorJson("HttpError", "Request error: " + d)))
    case TimedOut =>
      Classified("0", EmptyResponse,
                 JsonCell(ErrorJson("Timeout", "Request timeout after " + SecondsText(timeoutMs) + " seconds")))
  }

  /** The status text is "0" exactly when no response arrived. */
  lemma ClassifiedStatus(outcome: Outcome, timeoutMs: nat)
    ensures Classify(outcome, timeoutMs).status == "0" <==> !outcome.Response?
  {
    if outcome.Response? {
      NatToStringZero(outcome.status);
    }
  }

  /** The record of a request that reached the network. */
  function AttemptRecord(tag: Option<string>, timeoutMs: nat, outcome: Outcome, timing: Timing): (r: Record)
    ensures r.Keys == RecordKeys
    ensures r["http_status"] == Plain("0") <==> !outcome.Response?
    ensures outcome.Response? ==> r["http_status"] == Plain(NatToString(outcome.status))
    ensures outcome.Response? ==> (r["exception"] == Plain("{}") <==> IsSuccess(outcome.status))
    ensures outcome.Response? && !IsSuccess(outcome.status) ==>
      r["exception"] == JsonCell(ErrorJson("HttpStatusError", "HTTP status error: " + NatToString(outcome.status)))
    ensures outcome.SendError? ==>
      r["response"] == EmptyResponse && r["exception"] == JsonCell(ErrorJson("HttpError", "Request error: " + outcome.details))
    ensures outcome.TimedOut? ==>
      r["response"] == EmptyResponse
      && r["exception"] == JsonCell(ErrorJson("Timeout", "Request timeout after " + SecondsText(timeoutMs) + " seconds"))
    ensures outcome.Response? ==>
      r["response"] == JsonCell(Object([("headers", Object(HeadersJson(outcome.headers))),
                                        ("content", String(match outcome.body
                                                           case Body(t) => t
                                                           case BodyError(d) => "Failed to read response text: " + d))]))
    ensures r["meta"] == JsonCell(MetaJson(tag, timing.start + " -> " + timing.end, timing.processTime))
    ensures MetaTag(r["meta"]) == (match tag case Some(t) => Some(String(t)) case None => None)
  {
    var c := Classify(outcome, timeoutMs);
    MetaTagOf(tag, timing.start + " -> " + timing.end, timing.processTime);
    ClassifiedStatus(outcome, timeoutMs);
    map["response" := c.response,
        "http_status" := Plain(c.status),
        "exception" := c.exception,
        "meta" := JsonCell(MetaJson(tag, timing.start + " -> " + timing.end, timing.processTime))]
  }

  /** The record of a request whose proxy configuration could not be turned
      into a client: status "0", an empty response text, a ProxyError, and
      meta with no times. */
  function ProxyErrorRecord(reason: string, tag: Option<string>): (r: Record)
    ensures r.Keys == RecordKeys
    ensures r["http_status"] == Plain("0") && r["response"] == Plain("")
    ensures r["exception"] == JsonCell(ErrorJson("ProxyError", "Proxy configuration error: " + reason))
    ensures r["meta"] == JsonCell(MetaJson(tag, "", "0.0000"))
    ensures MetaTag(r["meta"]) == (match tag case Some(t) => Some(String(t)) case None => None)
  {
    MetaTagOf(tag, "", "0.0000");
    map["response" := Plain(""),
        "http_status" := Plain("0"),
        "exception" := JsonCell(ErrorJson("ProxyError", "Proxy configuration error: " + reason)),
        "meta" := JsonCell(MetaJson(tag, "", "0.0000"))]
  }

  // ------------------------------------------------------- client building

  /** `builder.proxy(Proxy::...(url)?)`: the proxy is appended, or the
      builder is abandoned with the reason the proxy URL was refused. */
  method Attach(builder: ClientBuilder, route: ProxyRoute, env: Env) returns (r: Result<ClientBuilder, string>)
    ensures env.proxyReject(route.url).Some? ==> r == Failure(env.proxyReject(route.url).value)
    ensures env.proxyReject(route.url).None? ==> r == Success(builder.(proxies := builder.proxies + [route]))
  {
    match env.proxyReject(route.url) {
      case Some(reason) =>
        r := Failure(reason);
      case None =>
        r := Success(builder.(proxies := builder.proxies + [route]));
    }
  }

  /** The scheme branch both executors share, applied to a builder. */
  method AttachSchemeProxy(builder: ClientBuilder, url: string, http: Option<string>, https: Option<string>, env: Env)
    returns (r: Result<ClientBuilder, string>)
    ensures var choice := SchemeProxy(url, http, https, env);
      && (choice.ProxyError? ==> r == Failure(choice.reason))
      && (!choice.ProxyError? ==> r == Success(builder.(proxies := builder.proxies + Routes(choice))))
  {
    assert builder.(proxies := builder.proxies + []) == builder;
    r := Success(builder);
    match env.parseUrl(url) {
      case Failure(e) =>
        r := Failure(e);
      case Success(parsed) =>
        if parsed.scheme == "http" {
          if http.Some? {
            r := Attach(builder, HttpRoute(http.value), env);
          }
        } else if parsed.scheme == "https" {
          if https.Some? {
            r := Attach(builder, HttpsRoute(https.value), env);
          }
        }
    }
  }

  // -------------------------------------------------------------- dispatch

  /** The body of `execute_single_request` after the client decision.
      `selection` is None when no proxy configuration applies, otherwise the
      result of building the proxied client. `outcome` and `timing` stand
      for what the network and the clock did. `sent` is the request put on
      the wire, with the client it went out on. */
  method Dispatch<P>(req: RequestItem<P>, selection: Option<Result<ClientBuilder, string>>, baseClient: Option<ClientId>,
                     env: Env, outcome: Outcome, timing: Timing)
    returns (result: Record, sent: Option<Attempt>)
    ensures selection.Some? && selection.value.Failure? ==>
      result == ProxyErrorRecord(selection.value.error, req.tag) && sent.None?
    ensures !(selection.Some? && selection.value.Failure?) ==>
      && result == AttemptRecord(req.tag, EffectiveTimeoutMs(req.timeoutMs), outcome, timing)
      && sent.Some? && sent.value.request == Prepare(req, env)
      && sent.value.client == (if selection.Some? then Fresh(selection.value.value)
                               else if baseClient.Some? then Base(baseClient.value) else GlobalClient)
  {
    result := map["response" := Plain("")];
    var client: ClientChoice;
    match selection {
      case Some(Failure(reason)) =>
        result := result["http_status" := Plain("0")];
        result := result["exception" := JsonCell(ErrorJson("ProxyError", "Proxy configuration error: " + reason))];
        result := result["meta" := JsonCell(MetaJson(req.tag, "", "0.0000"))];
        sent := None;
        return;
      case Some(Success(builder)) =>
        client := Fresh(builder);
      case None =>
        client := if baseClient.Some? then Base(baseClient.value) else GlobalClient;
    }
    var request := Prepare(req, env);
    sent := Some(Attempt(client, request));
    result := RecordOutcome(result, req.tag, request.timeoutMs, outcome, timing);
  }

  /** The record filling of a request that reached the network: status,
      response and exception from the outcome, then the meta object. */
  method RecordOutcome(start: Record, tag: Option<string>, timeoutMs: nat, outcome: Outcome, timing: Timing)
    returns (result: Record)
    requires start.Keys == {"response"}
    ensures result == AttemptRecord(tag, timeoutMs, outcome, timing)
  {
    ghost var c := Classify(outcome, timeoutMs);
    result := start;
    match outcome {
      case Response(status, hs, body) =>
        result := result["http_status" := Plain(NatToString(status))];
        var content := match body case Body(t) => t case BodyError(d) => "Failed to read response text: " + d;
        result := result["response" := JsonCell(Object([("headers", Object(HeadersJson(hs))), ("content", String(content))]))];
        if !IsSuccess(status) {
          result := result["exception" := JsonCell(ErrorJson("HttpStatusError", "HTTP status error: " + NatToString(status)))];
        } else {
          result := result["exception" := Plain("{}")];
        }
        assert result == map["response" := c.response, "http_status" := Plain(c.status), "exception" := c.exception];
      case SendError(d) =>
        result := result["http_status" := Plain("0")];
        result := result["exception" := JsonCell(ErrorJson("HttpError", "Request error: " + d))];
        result := result["response" := EmptyResponse];
        assert result == map["response" := c.response, "http_status" := Plain(c.status), "exception" := c.exception];
      case TimedOut =>
        result := result["http_status" := Plain("0")];
        result := result["exception" := JsonCell(ErrorJson("Timeout", "Request timeout after "
                                                  + SecondsText(timeoutMs) + " seconds"))];
        result := result["response" := EmptyResponse];
        assert result == map["response" := c.response, "http_status" := Plain(c.status), "exception" := c.exception];
    }
    result := result["meta" := JsonCell(MetaJson(tag, timing.start + " -> " + timing.end, timing.processTime))];
  }
}
