# rusty-req: the request decision layer, in Dafny

rusty-req is a Python extension, written in Rust with pyo3, that sends HTTP
requests singly or in batches. Each request produces a result record with the
keys `response`, `http_status`, `exception` and `meta`. This project models the
deterministic part of that pipeline and proves properties of it:

- HTTP version modes: parsing, printing, capabilities, and the client-builder
  flags they set.
- Both proxy-configuration records and their constructors.
- Proxy selection:
  - the top-level version, with its `no_proxy` bypass list;
  - the `request::executor` version, which injects credentials into the `all`
    proxy and ignores the bypass list.
- Normalisation of a request:
  - the method defaults to GET and is upper-cased;
  - the timeout has a 3 s floor;
  - header entries are filtered;
  - params are routed to the query string (GET and DELETE) or to a JSON body
    (every other method).
- The conversion of Python values to JSON.
- Turning the network's outcome into the result record, including the
  proxy-error record.
- The two batch modes (`SELECT_ALL`, `JOIN_ALL`) and their deadline records.

The network, the clock and the URL and HTTP libraries are parameters:

- `Network.Env` supplies:
  - URL parsing and serialisation;
  - the check `Proxy::all/http/https` makes on a proxy URL;
  - header-name and header-value validation.
- `Request.Outcome` is what the network did with a request.
- `Request.Timing` is the formatted start time, end time and elapsed time.
- `Batch.Run` is, for each request of a batch, how long its executor would
  take and the record it would return.

Timeouts are whole milliseconds.

Both `execute_single_request` functions share their non-proxy code, and the
model shares it too:

- `Request.Dispatch` and `Request.RecordOutcome` cover that common code.
- `Lib.ExecuteSingleRequest` and `Executor.ExecuteSingleRequest` each add
  their own proxy decision.
- `Request.Attach` and `Request.AttachSchemeProxy` are the builder steps the
  two `create_client_with_proxy` functions have in common.

Where the described behaviour and the code differ, the model follows the code,
with one exception. The query-string rule is modelled as corrected
(`Request.QueryValue`); the code as written is `Request.QueryValueAsWritten`,
under "## Findings". Every member that routes params uses the corrected rule:
`Request.RouteParams`, `Request.Prepare`, `Request.Dispatch` and both
`ExecuteSingleRequest`. The other differences:

- `JOIN_ALL` is not a batch with one overall deadline, and it is not
  all-or-nothing. It awaits the requests one after another, and each request
  gets a deadline of the full batch duration. Its results are the same as in
  `SELECT_ALL` (`Lib.ExecuteWithJoinAll`, `Concurrency.ExecuteWithJoinAll`),
  but its wall time can reach one batch duration per request
  (`Batch.SequentialBatchOverruns`).
- In `src/request/concurrency.rs` a request that misses the deadline gets a
  record holding only `http_status`. `fetch_requests`
  (`src/request/executor.rs:280`) indexes `response` in every record, so a
  batch with a late request makes that lookup fail. `Executor.FetchRequests`
  states exactly which records have a `response` entry.
- The top-level deadline record has no tag. The dead-code
  `create_global_timeout_result` does carry the tag
  (`Lib.DeadlineRecordLosesTag`).

## Model

| member | source | states |
|---|---|---|
| HttpVersionMode.New | src/network/http_version.rs:21-24 | the default mode is AUTO, which allows HTTP/2 and does not force it |
| HttpVersionMode.FromStrAliases | src/network/http_version.rs:54-65 | in both directions, each mode is chosen exactly by its upper-cased aliases ("" is AUTO); every other text is an error |
| HttpVersionMode.FromStrCaseInsensitive | src/network/http_version.rs:56 | parsing depends only on the ASCII upper-cased text |
| HttpVersionMode.NameRoundTrip | src/network/http_version.rs:40-47 | every `__str__` name parses back to its mode |
| HttpVersionMode.ReprRoundTrip | src/network/http_version.rs:49-51 | `__repr__` is "HttpVersion." followed by a name that parses back to the mode |
| HttpVersionMode.CapabilitiesExactly | src/network/http_version.rs:77-88 | only HTTP1_ONLY lacks HTTP/2; only HTTP2_PRIOR_KNOWLEDGE forces it; forcing implies support |
| HttpVersionMode.ApplyToBuilder | src/network/http_version.rs:93-100 | only the two protocol flags can change; http1_only is set iff HTTP/2 is unsupported and prior knowledge iff HTTP/2 is forced; AUTO and HTTP2 leave the builder unchanged |
| HttpVersionMode.BuilderFlagsMatchCapabilities | src/network/http_version.rs:93-100 | starting from the base builder, the flags equal the capabilities and are never both set |
| ProxyConfigs.New | src/network/proxy_config.rs:24-44 | every field is the argument given; each argument defaults to None |
| ProxyConfigs.FromUrl | src/network/proxy_config.rs:46-63 | `all` is the URL; there are no scheme proxies and no bypass list; credentials and trust_env are passed through |
| ProxyConfigs.FromDict | src/network/proxy_config.rs:65-83 | scheme proxies only; no `all` and no bypass list; credentials and trust_env are passed through |
| PyToJson.PyToJson | src/utils/py_to_json.rs:5-21 | the recursive conversion with its loops equals the specification function `ToJson` |
| PyToJson.ScalarCaseOrder | src/utils/py_to_json.rs:6-9 | bool wins over int (True never becomes 1); then string, i64 and f64; a NaN or infinite float becomes 0; an unconvertible scalar becomes its `str()` text |
| PyToJson.ListConversion | src/utils/py_to_json.rs:10-14 | a list becomes an array of the same length whose elements are converted in order |
| PyToJson.DictConversion | src/utils/py_to_json.rs:15-19 | a dict becomes an object with no duplicate key; its keys are the `str()` texts of the dict's keys; a key whose text repeats keeps the last value |
| Json.FromPairsLookup | src/utils/py_to_json.rs:16-17 | inserting pairs one by one gives unique keys, the same key set, and the last value for each key |
| Json.InsertLookup | src/utils/py_to_json.rs:17 | after an insert, the key holds the new value and every other key keeps its value |
| Json.InsertKeys | src/utils/py_to_json.rs:17 | an insert keeps the key order and appends only a new key |
| Json.EscapeIdentity | src/request/executor.rs:130 | a string with nothing to escape is written unchanged inside its quotes |
| Text.Upper | src/network/http_version.rs:56 | upper-casing keeps the length and upper-cases each character |
| Text.UpperIdempotent | src/network/http_version.rs:56 | upper-casing twice is the same as once |
| Text.ContainsIff | src/lib.rs:208 | `str::contains` holds iff the pattern occurs at some position |
| Text.TrimQuotesUnwraps | src/request/executor.rs:130 | trimming quotes from a quoted string that contains no quote gives the string back |
| Text.NatToStringZero | src/request/executor.rs:149 | a status prints as "0" iff it is zero |
| Network.BaseBuilder | src/request/executor.rs:21-26 | a 30 s timeout, gzip, brotli and deflate on, the fixed user agent, no protocol flags and no proxy |
| Network.SchemeProxy | src/request/executor.rs:47-60 | a target URL that does not parse is an error; an http or https URL takes its own scheme's proxy, if one is configured and accepted; anything else gets no proxy |
| Network.Checked | src/request/executor.rs:45 | a refused proxy URL gives an error carrying the reason; an accepted one keeps the choice |
| Network.SetUsername | src/request/executor.rs:34 | credentials change only on a URL with a non-empty host that is not a `file` URL |
| Network.SetPassword | src/request/executor.rs:35 | credentials change only on a URL with a non-empty host that is not a `file` URL |
| Request.EffectiveProxy | src/request/executor.rs:73 | the request's own proxy configuration overrides the global one |
| Request.EffectiveMethod | src/request/executor.rs:96-97 | the result is always a valid upper-case method; it is the upper-cased input when that is a valid token, and GET when the input is absent or invalid |
| Request.EffectiveTimeoutMs | src/request/executor.rs:100 | never below 3 s; the default is 30 s; a timeout of at least 3 s is kept and a shorter one is raised to 3 s |
| Request.HeaderPairsExactlyAccepted | src/request/executor.rs:104-119 | the headers sent are exactly the entries with string keys and values, a valid name and a valid value |
| Request.QueryValue | src/request/executor.rs:129-131 | a string parameter is sent as itself; any other value as its JSON text with the quotes trimmed |
| Request.QueryValueAsWrittenMangles | src/request/executor.rs:130 | the code as written sends `a"` as `a\` |
| Request.QueryValueAsWrittenPlain | src/request/executor.rs:130 | for strings with nothing to escape, the code as written and the corrected rule agree |
| Request.RouteParams | src/request/executor.rs:121-142 | with the corrected query rule (see Findings): GET and DELETE send the converted params as query pairs and no body; other methods send them as a JSON body and no query; without params there is neither |
| Request.QueryCarriesStringParam | src/request/executor.rs:127-134 | under the corrected query rule (see Findings), for GET or DELETE, a parameter whose last value is the string s is sent as the query pair (key, s) |
| Request.Prepare | src/request/executor.rs:96-142 | the outbound request has the effective method, URL, timeout and headers; its query and body are where `RouteParams` (corrected query rule) puts the params for that method, so never both |
| Request.ProxiedBuilder | src/request/executor.rs:21-28 | a proxied client has the base settings, the version flags and exactly the chosen proxy |
| Request.HeadersJsonLookup | src/request/executor.rs:152-154 | the headers object has no repeated name; a received name holds the last value received under it, or "" when that value is not visible ASCII |
| Request.HeadersJsonAbsent | src/request/executor.rs:152-154 | a name that was not received has no entry |
| Request.AttemptRecord | src/request/executor.rs:146-222 | the record has exactly the four keys; status "0" iff there was no response; a received response, whatever its status, stores its headers and its body text (or the body-read failure message); exception "{}" iff the status is 2xx, and a non-2xx status gives an HttpStatusError; send and timeout errors give their typed exceptions with an empty response; meta carries the start and end times, the elapsed time, and the tag iff there is one |
| Request.ProxyErrorRecord | src/request/executor.rs:78-91 | status "0", an empty response text, a ProxyError exception with the reason, and meta with no times plus the tag if there is one |
| Request.MetaTagOf | src/request/executor.rs:221 | the meta object carries the request's tag exactly when it has one |
| Request.Attach | src/request/executor.rs:45 | an accepted proxy is appended to the builder; a refused one fails with the reason |
| Request.AttachSchemeProxy | src/request/executor.rs:46-61 | the scheme branch attaches exactly the proxy `SchemeProxy` chooses, or fails with its error |
| Request.Dispatch | src/request/executor.rs:66-225 | a failed proxied client gives the proxy-error record and sends nothing; otherwise the prepared request goes out on the proxied client, else the base client, else the global client, and the record is the outcome's record; the request sent uses the corrected query rule |
| Request.RecordOutcome | src/request/executor.rs:146-222 | filling the record insert by insert yields the outcome's record |
| Batch.CollectAll | src/request/concurrency.rs:48-62 | one result per request, in order: the request's own record if it finished in time, the deadline record otherwise |
| Batch.ConcurrentElapsed | src/request/concurrency.rs:62 | the concurrent batch ends by the deadline, and no sooner than any request that is still running; it ends exactly when the last request finishes or is cut off (the largest capped duration; 0 for an empty batch) |
| Batch.SequentialElapsedBound | src/request/concurrency.rs:72-81 | the sequential batch takes at most one batch duration per request |
| Batch.SequentialBatchOverruns | src/request/concurrency.rs:72-81 | two requests that each take the whole duration both complete in sequence, after twice the duration |
| Batch.RunInSequence | src/request/concurrency.rs:70-83 | the loop gives the collected results and the sequential elapsed time |
| Lib.NewProxyConfig | src/lib.rs:81-84 | every field is the argument given |
| Lib.ProxyConfigFromUrl | src/lib.rs:85-88 | one proxy for every scheme and no bypass list |
| Lib.ProxyConfigFromDict | src/lib.rs:89-92 | scheme proxies only, with no bypass list |
| Lib.AnyPatternMatchesIff | src/lib.rs:207-209 | the pattern loop matches iff some pattern is "*" or a substring of the host |
| Lib.ShouldUseProxy | src/lib.rs:203-214 | the proxy is skipped iff there is a bypass list, the URL parses and has a host, and some pattern is "*" or a substring of that host |
| Lib.EmptyPatternBypassesAll | src/lib.rs:208 | an empty pattern, like "*", bypasses every URL that has a host |
| Lib.SelectProxy | src/lib.rs:216-236 | a bypassed URL gets no proxy; an `all` proxy is used only if configured, and an unbypassed URL with `all` set gets it or fails; an unbypassed URL with no `all` gets exactly what the scheme rule `SchemeProxy` chooses (its http or https proxy, if configured and accepted); a scheme proxy is used only with no `all` and is the configured one |
| Lib.SelectProxyErrors | src/lib.rs:226-236 | the decision fails iff the URL is not bypassed and either `all` is refused, or there is no `all` and the target does not parse or its scheme proxy is refused |
| Lib.SelectProxyRoutes | src/lib.rs:226-236 | at most one proxy is attached; a bypassed URL gets none; an accepted, unbypassed `all` is the one; a scheme proxy serves only its own scheme (the converse, that an unbypassed URL with no `all` gets its scheme's proxy, is on `Lib.SelectProxy`) |
| Lib.CreateClientWithProxy | src/lib.rs:216-238 | the builder is the proxied builder of the decision, or the failure the decision reports |
| Lib.ExecuteSingleRequest | src/lib.rs:277-430 | a refused proxy gives the proxy-error record and sends nothing; otherwise the prepared request (with the corrected query rule) goes out on the proxied, base or global client, and the record reflects the outcome |
| Lib.GlobalTimeoutRecord | src/lib.rs:258-275 | status "0", an empty response, a GlobalTimeout exception, and meta with empty request_time, process_time "0.0000", and the tag if there is one |
| Lib.DeadlineRecordLosesTag | src/lib.rs:448-462 | the inline deadline record is the global-timeout record of an untagged request, and so differs from a tagged request's one |
| Lib.ExecuteWithSelectAll | src/lib.rs:437-470 | one result per request, in order; a late request gets the GlobalTimeout record; if the executor records are complete, so are the results |
| Lib.ExecuteWithJoinAll | src/lib.rs:472-503 | the same results as the concurrent mode, all complete records when the executor records are, in at most one batch duration per request |
| Executor.ProxyUrl | src/request/executor.rs:31-44 | a username (and possibly a password) is written into the parsed `all` URL; a URL that does not parse is an error; a password alone or no credentials leaves the text as given |
| Executor.ProxyUrlCredentials | src/request/executor.rs:32-37 | both credentials are written in when the URL can carry them; otherwise the URL is only re-serialised |
| Executor.SelectProxy | src/request/executor.rs:30-61 | without `all` the scheme rule decides; with `all` the result is that proxy with the credentials written in, or an error; without a username an accepted `all` is used as given |
| Executor.SelectProxyIgnores | src/request/executor.rs:30-61 | the bypass list and trust_env never matter; when `all` is set, neither the target URL nor the scheme proxies matter |
| Executor.UnparseableTargetFails | src/request/executor.rs:47 | without `all`, a target URL that does not parse is a proxy error |
| Executor.FromUrlRoutesEverything | src/request/executor.rs:30-45 | for any credentials, a `from_url` configuration sends every URL through its proxy with those credentials written in, or fails on that proxy or on parsing it; without credentials the proxy is the URL as given |
| Executor.FromDictByScheme | src/request/executor.rs:46-61 | a `from_dict` configuration chooses the proxy by the target's scheme |
| Executor.BypassListDivergence | src/request/executor.rs:30 | with no_proxy ["*"], the top level uses no proxy while this executor still uses `all` |
| Executor.CreateClientWithProxy | src/request/executor.rs:16-64 | the builder is the proxied builder of this executor's decision, or that decision's failure |
| Executor.ExecuteSingleRequest | src/request/executor.rs:66-225 | as at the top level, but with this executor's proxy decision; the request sent uses the corrected query rule |
| Executor.FetchRequests | src/request/executor.rs:263-274 | the batch duration defaults to 30 s and the mode to SELECT_ALL; both modes give the same results; given complete executor records, a result has a response entry iff its request finished in time |
| Concurrency.New | src/request/concurrency.rs:21-23 | the default mode is SELECT_ALL |
| Concurrency.Repr | src/request/concurrency.rs:38-40 | `__repr__` is "ConcurrencyMode." followed by the name; "ConcurrencyMode.SELECT_ALL" and "ConcurrencyMode.JOIN_ALL" each belong to exactly one mode |
| Concurrency.NamesDistinct | src/request/concurrency.rs:31-40 | distinct modes have distinct `__str__` names |
| Concurrency.ExecuteWithSelectAll | src/request/concurrency.rs:43-63 | one result per request, in order; a late request gets a record with only status "0"; given complete executor records, a result has a response iff its request was in time |
| Concurrency.ExecuteWithJoinAll | src/request/concurrency.rs:65-84 | the same results as the concurrent mode, so a late request has no response entry, in at most one batch duration per request |

## Findings

| source | as written | input that shows it | evidently intended | confidence | as-written member | corrected member |
|---|---|---|---|---|---|---|
| src/request/executor.rs:130 (also src/lib.rs:341) | a query value is the value's JSON text with every leading and trailing `"` trimmed, so a string keeps its escapes and loses its own edge quotes | GET with params {"q": "a\""} sends q=`a\` | a string parameter is sent as the string itself | high (not executed) | Request.QueryValueAsWritten (Request.QueryValueAsWrittenMangles) | Request.QueryValue (used by Request.RouteParams) |

## Left out

- The network itself is not modelled:
  - the send, the response and the body read are the parameter `Outcome`;
  - whether reqwest's own timeout (reported as a send error) or the outer timer
    fires first is part of that parameter.
- The clock and chrono's date formatting are the parameter `Timing`; the
  `{:.4}` formatting of elapsed time is part of it.
- Request.SecondsText: the `{:.2}` formatting of the timeout works on
  milliseconds and rounds halves up, whereas Rust formats the binary float.
  A fractional-millisecond timeout is not modelled.
- Request.EffectiveTimeoutMs: timeouts are whole milliseconds, not f64.
  `f64::max` maps NaN and negative infinity to the 3 s floor, and the model
  does the same for every small value. A timeout of positive infinity, or one
  too large for a `Duration`, panics in `Duration::from_secs_f64`
  (src/request/executor.rs:100, src/lib.rs:311). Unbounded integers admit
  every large value, so this panic is not modelled.
- Executor.FetchRequests: the batch duration (src/request/executor.rs:263,
  src/lib.rs:574) gets no floor. A negative, NaN, infinite or too-large
  `total_timeout` panics in `Duration::from_secs_f64`. The model takes
  `Option<nat>` milliseconds, so this panic is not modelled. The same holds for
  Lib.ExecuteWithSelectAll and Lib.ExecuteWithJoinAll.
- Text.Upper: only ASCII is upper-cased. Rust's `to_uppercase` also maps other
  letters, and can change a string's length.
- Url parsing, serialisation and percent-encoding of query pairs are the
  functions in `Network.Env`; the model does not re-derive them.
- Json.JsonText writes object keys in insertion order, which serde_json keeps
  only with its `preserve_order` feature. The same holds for the order of
  Request.QueryPairs: without that feature the query pairs leave in sorted
  key order. Float text is taken as given (`Num.F64`).
- HttpVersionMode.ApplyToBuilder: the builder's `http1Only` and
  `http2PriorKnowledge` are two independent flags. In reqwest, `http1_only` and
  `http2_prior_knowledge` overwrite one shared version preference, so the last
  call wins. From the base builder each flag is set at most once
  (`HttpVersionMode.BuilderFlagsMatchCapabilities`), so the difference never
  shows in the model.
- Errors from `ClientBuilder::build` (for example TLS back-end failures) are
  not modelled: a builder that passes its proxy checks is taken to build.
- Python binding glue is not modelled: argument extraction, `fetch_single`,
  conversion of results to dicts, `set_global_proxy`, and the ConcurrencyMode
  and RequestItem constructors in `src/lib.rs`. The global proxy is an
  argument, not shared state.
- Locking and task concurrency are not modelled. A batch is modelled through
  each request's duration and record; interleavings are not.
- The debug sink (`debug_log`, `set_debug`) and `HttpVersion.description` are
  left out; they produce text that no modelled behaviour depends on.
- `ssl_verify` and `trust_env` are never read by the modelled code.
  `trust_env` is kept in ProxyConfigs.ProxyConfig; `ssl_verify` is left out.
- The top-level `py_to_json` (src/lib.rs:240-256) and ConcurrencyMode
  (src/lib.rs:70-107) are identical to those in src/utils/py_to_json.rs and
  src/request/concurrency.rs. They are modelled once, by PyToJson.ToJson and
  Concurrency.ConcurrencyMode.
- PyToJson.ToJson: pyo3 extraction outcomes are given per value
  (`HostValue`). Big integers and Decimals reach the f64 case through them;
  a `str()` that raises is not modelled.
