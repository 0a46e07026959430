# hraftd HTTP service: request dispatch

hraftd is a key-value store replicated with Raft. Its HTTP service,
`http/service.go`, is the front door. `ServeHTTP` routes each request by
URL path:

- `/key...` goes to the key handler, where GET reads a key, POST sets every
  entry of a JSON object, DELETE removes a key, and any other method gets 405;
- `/join` adds a node to the cluster;
- `/status` returns the Raft status;
- anything else gets 404.

The key handler counts errors in a Prometheus counter labelled with the
status code. It also tries to record one latency observation per request
in a Prometheus summary, from a deferred call; on error paths the summary
refuses it (see Findings).

This project models that dispatcher as a pure function. The function maps a
request, an environment and the current store contents to an outcome:

- the status the client receives;
- the body written;
- the ordered trace of `Store` calls (`Get`, `Set`, `Delete`, `Join`, `Status`);
- the ordered metric events (summary observations and counter increments, each
  with its label map);
- the store contents afterwards.

The `Store` interface is an oracle. It has a status string and a predicate
saying which call fails on which contents. A call that succeeds applies its
effect: `Set` assigns, `Delete` removes. `json.Marshal` is a second oracle.
The JSON decoder's result is part of the request: a sequence of distinct-key
entries in the order a Go range loop visits them, or `None` when decoding
failed. Every property is proved for every such order.

The response writer follows `net/http`:

- the first `WriteHeader` fixes the status;
- writing a body first fixes it at 200;
- a response with neither is 200.

This matters for GET with an empty key. Line 171 commits 400, and execution
still goes on to `Store.Get` at line 173.

A successful DELETE calls `Delete(k)` twice and ignores the second result
(lines 217-223). The model keeps both calls.

The deferred latency observation at lines 153-156 is refused by the
summary on every error path (see Findings). `Service.HandleKeyAsWritten`
models it as written. `Service.HandleKey` is the corrected handler, and
`Service.ServeHTTP` dispatches to it.

Modules:

- `Wrappers`: `Option`.
- `Strings`: `strings.HasPrefix`, `strings.Split` and `strings.Join` on `/`,
  and `fmt.Sprint` of a status code.
- `Payload`: a decoded `map[string]string` and how a range loop writes it.
- `Store`: the call trace and the oracle.
- `Response`: the writer.
- `Metrics`: metric events and the label names each vector is registered with.
- `Service`: `ServeHTTP`, the three handlers and `getKey`.
- `Instrumentation`: the metric invariant of the key handler.
- `ServiceProperties`: the behaviour of each route and method.

## Model

| member | source | states |
|---|---|---|
| Strings.Split | http/service.go:159 | `strings.Split(path, "/")` yields one more part than the path has slashes; no part contains `/`; joining the parts with `/` gives back the path |
| Strings.SplitJoin | http/service.go:159 | Splitting a `/`-join of slash-free parts gives back exactly those parts |
| Strings.Decimal | http/service.go:169 | `fmt.Sprint` of a status code is a non-empty digit string without a leading zero whose decimal value is the code |
| Strings.StatusLabels | http/service.go:168-177 | The status labels written by the error paths are "400", "405" and "500" |
| Payload.KeysOf | http/service.go:193-200 | Every entry's key is in the key set and every key in it comes from an entry; with distinct keys there is one key per entry |
| Payload.ToMapContents | http/service.go:118-124 | The decoded map has exactly the entries' keys and one element per entry, and each key maps to its entry's value (the `len(m)` the join handler tests) |
| Payload.OverlayContents | http/service.go:200-207 | Writing distinct-key entries in turn adds exactly their keys, gives each its entry's value, and leaves every other key's value alone |
| Payload.OverlayPrefix | http/service.go:200-207 | After writing the first n entries, each of them holds its value and every key not among the entries is unchanged |
| Store.After | http/service.go:36-52 | A failed Store call leaves the contents unchanged. Get, Join and Status never change them. A successful Set assigns its key and nothing else. A successful Delete removes its key |
| Response.FirstStatusWins | http/service.go:168-189 | Once a status is committed, neither `WriteHeader` nor a body write changes it. Before that, `WriteHeader` decides it and a body write makes it 200. Writes append to the body |
| Service.GetKey | http/service.go:158-164 | `getKey` is "" unless the path has exactly two slashes. With exactly two, the key is the slash-free text after the last slash (so `/key/` gives "") |
| Service.SetEach | http/service.go:200-207 | The Set loop attempts at most one call per entry. Every committed entry's Set succeeded on the contents its predecessors left. The run stops at the first failing Set, which then ends it. The contents are those of the committed entries written in order |
| Service.GetLookup | http/service.go:167-173 | The GET branch issues exactly `Get(k)` and leaves the contents alone. Before it, an empty key has committed 400 with nothing written; otherwise nothing is committed yet |
| Service.KeyGet | http/service.go:166-189 | GET makes exactly one call, `Get(k)`, and changes nothing. The status is 200, 400 or 500, and 400 whenever the key is empty. A 200 means the lookup succeeded, the encoding of `{k: v}` succeeded, and that encoding is the body |
| Service.KeyPost | http/service.go:191-207 | An undecodable body gives 400 with no call and no change. Otherwise the calls are Sets of a prefix of the entries, at most one per entry. The status is 200, 400 or 500. A 200 means every entry was set in order and written. POST writes no body |
| Service.KeyDelete | http/service.go:209-223 | An empty key gives 400 with no call. A failing Delete gives 500 after one call, with no change. A successful one is followed by a second `Delete(k)`, and the key is gone with 200. DELETE writes no body |
| Service.KeyHandler | http/service.go:165-229 | The method switch ends with status 200, 400, 405 or 500, and with 405 exactly when the method is none of GET, POST and DELETE |
| Service.HandleKey | http/service.go:147-231 | The corrected `handleKeyRequest` (see Findings) ends with status 200, 400, 405 or 500, and with 405 exactly for the other methods. Its last event is the latency observation labelled by endpoint and method |
| Service.HandleKeyAsWritten | http/service.go:147-231 | `handleKeyRequest` as written ends with status 200, 400, 405 or 500, and with 405 exactly for the other methods. Its last event is the latency observation |
| Service.HandleJoin | http/service.go:117-145 | Join records no metric and writes no body. It makes at most one call, and that call is a `Join`. The status is 200, 400 or 500. It is 400 exactly when no call was made, and then nothing changes. When the call is made, the status is 500 exactly when it fails, and the contents are left alone |
| Service.HandleStatus | http/service.go:113-115 | Status gives 200 with `Store.Status()` verbatim as the body, one Status call, no metric and no change |
| Service.ServeHTTP | http/service.go:101-111 | The status is 404 exactly when the path is neither `/key`-prefixed nor `/join` nor `/status`; such a request makes no call, records no metric, writes no body and changes nothing. Paths outside `/key` record no metric event. Key requests end with the latency observation labelled by endpoint and method (the corrected handler) |
| Instrumentation.GetInstrumented | http/service.go:166-189 | Every GET path keeps the metric invariant: the status is one of 200, 400, 405 and 500; there is no increment exactly when it is 200; the first increment is labelled with the committed status and any second one with 500; the shared `labels` map is the last increment's labels, or the entry labels when there is none |
| Instrumentation.PostInstrumented | http/service.go:191-207 | Every POST path keeps the metric invariant: the status is one of 200, 400, 405 and 500; there is no increment exactly when it is 200; the first increment is labelled with the committed status and any second one with 500; the shared `labels` map is the last increment's labels, or the entry labels when there is none |
| Instrumentation.DeleteInstrumented | http/service.go:209-223 | Every DELETE path keeps the metric invariant: the status is one of 200, 400, 405 and 500; there is no increment exactly when it is 200; the first increment is labelled with the committed status and any second one with 500; the shared `labels` map is the last increment's labels, or the entry labels when there is none |
| Instrumentation.KeyHandlerInstrumented | http/service.go:165-229 | Every branch of the method switch, the default 405 included, keeps the metric invariant: the status is one of 200, 400, 405 and 500; there is no increment exactly when it is 200; the first increment is labelled with the committed status and any second one with 500; the shared `labels` map is the last increment's labels, or the entry labels when there is none |
| Instrumentation.LabelSets | http/service.go:19-28 | The entry labels are exactly the summary's label names; a label map with a status is exactly the counter's and is refused by the summary |
| Instrumentation.InstrumentedEvents | http/service.go:149-157 | Every error increment is accepted by the counter; the `labels` map suits the summary exactly when no error was recorded |
| Instrumentation.LatencyObservedOnce | http/service.go:148-157 | With the observation labelled by endpoint and method, every key request records exactly one latency observation, last and accepted by the summary. Every event before it is an increment the counter accepts, and there is one exactly when the status is not 200 |
| Instrumentation.AsWrittenObservation | http/service.go:153-156 | As written, the deferred observation passes the shared `labels` map. The summary accepts it exactly when the request ended with status 200 |
| Instrumentation.AsWrittenAgrees | http/service.go:153-156 | The handler as written and the corrected one agree on status, body, calls, contents, the number of events and every event but the last |
| Instrumentation.AsWrittenLabels | http/service.go:153-156 | As written, the last event is an observation labelled like the error increment just before it, or by endpoint and method when there is none |
| ServiceProperties.Routing | http/service.go:101-107 | A path starting with `/key` goes to the key handler, including `/keyfoo`, `/key` and `/key/k`; `/join` and `/status` go to their handlers |
| ServiceProperties.ExactPathsAreNotKeyPaths | http/service.go:102-106 | `/join` and `/status` do not start with `/key`, so the prefix test does not capture them |
| ServiceProperties.GetKeyOfPieces | http/service.go:158-164 | For a path made of slash-free pieces, `getKey` is the third piece when there are exactly three pieces, and "" otherwise |
| ServiceProperties.KeyExtraction | http/service.go:158-164 | `getKey` of `/key/k` is k for every slash-free k |
| ServiceProperties.KeyExtractionShort | http/service.go:158-164 | `/key` and `/key/` give the empty key |
| ServiceProperties.KeyExtractionLong | http/service.go:158-164 | `/key/a/b` gives the empty key |
| ServiceProperties.KeyExtractionPrefixQuirk | http/service.go:102-164 | `/keyfoo/bar` is routed to the key handler and gives the key "bar" |
| ServiceProperties.JoinShape | http/service.go:124-139 | The decoded map has two elements, "addr" and "id", exactly when the entries are two with the keys "addr" and "id" |
| ServiceProperties.JoinValidation | http/service.go:117-139 | A join reaches the Store exactly when the body decoded to a map of exactly "addr" and "id". Any other body gives 400, no call and no change. Join records no metric and writes no body |
| ServiceProperties.JoinCall | http/service.go:141-144 | A valid join issues exactly `Join(m["id"], m["addr"])`; the status is 500 exactly when that call fails and 200 otherwise |
| ServiceProperties.PostDecodeFailure | http/service.go:193-199 | A POST whose body does not decode gives 400 with no Set call and no change. It records a 400 increment, then the observation. As written, that observation also carries the label status "400" |
| ServiceProperties.PostRun | http/service.go:191-207 | A decoded POST issues one Set per attempted entry, in iteration order. The contents are the run's, the status is 500 exactly when the run stopped on an error, and one increment is added then |
| ServiceProperties.PostSets | http/service.go:191-207 | The Set calls are those of a prefix of the entries, at most one per entry. Every call but the last succeeded. The status is 500 exactly when the last call failed, and 200 exactly when all entries were attempted and none failed. On 200 all entries are written; on 500 all those before the failing one are |
| ServiceProperties.PostAllSucceed | http/service.go:200-207 | With a Store that never fails a Set, POST gives 200, sets every entry once in order, and writes them all |
| ServiceProperties.PostKeepsWrites | http/service.go:200-207 | Every entry set before the stop keeps its value afterwards, and keys not in the body keep theirs |
| ServiceProperties.DeleteEmptyKey | http/service.go:210-216 | DELETE with an empty key gives 400 with no Store call and no change. It records a 400 increment, then the observation. As written, that observation also carries the label status "400" |
| ServiceProperties.DeleteFails | http/service.go:217-222 | A failing Delete gives 500 after exactly one Delete call, with no change. It records a 500 increment, then the observation. As written, that observation also carries the label status "500" |
| ServiceProperties.DeleteTwice | http/service.go:217-223 | A successful DELETE calls `Delete(k)` twice with the same key, removes k, ignores the second result and gives 200 with only the observation |
| ServiceProperties.GetLookupFacts | http/service.go:167-173 | Before the lookup's result is examined, an empty key has committed 400, recorded a 400 increment and set the status label. `Get(k)` has been issued either way |
| ServiceProperties.GetLooksUp | http/service.go:167-173 | Every GET issues exactly one call, `Get(k)`, even when k is empty, and changes nothing |
| ServiceProperties.GetEmptyKey | http/service.go:167-172 | GET with an empty key commits 400 and records a 400 increment first |
| ServiceProperties.GetFailsBranch | http/service.go:173-187 | When the lookup or the encoding fails, nothing is written and a 500 increment follows the earlier events. The status is 400 if it was committed earlier, 500 otherwise. The shared labels end with status "500" |
| ServiceProperties.GetFails | http/service.go:173-187 | A failing GET writes no body and its last increment is labelled 500. Its status is 500, or 400 when the key was empty. As written, its observation carries the label status "500" |
| ServiceProperties.GetFound | http/service.go:181-189 | A successful GET writes the encoding of `{k: v}`, where v is the stored value. For a non-empty key the status is 200 and only the observation is recorded |
| ServiceProperties.OtherMethods | http/service.go:225-228 | Any other method gives 405 with no Store call, no body and no change. It records one increment labelled "405", then the observation. As written, that observation also carries the label status "405" |
| ServiceProperties.StatusVerbatim | http/service.go:113-115 | `/status` gives 200 with `Store.Status()` verbatim as the body, one Status call and no metric |
| ServiceProperties.LatencyPerRequest | http/service.go:147-157 | A request records one latency observation if its path starts with `/key` and none otherwise (corrected handler) |
| ServiceProperties.LatencyCount | http/service.go:147-157 | Over any sequence of requests served in turn, the number of latency observations equals the number of `/key` requests (corrected handler) |
| ServiceProperties.PostThenGet | http/service.go:166-207 | A successful POST of `{k: v}` followed by a successful GET of `/key/k` gives 200 both times and returns the encoding of `{k: v}` |
| ServiceProperties.AsWrittenObservationRefused | http/service.go:153-156 | As written, `PUT /key/k` ends in 405 and its deferred observation carries a status label, which the summary refuses |

## Left out

- `New`, `Start`, `Close` and `Addr` (http/service.go:62-98, 233-236): constructing the service, binding the TCP listener, serving in a goroutine and `log.Fatalf` are I/O and concurrency.
- Registration in `init` (http/service.go:31-34). The vectors' label names (lines 19-28) are modelled; `MustRegister` is not.
- Latency values: `time.Now` and the `float64` difference are a clock. Only the count and labels of observations are modelled.
- `encoding/json`:
  - decoding is part of the request (`None` for a decode error);
  - `json.Marshal` is the `marshal` oracle of the environment, so its error branch (lines 182-187) is modelled even though Go never fails to marshal a string map.
- Go's randomised map iteration order: a decoded body is one sequence of distinct-key entries, and every property holds for every sequence.
- The Store behind the interface:
  - whether a call fails is decided by the oracle from the contents and the call alone;
  - a failed call changes nothing;
  - `Get` of a missing key answers "", Go's zero value.

  Raft replication is not part of this model.
- Service.ServeHTTP and Service.HandleKey: key requests go through the corrected handler, whose deferred observation carries only the endpoint and method labels (see Findings). The code as written is `Service.HandleKeyAsWritten`. It differs only in that last event's labels, as `Instrumentation.AsWrittenAgrees` and `Instrumentation.AsWrittenLabels` state, and the key-handler lemmas state its observation where it differs.
- What the panic in the as-written deferred call does to the connection. `HandleKeyAsWritten` records the observation the summary refuses and stops there.
- Byte strings: Go strings are bytes, while the model's strings are sequences of Unicode characters, so a decoded path that is not valid UTF-8 (from `/key/%FF`, say) has no counterpart. Splitting on the ASCII `/` and the `/key` prefix test behave the same on either, so no property depends on it.
- Concurrency between requests. `ServiceProperties.ServeAll` serves requests one after another against the same contents.
- metrics/metrics.go only starts a metrics exposition server (I/O), and the locust script is a load generator. Neither is part of this model.

## Findings

| source | as written | input that shows it | evidently intended | confidence | as-written member | corrected member |
|---|---|---|---|---|---|---|
| http/service.go:153-156 | The deferred `httpRequestsSummary.With(labels)` passes the handler's shared `labels` map. Every error path (lines 169, 175, 183, 195, 202, 212, 218, 226) has already added "status" to it, but the summary is registered with only "endpoint" and "method" (lines 20-24), and `With` panics on a label set that does not match | `PUT /key/k`: 405, then the observation has labels {endpoint, method, status} | Observe with the entry labels `{endpoint: "/key", method}` on every exit path, so that each key request yields one accepted observation | not executed; relies on client_golang's `With` panicking on mismatched label names | Instrumentation.AsWrittenObservation | Instrumentation.LatencyObservedOnce |
