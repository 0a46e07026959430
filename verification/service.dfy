/** The request dispatcher of the HTTP service (`Service.ServeHTTP` and its
    three handlers) as a pure function from a request, an environment and
    the store contents to an observable outcome. */
module Service {
  import opened Wrappers
  import opened Strings
  import opened Payload
  import opened Response
  import opened Metrics
  import Store

  const StatusOK: nat := 200
  const StatusBadRequest: nat := 400
  const StatusNotFound: nat := 404
  const StatusMethodNotAllowed: nat := 405
  const StatusInternalServerError: nat := 500

  /** An HTTP request with its body already decoded as a JSON object of
      strings; `None` means the decoder returned an error. */
  datatype Request = Request(verb: string, path: string, body: Option<Entries>)

  /** The collaborators the handlers call: the store, and `json.Marshal`
      applied to a string map (`None` is an encoding error). */
  datatype Env = Env(store: Store.Oracle, marshal: map<string, string> -> Option<string>)

  /** What one request leaves behind: the status and body sent, the Store
      calls in order, the metric events in order, and the store contents. */
  datatype Outcome = Outcome(
    status: nat,
    body: string,
    calls: seq<Store.Call>,
    metrics: seq<Metric>,
    data: map<string, string>)

  /** The state of a handler part-way through: the response writer, the
      calls and metric events so far, the `labels` map of the key handler,
      and the store contents. */
  datatype Exec = Exec(
    w: Writer,
    calls: seq<Store.Call>,
    metrics: seq<Metric>,
    labels: map<string, string>,
    data: map<string, string>)

  function Finish(e: Exec): Outcome {
    Outcome(StatusCode(e.w), e.w.body, e.calls, e.metrics, e.data)
  }

  /** The labels the key handler starts from. */
  function KeyLabels(verb: string): map<string, string> {
    map["endpoint" := "/key", "method" := verb]
  }

  /** The labels of an error increment for `code`. */
  function ErrorLabels(verb: string, code: nat): map<string, string> {
    KeyLabels(verb)["status" := Decimal(code)]
  }

  /** Issue `c` on the store: record it and apply its effect. */
  function Invoke(o: Store.Oracle, e: Exec, c: Store.Call): Exec {
    e.(calls := e.calls + [c], data := Store.After(o, e.data, c))
  }

  /** The key handler's error block: set the "status" label, count the
      error, and write the status header. */
  function Reject(e: Exec, code: nat): Exec {
    var labels := e.labels["status" := Decimal(code)];
    e.(labels := labels, metrics := e.metrics + [Inc(labels)], w := WriteHeader(e.w, code))
  }

  /** The `getKey` closure: the third piece when the path splits on "/"
      into exactly three pieces, otherwise the empty string. With exactly
      two slashes the key is the slash-free text after the last one. */
  function GetKey(path: string): (k: string)
    ensures CountSlash(path) != 2 ==> k == ""
    ensures CountSlash(path) == 2 ==>
      && '/' !in k && |k| < |path|
      && path[|path| - |k| - 1] == '/' && path[|path| - |k|..] == k
  {
    var parts := Split(path);
    if |parts| != 3 then ""
    else
      assert parts[1..][1..] == [parts[2]];
      assert Join(parts[1..]) == parts[1] + "/" + parts[2];
      var front := parts[0] + "/" + parts[1] + "/";
      assert path == front + parts[2];
      parts[2]
  }

  /** The Set calls for the given entries, in order. */
  function SetCalls(es: seq<(string, string)>): seq<Store.Call> {
    seq(|es|, i requires 0 <= i < |es| => Store.Set(es[i].0, es[i].1))
  }

  /** How a run of Set calls ended: the store contents, how many entries
      were attempted, and whether the last attempt failed. */
  datatype SetRun = SetRun(data: map<string, string>, attempted: nat, failed: bool) {
    /** The number of Set calls that succeeded. */
    function Committed(): int {
      if failed then attempted - 1 else attempted
    }
  }

  /** The run of Set calls the oracle determines for `es`: every entry
      before the stopping point succeeded against the contents left by the
      entries before it, the one at the stopping point (if any) failed,
      nothing after it was attempted, and the contents are those of the
      successful entries written in turn. */
  ghost predicate RunOf(o: Store.Oracle, data: map<string, string>, es: seq<(string, string)>, r: SetRun) {
    && r.attempted <= |es|
    && (!r.failed ==> r.attempted == |es|)
    && (r.failed ==> 1 <= r.attempted)
    && (r.failed ==>
          o.fails(Overlay(data, es[..r.attempted - 1]), Store.Set(es[r.attempted - 1].0, es[r.attempted - 1].1)))
    && (forall j :: 0 <= j < r.Committed() ==> !o.fails(Overlay(data, es[..j]), Store.Set(es[j].0, es[j].1)))
    && 0 <= r.Committed() && r.data == Overlay(data, es[..r.Committed()])
  }

  /** The POST loop: `Set` each entry in order and stop at the first error. */
  function SetEach(o: Store.Oracle, data: map<string, string>, es: seq<(string, string)>): (r: SetRun)
    ensures RunOf(o, data, es, r)
    decreases |es|
  {
    if |es| == 0 then SetRun(data, 0, false)
    else if o.fails(data, Store.Set(es[0].0, es[0].1)) then SetRun(data, 1, true)
    else
      var rest := SetEach(o, data[es[0].0 := es[0].1], es[1..]);
      RunStep(o, data, es, rest);
      SetRun(rest.data, rest.attempted + 1, rest.failed)
  }

  /** A successful first Set followed by the run for the remaining entries
      is the run for all of them. */
  lemma RunStep(o: Store.Oracle, data: map<string, string>, es: seq<(string, string)>, rest: SetRun)
    requires |es| >= 1 && !o.fails(data, Store.Set(es[0].0, es[0].1))
    requires RunOf(o, data[es[0].0 := es[0].1], es[1..], rest)
    ensures RunOf(o, data, es, SetRun(rest.data, rest.attempted + 1, rest.failed))
  {
    var r := SetRun(rest.data, rest.attempted + 1, rest.failed);
    PrefixOverlay(data, es, r.Committed());
    if r.failed {
      PrefixOverlay(data, es, r.attempted - 1);
      assert es[1..][rest.attempted - 1] == es[r.attempted - 1];
    }
    forall j | 0 <= j < r.Committed()
      ensures !o.fails(Overlay(data, es[..j]), Store.Set(es[j].0, es[j].1))
    {
      if j > 0 {
        PrefixOverlay(data, es, j);
        assert es[1..][j - 1] == es[j];
      }
    }
  }

  /** Overlaying a non-empty prefix is overlaying the first entry, then the
      rest of the prefix. */
  lemma PrefixOverlay(data: map<string, string>, es: seq<(string, string)>, n: nat)
    requires 1 <= n <= |es|
    ensures Overlay(data, es[..n]) == Overlay(data[es[0].0 := es[0].1], es[1..][..n - 1])
  {
    assert es[..n][1..] == es[1..][..n - 1];
  }

  /** The three method names the key handler switches on are distinct. */
  lemma MethodNamesDiffer()
    ensures "GET" != "POST" && "GET" != "DELETE" && "POST" != "DELETE"
  {
    assert "GET"[0] != "POST"[0] && "GET"[0] != "DELETE"[0] && "POST"[0] != "DELETE"[0];
  }

  /** The state the key handler starts from. */
  function Begin(verb: string, data: map<string, string>): Exec {
    Exec(Fresh, [], [], KeyLabels(verb), data)
  }

  /** The GET branch up to its Store call: an empty key commits 400 and
      counts an error, and the lookup is issued all the same. */
  function GetLookup(env: Env, data: map<string, string>, req: Request): (e: Exec)
    ensures e.calls == [Store.Get(GetKey(req.path))] && e.data == data
    ensures e.w == if GetKey(req.path) == "" then Writer(Some(StatusBadRequest), "") else Fresh
  {
    var e0 := Begin(req.verb, data);
    var k := GetKey(req.path);
    var e1 := if k == "" then Reject(e0, StatusBadRequest) else e0;
    Invoke(env.store, e1, Store.Get(k))
  }

  /** GET: look the key up, even when it is empty, and write `{k: v}`. */
  function KeyGet(env: Env, data: map<string, string>, req: Request): (e: Exec)
    ensures e.calls == [Store.Get(GetKey(req.path))] && e.data == data
    ensures StatusCode(e.w) in {StatusOK, StatusBadRequest, StatusInternalServerError}
    ensures GetKey(req.path) == "" ==> StatusCode(e.w) == StatusBadRequest
    ensures StatusCode(e.w) == StatusOK ==>
      var k := GetKey(req.path);
      && !env.store.fails(data, Store.Get(k))
      && env.marshal(map[k := Store.Value(data, k)]).Some?
      && e.w.body == env.marshal(map[k := Store.Value(data, k)]).value
  {
    var k := GetKey(req.path);
    var e2 := GetLookup(env, data, req);
    var failed := Reject(e2, StatusInternalServerError);
    assert StatusCode(failed.w) == if k == "" then StatusBadRequest else StatusInternalServerError;
    if env.store.fails(data, Store.Get(k)) then failed
    else
      match env.marshal(map[k := Store.Value(data, k)])
      case None => failed
      case Some(b) =>
        var w := WriteString(e2.w, b);
        assert StatusCode(w) == StatusCode(e2.w) && w.body == b;
        e2.(w := w)
  }

  /** POST: set every entry of the decoded body in turn, stopping at the
      first error. */
  function KeyPost(env: Env, data: map<string, string>, req: Request): (e: Exec)
    ensures req.body.None? ==> e.calls == [] && e.data == data && StatusCode(e.w) == StatusBadRequest
    ensures req.body.Some? ==>
      |e.calls| <= |req.body.value| && e.calls == SetCalls(req.body.value[..|e.calls|])
    ensures StatusCode(e.w) in {StatusOK, StatusBadRequest, StatusInternalServerError}
    ensures StatusCode(e.w) == StatusOK ==>
      req.body.Some? && e.calls == SetCalls(req.body.value) && e.data == Overlay(data, req.body.value)
    ensures e.w.body == ""
  {
    var e0 := Begin(req.verb, data);
    match req.body
    case None => Reject(e0, StatusBadRequest)
    case Some(es) =>
      var run := SetEach(env.store, data, es);
      var e1 := e0.(calls := SetCalls(es[..run.attempted]), data := run.data);
      if run.failed then Reject(e1, StatusInternalServerError)
      else
        assert es[..run.attempted] == es;
        e1
  }

  /** DELETE: refuse an empty key, otherwise delete it, and on success
      delete it a second time, ignoring that result. */
  function KeyDelete(env: Env, data: map<string, string>, req: Request): (e: Exec)
    ensures var k := GetKey(req.path);
      && (k == "" ==> e.calls == [] && e.data == data && StatusCode(e.w) == StatusBadRequest)
      && (k != "" && env.store.fails(data, Store.Delete(k)) ==>
            e.calls == [Store.Delete(k)] && e.data == data && StatusCode(e.w) == StatusInternalServerError)
      && (k != "" && !env.store.fails(data, Store.Delete(k)) ==>
            e.calls == [Store.Delete(k), Store.Delete(k)] && e.data == data - {k} && StatusCode(e.w) == StatusOK)
    ensures e.w.body == ""
  {
    var o := env.store;
    var e0 := Begin(req.verb, data);
    var k := GetKey(req.path);
    if k == "" then Reject(e0, StatusBadRequest)
    else
      var e1 := Invoke(o, e0, Store.Delete(k));
      if o.fails(data, Store.Delete(k)) then Reject(e1, StatusInternalServerError)
      else Invoke(o, e1, Store.Delete(k))
  }

  /** The key handler up to, but not including, its deferred latency
      observation: the switch on the request method. */
  function KeyHandler(env: Env, data: map<string, string>, req: Request): (e: Exec)
    ensures StatusCode(e.w) in {StatusOK, StatusBadRequest, StatusMethodNotAllowed, StatusInternalServerError}
    ensures StatusCode(e.w) == StatusMethodNotAllowed <==> req.verb !in {"GET", "POST", "DELETE"}
  {
    MethodNamesDiffer();
    if req.verb == "GET" then KeyGet(env, data, req)
    else if req.verb == "POST" then KeyPost(env, data, req)
    else if req.verb == "DELETE" then KeyDelete(env, data, req)
    else Reject(Begin(req.verb, data), StatusMethodNotAllowed)
  }

  /** `handleKeyRequest` as written: the deferred observation reads the
      shared `labels` map, which every error path has extended with a
      "status" label by then. */
  function HandleKeyAsWritten(env: Env, data: map<string, string>, req: Request): (r: Outcome)
    ensures r.status in {StatusOK, StatusBadRequest, StatusMethodNotAllowed, StatusInternalServerError}
    ensures r.status == StatusMethodNotAllowed <==> req.verb !in {"GET", "POST", "DELETE"}
    ensures |r.metrics| >= 1 && r.metrics[|r.metrics| - 1].Observe?
  {
    var e := KeyHandler(env, data, req);
    Finish(e.(metrics := e.metrics + [Observe(e.labels)]))
  }

  /** `handleKeyRequest`, with the deferred observation labelled by the
      endpoint and method only. */
  function HandleKey(env: Env, data: map<string, string>, req: Request): (r: Outcome)
    ensures r.status in {StatusOK, StatusBadRequest, StatusMethodNotAllowed, StatusInternalServerError}
    ensures r.status == StatusMethodNotAllowed <==> req.verb !in {"GET", "POST", "DELETE"}
    ensures |r.metrics| >= 1 && r.metrics[|r.metrics| - 1] == Observe(KeyLabels(req.verb))
  {
    var e := KeyHandler(env, data, req);
    Finish(e.(metrics := e.metrics + [Observe(KeyLabels(req.verb))]))
  }

  /** `handleJoin`: the body must decode to a map of exactly two entries
      holding both "addr" and "id"; then `Join(id, addr)` is issued. */
  function HandleJoin(env: Env, data: map<string, string>, req: Request): (r: Outcome)
    ensures r.metrics == [] && r.body == "" && |r.calls| <= 1
    ensures r.status in {StatusOK, StatusBadRequest, StatusInternalServerError}
    ensures r.calls == [] <==> r.status == StatusBadRequest
    ensures r.calls == [] ==> r.data == data
    ensures r.calls != [] ==>
      && r.calls[0].Join?
      && (r.status == StatusInternalServerError <==> env.store.fails(data, r.calls[0]))
      && r.data == data
  {
    var reject := Outcome(StatusCode(WriteHeader(Fresh, StatusBadRequest)), "", [], [], data);
    match req.body
    case None => reject
    case Some(es) =>
      var m := ToMap(es);
      if |m| != 2 then reject
      else if "addr" !in m then reject
      else if "id" !in m then reject
      else
        var c := Store.Join(m["id"], m["addr"]);
        var w := if env.store.fails(data, c) then WriteHeader(Fresh, StatusInternalServerError) else Fresh;
        Outcome(StatusCode(w), w.body, [c], [], Store.After(env.store, data, c))
  }

  /** `handleStatus`: the store's status, verbatim, as the body. */
  function HandleStatus(env: Env, data: map<string, string>, req: Request): (r: Outcome)
    ensures r.status == StatusOK && r.body == env.store.status
    ensures r.calls == [Store.Status] && r.metrics == [] && r.data == data
  {
    var w := WriteString(Fresh, env.store.status);
    Outcome(StatusCode(w), w.body, [Store.Status], [], data)
  }

  /** A path no handler claims. */
  predicate Unrouted(path: string) {
    !HasPrefix(path, "/key") && path != "/join" && path != "/status"
  }

  /** `ServeHTTP`: the "/key" prefix test first, then exact matches for
      "/join" and "/status", otherwise 404. A 404 comes from an unknown
      path and from nothing else, and such a request has no effect. Only
      key requests record metric events, the last being the latency
      observation. */
  function ServeHTTP(env: Env, data: map<string, string>, req: Request): (r: Outcome)
    ensures r.status == StatusNotFound <==> Unrouted(req.path)
    ensures Unrouted(req.path) ==> r.calls == [] && r.metrics == [] && r.body == "" && r.data == data
    ensures !HasPrefix(req.path, "/key") ==> r.metrics == []
    ensures HasPrefix(req.path, "/key") ==>
      |r.metrics| >= 1 && r.metrics[|r.metrics| - 1] == Observe(KeyLabels(req.verb))
  {
    if HasPrefix(req.path, "/key") then HandleKey(env, data, req)
    else if req.path == "/join" then HandleJoin(env, data, req)
    else if req.path == "/status" then HandleStatus(env, data, req)
    else
      var w := WriteHeader(Fresh, StatusNotFound);
      Outcome(StatusCode(w), w.body, [], [], data)
  }
}
