/** Properties of the dispatcher, stated on `ServeHTTP` over every store
    oracle, every encoder and every body order. */
module ServiceProperties {
  import opened Wrappers
  import opened Strings
  import opened Payload
  import opened Response
  import opened Metrics
  import Store
  import opened Service
  import opened Instrumentation

  /** Routing precedence: anything starting with "/key" goes to the key
      handler, "/keyfoo" and "/key" included; "/join" and "/status" are
      matched exactly. */
  lemma Routing(env: Env, data: map<string, string>, req: Request)
    ensures HasPrefix(req.path, "/key") ==> ServeHTTP(env, data, req) == HandleKey(env, data, req)
    ensures req.path == "/join" ==> ServeHTTP(env, data, req) == HandleJoin(env, data, req)
    ensures req.path == "/status" ==> ServeHTTP(env, data, req) == HandleStatus(env, data, req)
    ensures HasPrefix("/keyfoo", "/key") && HasPrefix("/key", "/key") && HasPrefix("/key/k", "/key")
  {
    ExactPathsAreNotKeyPaths();
  }

  /** Neither "/join" nor "/status" passes the "/key" prefix test. */
  lemma ExactPathsAreNotKeyPaths()
    ensures !HasPrefix("/join", "/key") && !HasPrefix("/status", "/key")
  {
    assert "/join"[..4][1] != "/key"[1];
    assert "/status"[..4][1] != "/key"[1];
  }

  /** A key request's outcome is that of the method's branch followed by
      the latency observation: labelled by endpoint and method in the
      corrected handler, by the shared `labels` map as written. */
  lemma KeyOutcome(env: Env, data: map<string, string>, req: Request, e: Exec)
    requires e == KeyHandler(env, data, req)
    ensures var r := HandleKey(env, data, req);
      && r.status == StatusCode(e.w) && r.body == e.w.body && r.calls == e.calls && r.data == e.data
      && r.metrics == e.metrics + [Observe(KeyLabels(req.verb))]
    ensures HandleKeyAsWritten(env, data, req).metrics == e.metrics + [Observe(e.labels)]
  {
  }

  /** The switch on the request method. */
  lemma KeyDispatch(env: Env, data: map<string, string>, req: Request)
    ensures req.verb == "GET" ==> KeyHandler(env, data, req) == KeyGet(env, data, req)
    ensures req.verb == "POST" ==> KeyHandler(env, data, req) == KeyPost(env, data, req)
    ensures req.verb == "DELETE" ==> KeyHandler(env, data, req) == KeyDelete(env, data, req)
    ensures req.verb != "GET" && req.verb != "POST" && req.verb != "DELETE" ==>
      KeyHandler(env, data, req) == Reject(Begin(req.verb, data), StatusMethodNotAllowed)
  {
    MethodNamesDiffer();
  }

  /** Joining the three pieces of a key path. */
  lemma JoinKeyPath(prefix: string, k: string)
    ensures Join(["", prefix, k]) == "/" + prefix + "/" + k
  {
    assert ["", prefix, k][1..] == [prefix, k];
    assert [prefix, k][1..] == [k];
    assert Join([prefix, k]) == prefix + "/" + k;
    assert Join(["", prefix, k]) == "" + "/" + (prefix + "/" + k);
  }

  /** `getKey` inverts joining slash-free pieces: the third of exactly
      three pieces, "" for any other number. */
  lemma GetKeyOfPieces(parts: seq<string>)
    requires |parts| >= 1
    requires forall i :: 0 <= i < |parts| ==> '/' !in parts[i]
    ensures GetKey(Join(parts)) == if |parts| == 3 then parts[2] else ""
  {
    SplitJoin(parts);
  }

  /** Key extraction on the paths the service sees: "/key/<k>" yields a
      slash-free `k`. */
  lemma KeyExtraction(k: string)
    requires '/' !in k
    ensures GetKey("/key/" + k) == k
  {
    JoinKeyPath("key", k);
    assert "/" + "key" + "/" + k == "/key/" + k;
    GetKeyOfPieces(["", "key", k]);
  }

  /** "/key" has too few segments and "/key/" an empty third one: both
      give the empty key. */
  lemma KeyExtractionShort()
    ensures GetKey("/key") == "" && GetKey("/key/") == ""
  {
    JoinKeyPath("key", "");
    assert "/" + "key" + "/" + "" == "/key/";
    GetKeyOfPieces(["", "key", ""]);
    assert ["", "key"][1..] == ["key"];
    assert Join(["", "key"]) == "" + "/" + "key";
    GetKeyOfPieces(["", "key"]);
  }

  /** A fourth segment makes the key empty. */
  lemma KeyExtractionLong(k: string)
    requires '/' !in k
    ensures GetKey("/key/" + k + "/b") == ""
  {
    var four := ["", "key", k, "b"];
    assert four[1..] == ["key", k, "b"] && four[1..][1..] == [k, "b"] && four[1..][1..][1..] == ["b"];
    assert Join(four[1..][1..]) == k + "/" + "b";
    assert Join(four[1..]) == "key" + "/" + (k + "/" + "b");
    assert Join(four) == "/key/" + k + "/b";
    GetKeyOfPieces(four);
  }

  /** The prefix test lets "/keyfoo/bar" through, and its key is "bar". */
  lemma KeyExtractionPrefixQuirk()
    ensures HasPrefix("/keyfoo/bar", "/key")
    ensures GetKey("/keyfoo/bar") == "bar"
  {
    JoinKeyPath("keyfoo", "bar");
    assert "/" + "keyfoo" + "/" + "bar" == "/keyfoo/bar";
    GetKeyOfPieces(["", "keyfoo", "bar"]);
  }

  /** Whether a join body passes validation: decoded, exactly two entries,
      namely "addr" and "id". */
  predicate ValidJoinBody(body: Option<Entries>) {
    body.Some? && |body.value| == 2 && KeysOf(body.value) == {"addr", "id"}
  }

  /** The decoded map passes the three checks exactly when the body is a
      valid join body. */
  lemma JoinShape(es: Entries)
    ensures (|ToMap(es)| == 2 && "addr" in ToMap(es) && "id" in ToMap(es)) <==> ValidJoinBody(Some(es))
  {
    ToMapContents(es);
    var m := ToMap(es);
    if |m| == 2 && "addr" in m && "id" in m {
      assert {"addr", "id"} <= m.Keys;
      assert |m.Keys - {"addr", "id"}| == 0;
    }
  }

  /** Join validation: the store is reached exactly for a valid body, and
      then with `Join(id, addr)`; anything else is a 400 with no Store call.
      A Join error is a 500. Joins record no metrics. */
  lemma JoinValidation(env: Env, data: map<string, string>, req: Request)
    requires req.path == "/join"
    ensures var r := ServeHTTP(env, data, req);
      && r.metrics == [] && r.body == ""
      && (r.calls != [] <==> ValidJoinBody(req.body))
      && (!ValidJoinBody(req.body) ==> r.status == StatusBadRequest && r.calls == [] && r.data == data)
  {
    ExactPathsAreNotKeyPaths();
    assert ServeHTTP(env, data, req) == HandleJoin(env, data, req);
    if req.body.Some? {
      JoinShape(req.body.value);
    }
  }

  /** A valid join issues exactly `Join(m["id"], m["addr"])`, answers 500
      when that fails and 200 otherwise. */
  lemma JoinCall(env: Env, data: map<string, string>, req: Request)
    requires req.path == "/join" && ValidJoinBody(req.body)
    ensures "addr" in ToMap(req.body.value) && "id" in ToMap(req.body.value)
    ensures var r := ServeHTTP(env, data, req);
      var m := ToMap(req.body.value);
      var c := Store.Join(m["id"], m["addr"]);
      && r.calls == [c]
      && (r.status == StatusInternalServerError <==> env.store.fails(data, c))
      && (r.status == StatusOK <==> !env.store.fails(data, c))
  {
    ExactPathsAreNotKeyPaths();
    assert ServeHTTP(env, data, req) == HandleJoin(env, data, req);
    ToMapContents(req.body.value);
    var m := ToMap(req.body.value);
    assert "addr" in KeysOf(req.body.value) && "id" in KeysOf(req.body.value);
    assert |m| == 2 && "addr" in m && "id" in m;
  }

  /** POST with an undecodable body: 400, one error increment, no Set. */
  lemma PostDecodeFailure(env: Env, data: map<string, string>, req: Request)
    requires req.verb == "POST" && req.body.None?
    ensures var r := HandleKey(env, data, req);
      && r.status == StatusBadRequest && r.calls == [] && r.data == data
      && r.metrics == [Inc(ErrorLabels("POST", StatusBadRequest)), Observe(KeyLabels("POST"))]
    ensures HandleKeyAsWritten(env, data, req).metrics ==
      [Inc(ErrorLabels("POST", StatusBadRequest)), Observe(ErrorLabels("POST", StatusBadRequest))]
  {
    var e := KeyPost(env, data, req);
    KeyDispatch(env, data, req);
    KeyOutcome(env, data, req, e);
  }

  /** POST with a decoded body, in terms of the run of Set calls: one Set
      per attempted entry, a 500 exactly when the run stopped on an error. */
  lemma PostRun(env: Env, data: map<string, string>, req: Request)
    requires req.verb == "POST" && req.body.Some?
    ensures var r := HandleKey(env, data, req);
      var run := SetEach(env.store, data, req.body.value);
      && r.calls == SetCalls(req.body.value[..run.attempted]) && r.data == run.data
      && r.status == (if run.failed then StatusInternalServerError else StatusOK)
      && |r.metrics| == (if run.failed then 2 else 1)
  {
    var es := req.body.value;
    var run := SetEach(env.store, data, es);
    var e1 := Begin(req.verb, data).(calls := SetCalls(es[..run.attempted]), data := run.data);
    var e := if run.failed then Reject(e1, StatusInternalServerError) else e1;
    assert KeyPost(env, data, req) == e;
    KeyDispatch(env, data, req);
    KeyOutcome(env, data, req, e);
  }

  /** Whether the `j`-th entry's Set fails against the contents left by the
      entries before it. */
  predicate SetFailsAt(env: Env, data: map<string, string>, es: seq<(string, string)>, j: nat)
    requires j < |es|
  {
    env.store.fails(Overlay(data, es[..j]), Store.Set(es[j].0, es[j].1))
  }

  /** POST with a decoded body: the Set calls are a prefix of the entries
      in iteration order; every attempted entry but the last succeeded; the
      request is a 500 exactly when the last attempted entry failed, and a
      200 exactly when every entry was set. The contents are those of the
      successful entries written in turn. */
  lemma PostSets(env: Env, data: map<string, string>, req: Request)
    requires req.verb == "POST" && req.body.Some?
    ensures var r := HandleKey(env, data, req);
      var es := req.body.value;
      var n := |r.calls|;
      && n <= |es|
      && r.calls == SetCalls(es[..n])
      && (forall j :: 0 <= j < n - 1 ==> !SetFailsAt(env, data, es, j))
      && (r.status == StatusInternalServerError <==> 1 <= n && SetFailsAt(env, data, es, n - 1))
      && (r.status == StatusOK <==> n == |es| && (n == 0 || !SetFailsAt(env, data, es, n - 1)))
      && (r.status == StatusOK ==> r.data == Overlay(data, es) && |r.metrics| == 1)
      && (r.status == StatusInternalServerError ==> 1 <= n && r.data == Overlay(data, es[..n - 1]))
  {
    PostRun(env, data, req);
    var es := req.body.value;
    var run := SetEach(env.store, data, es);
    assert |SetCalls(es[..run.attempted])| == run.attempted;
    assert es[..|es|] == es;
  }

  /** When no Set fails, a decoded POST writes every entry: a 200 with one
      Set per entry. */
  lemma PostAllSucceed(env: Env, data: map<string, string>, req: Request)
    requires req.verb == "POST" && req.body.Some?
    requires forall d, k, v :: !env.store.fails(d, Store.Set(k, v))
    ensures var r := HandleKey(env, data, req);
      r.status == StatusOK && r.calls == SetCalls(req.body.value) && r.data == Overlay(data, req.body.value)
  {
    PostSets(env, data, req);
  }

  /** After a POST the entries that were set hold their values and every
      key the body does not mention keeps its value: nothing is rolled
      back and nothing else changes. */
  lemma PostKeepsWrites(env: Env, data: map<string, string>, req: Request)
    requires req.verb == "POST" && req.body.Some?
    ensures var r := HandleKey(env, data, req);
      var es := req.body.value;
      var done := if r.status == StatusOK then |r.calls| else |r.calls| - 1;
      && 0 <= done <= |es|
      && (forall i :: 0 <= i < done ==> es[i].0 in r.data && r.data[es[i].0] == es[i].1)
      && (forall k :: k in data && k !in KeysOf(es) ==> k in r.data && r.data[k] == data[k])
  {
    PostSets(env, data, req);
    var r := HandleKey(env, data, req);
    var es := req.body.value;
    var done := if r.status == StatusOK then |r.calls| else |r.calls| - 1;
    assert es[..|es|] == es;
    OverlayPrefix(data, es, done);
  }

  /** DELETE with an empty key: a 400 with no Store call. */
  lemma DeleteEmptyKey(env: Env, data: map<string, string>, req: Request)
    requires req.verb == "DELETE" && GetKey(req.path) == ""
    ensures var r := HandleKey(env, data, req);
      && r.status == StatusBadRequest && r.calls == [] && r.data == data
      && r.metrics == [Inc(ErrorLabels("DELETE", StatusBadRequest)), Observe(KeyLabels("DELETE"))]
    ensures HandleKeyAsWritten(env, data, req).metrics ==
      [Inc(ErrorLabels("DELETE", StatusBadRequest)), Observe(ErrorLabels("DELETE", StatusBadRequest))]
  {
    var e := Reject(Begin(req.verb, data), StatusBadRequest);
    assert KeyDelete(env, data, req) == e;
    KeyDispatch(env, data, req);
    KeyOutcome(env, data, req, e);
  }

  /** DELETE whose Delete fails: a 500 after exactly one call. */
  lemma DeleteFails(env: Env, data: map<string, string>, req: Request)
    requires req.verb == "DELETE"
    requires GetKey(req.path) != "" && env.store.fails(data, Store.Delete(GetKey(req.path)))
    ensures var r := HandleKey(env, data, req);
      && r.status == StatusInternalServerError && r.calls == [Store.Delete(GetKey(req.path))] && r.data == data
      && r.metrics == [Inc(ErrorLabels("DELETE", StatusInternalServerError)), Observe(KeyLabels("DELETE"))]
    ensures HandleKeyAsWritten(env, data, req).metrics ==
      [Inc(ErrorLabels("DELETE", StatusInternalServerError)), Observe(ErrorLabels("DELETE", StatusInternalServerError))]
  {
    var c := Store.Delete(GetKey(req.path));
    var e := Reject(Invoke(env.store, Begin(req.verb, data), c), StatusInternalServerError);
    assert KeyDelete(env, data, req) == e;
    KeyDispatch(env, data, req);
    KeyOutcome(env, data, req, e);
  }

  /** DELETE whose first Delete succeeds: the same Delete is issued twice,
      the second result is ignored, the answer is 200 and the key is gone. */
  lemma DeleteTwice(env: Env, data: map<string, string>, req: Request)
    requires req.verb == "DELETE"
    requires GetKey(req.path) != "" && !env.store.fails(data, Store.Delete(GetKey(req.path)))
    ensures var r := HandleKey(env, data, req);
      var k := GetKey(req.path);
      && r.status == StatusOK && r.calls == [Store.Delete(k), Store.Delete(k)]
      && r.data == data - {k} && r.metrics == [Observe(KeyLabels("DELETE"))]
  {
    var k := GetKey(req.path);
    var c := Store.Delete(k);
    var e1 := Invoke(env.store, Begin(req.verb, data), c);
    var e := Invoke(env.store, e1, c);
    assert KeyDelete(env, data, req) == e;
    KeyDispatch(env, data, req);
    KeyOutcome(env, data, req, e);
    assert data - {k} - {k} == data - {k};
  }

  lemma GetLookupFacts(env: Env, data: map<string, string>, req: Request)
    ensures var e2 := GetLookup(env, data, req);
      var empty := GetKey(req.path) == "";
      && e2.calls == [Store.Get(GetKey(req.path))] && e2.data == data
      && e2.w == (if empty then WriteHeader(Fresh, StatusBadRequest) else Fresh)
      && e2.metrics == (if empty then [Inc(ErrorLabels(req.verb, StatusBadRequest))] else [])
      && e2.labels == (if empty then ErrorLabels(req.verb, StatusBadRequest) else KeyLabels(req.verb))
  {
  }

  /** The GET branch after its Store call: a 500 error block when the
      lookup or the encoding fails, otherwise the body write. */
  lemma KeyGetSteps(env: Env, data: map<string, string>, req: Request)
    ensures var k := GetKey(req.path);
      var e2 := GetLookup(env, data, req);
      var encoded := env.marshal(map[k := Store.Value(data, k)]);
      KeyGet(env, data, req) ==
        if env.store.fails(data, Store.Get(k)) || encoded.None? then Reject(e2, StatusInternalServerError)
        else e2.(w := WriteString(e2.w, encoded.value))
  {
  }

  /** GET always asks the store for the extracted key, even when it is
      empty, and changes nothing. */
  lemma GetLooksUp(env: Env, data: map<string, string>, req: Request)
    requires req.verb == "GET"
    ensures var r := HandleKey(env, data, req);
      r.calls == [Store.Get(GetKey(req.path))] && r.data == data
  {
    var e := KeyGet(env, data, req);
    KeyGetSteps(env, data, req);
    GetLookupFacts(env, data, req);
    KeyDispatch(env, data, req);
    KeyOutcome(env, data, req, e);
  }

  /** GET with the empty key commits 400 and counts a 400 error before the
      lookup, whatever the lookup returns. */
  lemma GetEmptyKey(env: Env, data: map<string, string>, req: Request)
    requires req.verb == "GET" && GetKey(req.path) == ""
    ensures var r := HandleKey(env, data, req);
      r.status == StatusBadRequest && r.metrics[0] == Inc(ErrorLabels("GET", StatusBadRequest))
  {
    var e := KeyGet(env, data, req);
    KeyGetSteps(env, data, req);
    var e2 := GetLookup(env, data, req);
    GetLookupFacts(env, data, req);
    FirstStatusWins(e2.w, StatusInternalServerError, "");
    assert StatusCode(e.w) == StatusBadRequest && e.metrics[0] == e2.metrics[0];
    KeyDispatch(env, data, req);
    KeyOutcome(env, data, req, e);
  }

  /** The GET branch when the lookup or the encoding fails. */
  lemma GetFailsBranch(env: Env, data: map<string, string>, req: Request)
    requires var k := GetKey(req.path);
      env.store.fails(data, Store.Get(k)) || env.marshal(map[k := Store.Value(data, k)]).None?
    ensures var e := KeyGet(env, data, req);
      var e2 := GetLookup(env, data, req);
      && e.w.body == ""
      && e.metrics == e2.metrics + [Inc(ErrorLabels(req.verb, StatusInternalServerError))]
      && StatusCode(e.w) == (if GetKey(req.path) == "" then StatusBadRequest else StatusInternalServerError)
      && e.labels == ErrorLabels(req.verb, StatusInternalServerError)
  {
    KeyGetSteps(env, data, req);
    GetLookupFacts(env, data, req);
    var e2 := GetLookup(env, data, req);
    assert KeyGet(env, data, req) == Reject(e2, StatusInternalServerError);
    FirstStatusWins(e2.w, StatusInternalServerError, "");
    Relabel(req.verb, StatusBadRequest, StatusInternalServerError);
  }

  /** GET whose lookup or encoding fails: an empty body and a 500 error
      count, right before the observation; the status is 500 unless the
      empty key already committed 400. */
  lemma GetFails(env: Env, data: map<string, string>, req: Request)
    requires req.verb == "GET"
    requires var k := GetKey(req.path);
      env.store.fails(data, Store.Get(k)) || env.marshal(map[k := Store.Value(data, k)]).None?
    ensures var r := HandleKey(env, data, req);
      && r.body == "" && |r.metrics| >= 2
      && r.metrics[|r.metrics| - 2] == Inc(ErrorLabels("GET", StatusInternalServerError))
      && r.status == (if GetKey(req.path) == "" then StatusBadRequest else StatusInternalServerError)
    ensures var a := HandleKeyAsWritten(env, data, req);
      |a.metrics| >= 2 && a.metrics[|a.metrics| - 1] == Observe(ErrorLabels("GET", StatusInternalServerError))
  {
    var e := KeyGet(env, data, req);
    GetFailsBranch(env, data, req);
    var inc := Inc(ErrorLabels(req.verb, StatusInternalServerError));
    var ms := GetLookup(env, data, req).metrics + [inc] + [Observe(KeyLabels(req.verb))];
    assert ms[|ms| - 2] == inc;
    KeyDispatch(env, data, req);
    KeyOutcome(env, data, req, e);
    assert HandleKey(env, data, req).metrics == ms;
  }

  /** GET whose lookup and encoding succeed: the body is the encoding of
      the one-entry map `{k: v}`; with a non-empty key it is a 200 with no
      error count. */
  lemma GetFound(env: Env, data: map<string, string>, req: Request)
    requires req.verb == "GET"
    requires var k := GetKey(req.path);
      !env.store.fails(data, Store.Get(k)) && env.marshal(map[k := Store.Value(data, k)]).Some?
    ensures var r := HandleKey(env, data, req);
      var k := GetKey(req.path);
      && r.body == env.marshal(map[k := Store.Value(data, k)]).value
      && (k != "" ==> r.status == StatusOK && r.metrics == [Observe(KeyLabels("GET"))])
  {
    var k := GetKey(req.path);
    var e2 := GetLookup(env, data, req);
    var e := e2.(w := WriteString(e2.w, env.marshal(map[k := Store.Value(data, k)]).value));
    KeyGetSteps(env, data, req);
    assert KeyGet(env, data, req) == e;
    KeyDispatch(env, data, req);
    KeyOutcome(env, data, req, e);
  }

  /** Any other method on the key handler: 405, one error increment whose
      status label is "405", no Store call. */
  lemma OtherMethods(env: Env, data: map<string, string>, req: Request)
    requires req.verb != "GET" && req.verb != "POST" && req.verb != "DELETE"
    ensures var r := HandleKey(env, data, req);
      && r.status == StatusMethodNotAllowed && r.calls == [] && r.data == data && r.body == ""
      && r.metrics == [Inc(ErrorLabels(req.verb, StatusMethodNotAllowed)), Observe(KeyLabels(req.verb))]
      && r.metrics[0].labels["status"] == "405"
    ensures HandleKeyAsWritten(env, data, req).metrics ==
      [Inc(ErrorLabels(req.verb, StatusMethodNotAllowed)), Observe(ErrorLabels(req.verb, StatusMethodNotAllowed))]
  {
    assert ErrorLabels(req.verb, StatusMethodNotAllowed)["status"] == "405" by {
      StatusLabels();
    }
    var e := Reject(Begin(req.verb, data), StatusMethodNotAllowed);
    KeyDispatch(env, data, req);
    KeyOutcome(env, data, req, e);
  }

  /** Status requests write the store's status verbatim with a 200. */
  lemma StatusVerbatim(env: Env, data: map<string, string>, req: Request)
    requires req.path == "/status"
    ensures var r := ServeHTTP(env, data, req);
      r.status == StatusOK && r.body == env.store.status && r.calls == [Store.Status] &&
      r.metrics == [] && r.data == data
  {
    ExactPathsAreNotKeyPaths();
    assert ServeHTTP(env, data, req) == HandleStatus(env, data, req);
  }

  /** The number of latency observations among `ms`. */
  function Observations(ms: seq<Metric>): nat {
    if |ms| == 0 then 0 else (if ms[0].Observe? then 1 else 0) + Observations(ms[1..])
  }

  lemma {:induction false} ObservationsAppend(a: seq<Metric>, b: seq<Metric>)
    ensures Observations(a + b) == Observations(a) + Observations(b)
    decreases |a|
  {
    if |a| == 0 {
      assert a + b == b;
    } else {
      assert (a + b)[0] == a[0];
      assert (a + b)[1..] == a[1..] + b;
      ObservationsAppend(a[1..], b);
    }
  }

  /** The number of requests routed to the key handler. */
  function KeyRequests(reqs: seq<Request>): nat {
    if |reqs| == 0 then 0 else (if HasPrefix(reqs[0].path, "/key") then 1 else 0) + KeyRequests(reqs[1..])
  }

  /** Serving requests one after another against the same store: the
      metric events of all of them, in order, and the final contents. */
  function ServeAll(env: Env, data: map<string, string>, reqs: seq<Request>): (seq<Metric>, map<string, string>)
    decreases |reqs|
  {
    if |reqs| == 0 then ([], data)
    else
      var r := ServeHTTP(env, data, reqs[0]);
      var rest := ServeAll(env, r.data, reqs[1..]);
      (r.metrics + rest.0, rest.1)
  }

  lemma {:induction false} NoObservations(ms: seq<Metric>)
    requires forall i :: 0 <= i < |ms| ==> ms[i].Inc?
    ensures Observations(ms) == 0
    decreases |ms|
  {
    if |ms| > 0 {
      NoObservations(ms[1..]);
    }
  }

  /** One request's latency observations: one for a key request, whatever
      its outcome, none otherwise. */
  lemma LatencyPerRequest(env: Env, data: map<string, string>, req: Request)
    ensures Observations(ServeHTTP(env, data, req).metrics) == if HasPrefix(req.path, "/key") then 1 else 0
  {
    if HasPrefix(req.path, "/key") {
      var r := HandleKey(env, data, req);
      assert ServeHTTP(env, data, req) == r;
      LatencyObservedOnce(env, data, req);
      var n := |r.metrics|;
      NoObservations(r.metrics[..n - 1]);
      ObservationsAppend(r.metrics[..n - 1], [r.metrics[n - 1]]);
      assert r.metrics[..n - 1] + [r.metrics[n - 1]] == r.metrics;
    }
  }

  /** Over any sequence of requests the latency observations number
      exactly the key requests, failed ones included. */
  lemma {:induction false} LatencyCount(env: Env, data: map<string, string>, reqs: seq<Request>)
    ensures Observations(ServeAll(env, data, reqs).0) == KeyRequests(reqs)
    decreases |reqs|
  {
    if |reqs| > 0 {
      var r := ServeHTTP(env, data, reqs[0]);
      LatencyPerRequest(env, data, reqs[0]);
      LatencyCount(env, r.data, reqs[1..]);
      ObservationsAppend(r.metrics, ServeAll(env, r.data, reqs[1..]).0);
    }
  }

  /** POST `{k: v}` to any key path, then GET "/key/<k>": with a store that
      accepts both calls, the GET answers 200 with the encoding of `{k: v}`. */
  lemma PostThenGet(env: Env, data: map<string, string>, x: string, k: string, v: string)
    requires k != "" && '/' !in k
    requires !env.store.fails(data, Store.Set(k, v))
    requires !env.store.fails(data[k := v], Store.Get(k))
    requires env.marshal(map[k := v]).Some?
    ensures var post := ServeHTTP(env, data, Request("POST", "/key/" + x, Some([(k, v)])));
      var get := ServeHTTP(env, post.data, Request("GET", "/key/" + k, None));
      && post.status == StatusOK
      && get.status == StatusOK && get.body == env.marshal(map[k := v]).value
  {
    var postReq := Request("POST", "/key/" + x, Some([(k, v)]));
    assert HasPrefix(postReq.path, "/key");
    Routing(env, data, postReq);
    PostSets(env, data, postReq);
    var post := ServeHTTP(env, data, postReq);
    assert [(k, v)][..0] == [];
    assert post.data == data[k := v];
    var getReq := Request("GET", "/key/" + k, None);
    assert HasPrefix(getReq.path, "/key");
    Routing(env, post.data, getReq);
    KeyExtraction(k);
    GetFound(env, post.data, getReq);
  }

  /** The code as written records a latency observation the summary
      refuses on every error path, a PUT for one. */
  lemma AsWrittenObservationRefused(env: Env, data: map<string, string>)
    ensures var r := HandleKeyAsWritten(env, data, Request("PUT", "/key/k", None));
      r.status == StatusMethodNotAllowed && !Accepted(r.metrics[|r.metrics| - 1])
  {
    var req := Request("PUT", "/key/k", None);
    assert req.verb[0] != 'G' && req.verb[0] != 'D' && req.verb[1] != 'O';
    assert KeyHandler(env, data, req) == Reject(Begin(req.verb, data), StatusMethodNotAllowed);
    AsWrittenObservation(env, data, req);
  }
}
