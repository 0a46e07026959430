/** The metric events of the key handler: which error increments each exit
    path records, and the latency observation its deferred call records. */
module Instrumentation {
  import opened Strings
  import opened Response
  import opened Metrics
  import opened Service
  import Store

  /** The shape of the key handler's metric events before the deferred
      observation: no error increment exactly when the status is 200;
      otherwise a first increment labelled with the committed status and at
      most one more, labelled 500. `labels` is the map the last increment
      used, or the entry labels when there was none. */
  predicate Instrumented(e: Exec, verb: string) {
    && StatusCode(e.w) in {StatusOK, StatusBadRequest, StatusMethodNotAllowed, StatusInternalServerError}
    && (StatusCode(e.w) == StatusOK <==> e.metrics == [])
    && |e.metrics| <= 2
    && (e.metrics != [] ==> e.metrics[0] == Inc(ErrorLabels(verb, StatusCode(e.w))))
    && (|e.metrics| == 2 ==> e.metrics[1] == Inc(ErrorLabels(verb, StatusInternalServerError)))
    && (e.metrics == [] ==> e.labels == KeyLabels(verb))
    && (e.metrics != [] ==> e.labels == e.metrics[|e.metrics| - 1].labels)
  }

  /** Relabelling an error label map replaces only its status. */
  lemma Relabel(verb: string, c: nat, code: nat)
    ensures ErrorLabels(verb, c)["status" := Decimal(code)] == ErrorLabels(verb, code)
  {
  }

  lemma BeginInstrumented(verb: string, data: map<string, string>)
    ensures Instrumented(Begin(verb, data), verb)
    ensures Begin(verb, data).w.header.None?
  {
  }

  /** A Store call touches neither the writer nor the metrics. */
  lemma InvokeInstrumented(o: Store.Oracle, e: Exec, c: Store.Call, verb: string)
    requires Instrumented(e, verb)
    ensures Instrumented(Invoke(o, e, c), verb) && Invoke(o, e, c).w == e.w
  {
  }

  /** The error block keeps the events in shape when it is the first one,
      or a second one for a 500. */
  lemma RejectInstrumented(e: Exec, verb: string, code: nat)
    requires Instrumented(e, verb)
    requires code in {StatusBadRequest, StatusMethodNotAllowed, StatusInternalServerError}
    requires (e.metrics == [] && e.w.header.None?) || (|e.metrics| == 1 && code == StatusInternalServerError)
    ensures Instrumented(Reject(e, code), verb)
  {
    if |e.metrics| == 1 {
      Relabel(verb, StatusCode(e.w), code);
    }
  }

  /** Writing the body commits nothing new when a status is committed, and
      200 otherwise. */
  lemma WriteInstrumented(e: Exec, verb: string, b: string)
    requires Instrumented(e, verb)
    ensures Instrumented(e.(w := WriteString(e.w, b)), verb)
  {
    FirstStatusWins(e.w, 0, b);
  }

  lemma GetInstrumented(env: Env, data: map<string, string>, req: Request)
    ensures Instrumented(KeyGet(env, data, req), req.verb)
  {
    var e0 := Begin(req.verb, data);
    BeginInstrumented(req.verb, data);
    var k := GetKey(req.path);
    var e1 := if k == "" then Reject(e0, StatusBadRequest) else e0;
    if k == "" {
      RejectInstrumented(e0, req.verb, StatusBadRequest);
    }
    var e2 := GetLookup(env, data, req);
    InvokeInstrumented(env.store, e1, Store.Get(k), req.verb);
    var encoded := env.marshal(map[k := Store.Value(data, k)]);
    if env.store.fails(data, Store.Get(k)) || encoded.None? {
      RejectInstrumented(e2, req.verb, StatusInternalServerError);
      assert KeyGet(env, data, req) == Reject(e2, StatusInternalServerError);
    } else {
      WriteInstrumented(e2, req.verb, encoded.value);
      assert KeyGet(env, data, req) == e2.(w := WriteString(e2.w, encoded.value));
    }
  }

  lemma PostInstrumented(env: Env, data: map<string, string>, req: Request)
    ensures Instrumented(KeyPost(env, data, req), req.verb)
  {
    var e0 := Begin(req.verb, data);
    BeginInstrumented(req.verb, data);
    match req.body
    case None =>
      RejectInstrumented(e0, req.verb, StatusBadRequest);
    case Some(es) =>
      var run := SetEach(env.store, data, es);
      var e1 := e0.(calls := SetCalls(es[..run.attempted]), data := run.data);
      assert Instrumented(e1, req.verb);
      if run.failed {
        RejectInstrumented(e1, req.verb, StatusInternalServerError);
      }
  }

  lemma DeleteInstrumented(env: Env, data: map<string, string>, req: Request)
    ensures Instrumented(KeyDelete(env, data, req), req.verb)
  {
    var e0 := Begin(req.verb, data);
    BeginInstrumented(req.verb, data);
    var k := GetKey(req.path);
    if k == "" {
      RejectInstrumented(e0, req.verb, StatusBadRequest);
    } else {
      var c := Store.Delete(k);
      var e1 := Invoke(env.store, e0, c);
      InvokeInstrumented(env.store, e0, c, req.verb);
      if env.store.fails(data, c) {
        RejectInstrumented(e1, req.verb, StatusInternalServerError);
      } else {
        InvokeInstrumented(env.store, e1, c, req.verb);
      }
    }
  }

  /** Every exit path of the key handler leaves its events in shape. */
  lemma KeyHandlerInstrumented(env: Env, data: map<string, string>, req: Request)
    ensures Instrumented(KeyHandler(env, data, req), req.verb)
  {
    if req.verb == "GET" {
      GetInstrumented(env, data, req);
    } else if req.verb == "POST" {
      PostInstrumented(env, data, req);
    } else if req.verb == "DELETE" {
      DeleteInstrumented(env, data, req);
    } else {
      BeginInstrumented(req.verb, data);
      RejectInstrumented(Begin(req.verb, data), req.verb, StatusMethodNotAllowed);
    }
  }

  /** The entry labels suit the summary, the error labels the counter,
      and a status label alone tells the latter from the former. */
  lemma LabelSets(verb: string, code: nat)
    ensures Accepted(Observe(KeyLabels(verb)))
    ensures Accepted(Inc(ErrorLabels(verb, code)))
    ensures !Accepted(Observe(ErrorLabels(verb, code)))
  {
    assert "status" in ErrorLabels(verb, code).Keys;
  }

  /** Every event of an instrumented state is an increment the counter
      accepts, and its labels are the summary's exactly when there is none. */
  lemma InstrumentedEvents(e: Exec, verb: string)
    requires Instrumented(e, verb)
    ensures forall i :: 0 <= i < |e.metrics| ==> e.metrics[i].Inc? && Accepted(e.metrics[i])
    ensures Accepted(Observe(e.labels)) <==> e.metrics == []
  {
    IncrementsAccepted(e, verb);
    SummaryLabels(e, verb);
  }

  /** The error increments of an instrumented state all suit the counter. */
  lemma IncrementsAccepted(e: Exec, verb: string)
    requires Instrumented(e, verb)
    ensures forall i :: 0 <= i < |e.metrics| ==> e.metrics[i].Inc? && Accepted(e.metrics[i])
  {
    LabelSets(verb, StatusCode(e.w));
    LabelSets(verb, StatusInternalServerError);
    forall i | 0 <= i < |e.metrics| ensures e.metrics[i].Inc? && Accepted(e.metrics[i]) {
      if i == 0 {
        assert e.metrics[i] == Inc(ErrorLabels(verb, StatusCode(e.w)));
      } else {
        assert e.metrics[i] == Inc(ErrorLabels(verb, StatusInternalServerError));
      }
    }
  }

  /** The shared labels suit the summary exactly when no error was counted. */
  lemma SummaryLabels(e: Exec, verb: string)
    requires Instrumented(e, verb)
    ensures Accepted(Observe(e.labels)) <==> e.metrics == []
  {
    LabelSets(verb, StatusCode(e.w));
    LabelSets(verb, StatusInternalServerError);
    if e.metrics != [] {
      var last := e.metrics[|e.metrics| - 1];
      assert e.labels == last.labels;
      assert last == Inc(ErrorLabels(verb, StatusCode(e.w))) || last == Inc(ErrorLabels(verb, StatusInternalServerError));
    }
  }

  /** Every key request records exactly one latency observation, last,
      labelled by endpoint and method and accepted by the summary; every
      event before it is an error increment the counter accepts, and there
      is one exactly when the status is not 200. */
  lemma LatencyObservedOnce(env: Env, data: map<string, string>, req: Request)
    ensures var r := HandleKey(env, data, req);
      && |r.metrics| >= 1 && r.metrics[|r.metrics| - 1] == Observe(KeyLabels(req.verb))
      && (forall i :: 0 <= i < |r.metrics| ==> Accepted(r.metrics[i]))
      && (forall i :: 0 <= i < |r.metrics| - 1 ==> r.metrics[i].Inc?)
      && (r.status == StatusOK <==> |r.metrics| == 1)
  {
    KeyHandlerInstrumented(env, data, req);
    ObserveLast(KeyHandler(env, data, req), req.verb);
  }

  /** Appending the summary observation to an instrumented state. */
  lemma ObserveLast(e: Exec, verb: string)
    requires Instrumented(e, verb)
    ensures var r := Finish(e.(metrics := e.metrics + [Observe(KeyLabels(verb))]));
      && |r.metrics| >= 1 && r.metrics[|r.metrics| - 1] == Observe(KeyLabels(verb))
      && (forall i :: 0 <= i < |r.metrics| ==> Accepted(r.metrics[i]))
      && (forall i :: 0 <= i < |r.metrics| - 1 ==> r.metrics[i].Inc?)
      && (r.status == StatusOK <==> |r.metrics| == 1)
  {
    InstrumentedEvents(e, verb);
    LabelSets(verb, StatusOK);
    AppendAccepted(e.metrics, Observe(KeyLabels(verb)));
  }

  /** Increments the counter accepts, followed by one more accepted event:
      every event is accepted and all but the last are increments. */
  lemma AppendAccepted(ms: seq<Metric>, m: Metric)
    requires forall i :: 0 <= i < |ms| ==> ms[i].Inc? && Accepted(ms[i])
    requires Accepted(m)
    ensures forall i :: 0 <= i < |ms + [m]| ==> Accepted((ms + [m])[i])
    ensures forall i :: 0 <= i < |ms + [m]| - 1 ==> (ms + [m])[i].Inc?
  {
    forall i | 0 <= i < |ms + [m]| - 1 ensures (ms + [m])[i] == ms[i] {
    }
  }

  /** The handler as written and the corrected one agree on everything
      but the deferred observation. */
  lemma AsWrittenAgrees(env: Env, data: map<string, string>, req: Request)
    ensures var r := HandleKey(env, data, req);
      var a := HandleKeyAsWritten(env, data, req);
      && a.status == r.status && a.body == r.body && a.calls == r.calls && a.data == r.data
      && |a.metrics| == |r.metrics| && a.metrics[..|a.metrics| - 1] == r.metrics[..|r.metrics| - 1]
  {
    var e := KeyHandler(env, data, req);
    SameButLast(e, Observe(KeyLabels(req.verb)), Observe(e.labels));
  }

  /** As written, the deferred observation carries the labels of the
      error increment just before it, or the entry labels when there is
      none. */
  lemma AsWrittenLabels(env: Env, data: map<string, string>, req: Request)
    ensures var a := HandleKeyAsWritten(env, data, req).metrics;
      a[|a| - 1] == Observe(if |a| == 1 then KeyLabels(req.verb) else a[|a| - 2].labels)
  {
    var e := KeyHandler(env, data, req);
    KeyHandlerLabels(env, data, req);
    LastLabels(e, req.verb);
  }

  /** The key handler's shared labels are the last increment's, or the
      entry labels when nothing was counted. */
  lemma KeyHandlerLabels(env: Env, data: map<string, string>, req: Request)
    ensures var e := KeyHandler(env, data, req);
      e.labels == if e.metrics == [] then KeyLabels(req.verb) else e.metrics[|e.metrics| - 1].labels
  {
    KeyHandlerInstrumented(env, data, req);
    FinalLabels(KeyHandler(env, data, req), req.verb);
  }

  /** In an instrumented state `labels` is the last increment's label map,
      or the entry labels when there is none. */
  lemma FinalLabels(e: Exec, verb: string)
    requires Instrumented(e, verb)
    ensures e.labels == if e.metrics == [] then KeyLabels(verb) else e.metrics[|e.metrics| - 1].labels
  {
  }

  /** Closing the handler's state with one final event or another changes
      nothing but that event. */
  lemma SameButLast(e: Exec, m1: Metric, m2: Metric)
    ensures var r := Finish(e.(metrics := e.metrics + [m1]));
      var a := Finish(e.(metrics := e.metrics + [m2]));
      && a.status == r.status && a.body == r.body && a.calls == r.calls && a.data == r.data
      && |a.metrics| == |r.metrics| && a.metrics[..|a.metrics| - 1] == r.metrics[..|r.metrics| - 1]
  {
    assert (e.metrics + [m1])[..|e.metrics|] == e.metrics == (e.metrics + [m2])[..|e.metrics|];
  }

  /** Closing the handler's state with the shared labels observes the
      labels of the increment just before it, or the entry labels when
      there is none. */
  lemma LastLabels(e: Exec, verb: string)
    requires e.labels == if e.metrics == [] then KeyLabels(verb) else e.metrics[|e.metrics| - 1].labels
    ensures var a := Finish(e.(metrics := e.metrics + [Observe(e.labels)])).metrics;
      a[|a| - 1] == Observe(if |a| == 1 then KeyLabels(verb) else a[|a| - 2].labels)
  {
    var a := e.metrics + [Observe(e.labels)];
    if |e.metrics| > 0 {
      assert a[|a| - 2] == e.metrics[|e.metrics| - 1];
    }
  }

  /** As written, the observation the deferred call records is refused by
      the summary exactly when the request took an error path. */
  lemma AsWrittenObservation(env: Env, data: map<string, string>, req: Request)
    ensures var r := HandleKeyAsWritten(env, data, req);
      && |r.metrics| >= 1 && r.metrics[|r.metrics| - 1].Observe?
      && (Accepted(r.metrics[|r.metrics| - 1]) <==> r.status == StatusOK)
  {
    var e := KeyHandler(env, data, req);
    KeyHandlerInstrumented(env, data, req);
    InstrumentedEvents(e, req.verb);
  }
}
