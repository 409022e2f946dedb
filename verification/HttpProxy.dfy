/**
 The proxy that drives an `httpContext`: it buffers what arrives, calls the plugin back, and releases the
 buffer when the plugin says Continue. Driven this way the object follows the state machine of HttpStream,
 so every guarantee about reachable states is one about the object.
 */
module HttpProxy {
  import opened Prelude
  import opened Wafs
  import opened HttpStream
  import opened HttpTrace
  import opened HttpSafety
  import opened HttpGuarantees
  import opened Metrics
  import opened HttpContexts
  import opened HttpHeaders

  /** What a delivery does to the object and to the shared counters. */
  twostate predicate Delivered(c: HttpContext, ev: Event)
    reads c, c.tx, c.host, c.metrics, c.metrics.host, c.perAuthorityWAFs, c.perAuthorityWAFs.routes
  {
    && c.Valid() && c.State() == Step(old(c.State()), ev)
    && c.Metering(old(c.metrics.Value()), old(c.metered))
  }

  method CanDeliver(c: HttpContext, ev: Event) returns (r: bool)
    ensures r == Enabled(c.State(), ev)
  {
    r := c.panic.None? && !c.host.h.done;
    if r {
      match ev {
        case RequestHeaders(_) => r := !c.host.h.requestHeadersSeen && !c.host.h.responseHeadersSeen;
        case RequestData(_, _, _) => r := c.host.h.requestHeadersSeen;
        case RequestTrailers(_) => r := c.host.h.requestHeadersSeen;
        case ResponseHeaders(_) => r := !c.host.h.responseHeadersSeen;
        case ResponseData(_, _, _) => r := c.host.h.responseHeadersSeen;
        case ResponseTrailers(_) => r := c.host.h.responseHeadersSeen;
        case Done(_) =>
      }
    }
  }

  method DeliverRequestHeaders(c: HttpContext, env: Answers) returns (a: Action)
    requires c.Valid() && c.tx == null && Enabled(c.State(), RequestHeaders(env))
    modifies c, c.host, c.metrics, c.metrics.host
    ensures Delivered(c, RequestHeaders(env)) && (c.tx == null || fresh(c.tx))
    ensures a == ActionOf(old(c.State()), RequestHeaders(env))
  {
    c.host.MarkRequestHeaders();
    a := c.OnRequestHeaders(env);
  }

  method DeliverRequestData(c: HttpContext, data: seq<Byte>, end: bool, env: Answers) returns (a: Action)
    requires c.Valid() && Enabled(c.State(), RequestData(data, end, env))
    modifies c, c.host, c.tx, c.metrics, c.metrics.host
    ensures Delivered(c, RequestData(data, end, env)) && c.tx == old(c.tx)
    ensures a == ActionOf(old(c.State()), RequestData(data, end, env))
  {
    c.host.BufferRequest(data);
    assert c.State() == ArriveRequest(old(c.State()), data);
    a := c.OnRequestBody(|c.host.h.requestBuffer|, end, env);
    c.host.SendUpstream(a);
    RequestDataStep(old(c.State()), data, end, env);
  }

  method DeliverRequestTrailers(c: HttpContext, env: Answers) returns (a: Action)
    requires c.Valid() && Enabled(c.State(), RequestTrailers(env))
    modifies c, c.host, c.tx, c.metrics, c.metrics.host
    ensures Delivered(c, RequestTrailers(env)) && c.tx == old(c.tx)
    ensures a == ActionOf(old(c.State()), RequestTrailers(env))
  {
    a := c.OnRequestTrailers(env);
    c.host.SendUpstream(a);
  }

  method DeliverResponseHeaders(c: HttpContext, env: Answers) returns (a: Action)
    requires c.Valid() && Enabled(c.State(), ResponseHeaders(env))
    modifies c, c.host, c.tx, c.metrics, c.metrics.host
    ensures Delivered(c, ResponseHeaders(env)) && c.tx == old(c.tx)
    ensures a == ActionOf(old(c.State()), ResponseHeaders(env))
  {
    c.host.MarkResponseHeaders();
    a := c.OnResponseHeaders(env);
  }

  method DeliverResponseData(c: HttpContext, data: seq<Byte>, end: bool, env: Answers) returns (a: Action)
    requires c.Valid() && Enabled(c.State(), ResponseData(data, end, env))
    modifies c, c.host, c.tx, c.metrics, c.metrics.host
    ensures Delivered(c, ResponseData(data, end, env)) && c.tx == old(c.tx)
    ensures a == ActionOf(old(c.State()), ResponseData(data, end, env))
  {
    c.host.BufferResponse(data);
    assert c.State() == ArriveResponse(old(c.State()), data);
    a := c.OnResponseBody(|c.host.h.responseBuffer|, end, env);
    c.host.SendDownstream(a);
  }

  method DeliverResponseTrailers(c: HttpContext, env: Answers) returns (a: Action)
    requires c.Valid() && Enabled(c.State(), ResponseTrailers(env))
    modifies c, c.host, c.tx, c.metrics, c.metrics.host
    ensures Delivered(c, ResponseTrailers(env)) && c.tx == old(c.tx)
    ensures a == ActionOf(old(c.State()), ResponseTrailers(env))
  {
    a := c.OnResponseTrailers(env);
    c.host.SendDownstream(a);
  }

  method DeliverDone(c: HttpContext, env: Answers) returns (a: Action)
    requires c.Valid() && Enabled(c.State(), Done(env))
    modifies c, c.host, c.tx
    ensures Delivered(c, Done(env)) && c.tx == old(c.tx)
    ensures a == ActionOf(old(c.State()), Done(env))
  {
    c.host.MarkDone();
    c.OnStreamDone(env);
    MeterNone(c.metrics.Value(), c.metered);
    a := Continue;
  }

  /** Safety of a stream at one moment. */
  predicate Safe(s: Stream) {
    && s.panic != Some(AlreadyHandled)
    && s.host.upstream <= s.host.requestArrived
    && (Healthy(s) ==>
          && (s.host.upstream != [] ==> RequestCleared(s.tx.value.trace))
          && (!AllNull(s.host.downstream) ==> s.interruptedAt == NoPhase && ResponseCleared(s.tx.value.trace)))
  }

  lemma ReachableIsSafe(s: Stream)
    requires Reachable(s)
    ensures Safe(s) && (s.tx.Some? ==> s.host.requestHeadersSeen)
  {
    ReachableKeeps(s);
  }

  lemma StepDropped(s: Stream, ev: Event)
    requires !Enabled(s, ev)
    ensures Step(s, ev) == s
  {}

  lemma NewIsReachable(wafs: WafMap, policy: FailurePolicy, labels: seq<string>)
    ensures var s := NewStream(wafs, policy, labels); Reachable(s) && Safe(s) && s.metered == []
  {
    assert NewStream(wafs, policy, labels) == Run(NewStream(wafs, policy, labels), []);
    ReachableIsSafe(NewStream(wafs, policy, labels));
  }

  /** One event, with the action of its callback; one that cannot happen in this state is dropped. */
  method Deliver(c: HttpContext, ev: Event) returns (a: Action)
    requires c.Valid() && Reachable(c.State())
    modifies c, c.host, c.tx, c.metrics, c.metrics.host
    ensures Delivered(c, ev) && (c.tx == old(c.tx) || fresh(c.tx))
    ensures Enabled(old(c.State()), ev) ==> a == ActionOf(old(c.State()), ev)
    ensures Reachable(c.State()) && Safe(c.State())
  {
    hide Step, Safe, Reachable, BumpAll, NamesOf, ActionOf;
    a := Pause;
    ReachableIsSafe(c.State());
    StepReachable(c.State(), ev);
    ReachableIsSafe(Step(c.State(), ev));
    var possible := CanDeliver(c, ev);
    if !possible {
      StepDropped(c.State(), ev);
      MeterNone(c.metrics.Value(), c.metered);
      return;
    }
    match ev {
      case RequestHeaders(env) => a := DeliverRequestHeaders(c, env);
      case RequestData(data, end, env) => a := DeliverRequestData(c, data, end, env);
      case RequestTrailers(env) => a := DeliverRequestTrailers(c, env);
      case ResponseHeaders(env) => a := DeliverResponseHeaders(c, env);
      case ResponseData(data, end, env) => a := DeliverResponseData(c, data, end, env);
      case ResponseTrailers(env) => a := DeliverResponseTrailers(c, env);
      case Done(env) => a := DeliverDone(c, env);
    }
  }

  predicate OfRequest(ev: Event) {
    ev.RequestHeaders? || ev.RequestData? || ev.RequestTrailers?
  }

  lemma SentNext(start: Stream, events: seq<Event>, i: nat)
    requires i < |events|
    ensures HeadersSent(start, events[..i + 1]) <==>
              || HeadersSent(start, events[..i])
              || (Enabled(Run(start, events[..i]), events[i]) && OfRequest(events[i])
                  && ActionOf(Run(start, events[..i]), events[i]) == Continue)
    ensures Run(start, events[..i + 1]) == Step(Run(start, events[..i]), events[i])
  {
    assert events[..i + 1][..i] == events[..i];
  }

  /**
   A whole stream, from its creation: the object ends in the state that the run of the state machine ends
   in, which is safe, and the shared counters have been incremented exactly as its list says. The proxy sends
   the request's headers on when a callback of the request continues, so never after they were denied.
   */
  method Serve(wafs: WafTable, policy: FailurePolicy, labels: seq<string>, metrics: WafMetrics, events: seq<Event>)
    returns (c: HttpContext, sent: bool)
    requires metrics.Valid() && |labels| % 2 == 0
    modifies metrics, metrics.host
    ensures fresh(c) && c.Valid() && c.State() == Run(NewStream(wafs.Value(), policy, labels), events)
    ensures Reachable(c.State()) && Safe(c.State())
    ensures sent == HeadersSent(NewStream(wafs.Value(), policy, labels), events)
    ensures c.interruptedAt == RequestHeadersPhase ==> !sent
    ensures metrics.Value() == BumpAll(old(metrics.Value()), NamesOf(c.metered))
    ensures wafs.Value() == old(wafs.Value())
  {
    hide Step, Safe, Reachable, BumpAll, NamesOf, NewStream, HeadersSent, ActionOf, Run, Enabled;
    c := new HttpContext(wafs, policy, labels, metrics);
    ghost var start := c.State();
    NoEvents(start);
    NewIsReachable(wafs.Value(), policy, labels);
    MeterNone(metrics.Value(), []);
    sent := false;
    var i := 0;
    while i < |events|
      invariant 0 <= i <= |events|
      invariant c.Valid() && c.metrics == metrics && fresh(c.host) && (c.tx == null || fresh(c.tx))
      invariant c.State() == Run(start, events[..i]) && Reachable(c.State()) && Safe(c.State())
      invariant sent == HeadersSent(start, events[..i])
      invariant metrics.Value() == BumpAll(old(metrics.Value()), NamesOf(c.metered))
      invariant wafs.Value() == old(wafs.Value())
    {
      SentNext(start, events, i);
      ghost var before, already := metrics.Value(), c.metered;
      var possible := CanDeliver(c, events[i]);
      var a := Deliver(c, events[i]);
      if possible && OfRequest(events[i]) && a == Continue {
        sent := true;
      }
      MeterChain(old(metrics.Value()), [], before, already, c.metered);
      i := i + 1;
    }
    assert events[..|events|] == events;
    if c.interruptedAt == RequestHeadersPhase {
      DeniedHeadersHeld(wafs.Value(), policy, labels, events);
    }
  }

  lemma NoEvents(start: Stream)
    ensures Run(start, []) == start && !HeadersSent(start, [])
  {}
}
