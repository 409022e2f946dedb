/** What becomes of a request's headers: the host holds them until a callback of the request continues. */
module HttpHeaders {
  import opened Wafs
  import opened HttpStream
  import opened HttpSafety
  import opened HttpRuns
  import opened HttpGuarantees
  import opened HttpCallbacks
  import opened HttpSealing

  /** The action that an event's callback returns. */
  function ActionOf(s: Stream, ev: Event): Action {
    match ev
    case RequestHeaders(env) => OnHttpRequestHeaders(s.(host := s.host.(requestHeadersSeen := true)), env).1
    case RequestData(data, end, env) =>
      var a := ArriveRequest(s, data);
      OnHttpRequestBody(a, |a.host.requestBuffer|, end, env).1
    case RequestTrailers(env) => OnHttpRequestTrailers(s, env).1
    case ResponseHeaders(env) => OnHttpResponseHeaders(s.(host := s.host.(responseHeadersSeen := true)), env).1
    case ResponseData(data, end, env) =>
      var a := ArriveResponse(s, data);
      OnHttpResponseBody(a, |a.host.responseBuffer|, end, env).1
    case ResponseTrailers(env) => OnHttpResponseTrailers(s, env).1
    case Done(_) => Continue
  }

  /** The event lets the request's headers, if they are still held, go on. */
  predicate RequestContinues(s: Stream, ev: Event) {
    Enabled(s, ev) && (ev.RequestHeaders? || IsRequestBody(ev)) && ActionOf(s, ev) == Continue
  }

  /** The request's headers have gone upstream by the end of a run. */
  predicate HeadersSent(start: Stream, events: seq<Event>) {
    events != [] &&
    (|| HeadersSent(start, events[..|events| - 1])
     || RequestContinues(Run(start, events[..|events| - 1]), events[|events| - 1]))
  }

  /** The headers have been seen from then on, and only the first event can have set that. */
  lemma SeenStays(s: Stream, ev: Event)
    requires StreamInv(s) && Enabled(s, ev)
    ensures Step(s, ev).host.requestHeadersSeen == (s.host.requestHeadersSeen || ev.RequestHeaders?)
  {
    hide OnHttpRequestHeaders, OnHttpRequestBody, OnHttpResponseHeaders, OnHttpResponseBody, OnHttpStreamDone, Evolves, CrashRule;
    match ev
    case RequestHeaders(env) => RequestHeadersEffect(s.(host := s.host.(requestHeadersSeen := true)), env);
    case RequestData(data, end, env) =>
      var a := ArriveRequest(s, data);
      RequestBodyEffect(a, |a.host.requestBuffer|, end, env);
      RequestDataStep(s, data, end, env);
    case RequestTrailers(env) => RequestBodyEffect(s, s.bodyReadIndex, true, env);
    case ResponseHeaders(env) => ResponseHeadersEffect(s.(host := s.host.(responseHeadersSeen := true)), env);
    case ResponseData(data, end, env) =>
      var a := ArriveResponse(s, data);
      ResponseBodyEffect(a, |a.host.responseBuffer|, end, env);
    case ResponseTrailers(env) => ResponseBodyEffect(s, s.bodyReadIndex, true, env);
    case Done(env) => DoneEffect(s.(host := s.host.(done := true)), env);
  }

  lemma {:induction false} SentAreSeen(wafs: WafMap, policy: FailurePolicy, labels: seq<string>, events: seq<Event>)
    ensures var start := NewStream(wafs, policy, labels);
            HeadersSent(start, events) ==> Run(start, events).host.requestHeadersSeen
  {
    if events != [] {
      hide Step, StreamInv, ActionOf;
      var start, front, ev := NewStream(wafs, policy, labels), events[..|events| - 1], events[|events| - 1];
      SentAreSeen(wafs, policy, labels, front);
      RunKeeps(wafs, policy, labels, front);
      if Enabled(Run(start, front), ev) {
        SeenStays(Run(start, front), ev);
      } else {
        Disabled(Run(start, front), ev);
      }
    }
  }

  lemma Disabled(s: Stream, ev: Event)
    requires !Enabled(s, ev)
    ensures Step(s, ev) == s
  {}

  /** An interruption by the request's headers pauses them, and everything of the request after them. */
  lemma HeaderInterruptionPauses(s: Stream, ev: Event)
    requires Reachable(s) && Step(s, ev).interruptedAt == RequestHeadersPhase
    ensures !RequestContinues(s, ev)
    ensures s.interruptedAt == NoPhase ==> ev.RequestHeaders? && Enabled(s, ev)
  {
    hide LetOut, Leaks, OnHttpRequestHeaders, OnHttpRequestBody, OnHttpResponseHeaders, OnHttpResponseBody, OnHttpStreamDone;
    SealedStep(s, ev);
    ReachableKeeps(s);
    if s.interruptedAt != NoPhase {
      if Enabled(s, ev) { InterruptedRequestPauses(s, ev); }
    } else {
      RequestHeadersPause(s.(host := s.host.(requestHeadersSeen := true)), ev.env);
    }
  }

  lemma InterruptedRequestPauses(s: Stream, ev: Event)
    requires StreamInv(s) && s.interruptedAt != NoPhase && Enabled(s, ev)
    ensures !RequestContinues(s, ev)
  {
    if ev.RequestData? {
      var a := ArriveRequest(s, ev.data);
      InterruptedDo(a, |a.host.requestBuffer|, ev.end, ev.env);
    } else if ev.RequestTrailers? {
      InterruptedDo(s, 0, true, ev.env);
    }
  }

  /**
   In every run: a request that was interrupted because of its headers is never sent on. The callback that
   denies it pauses, and so does every later one of the request.
   */
  lemma {:induction false} DeniedHeadersHeld(wafs: WafMap, policy: FailurePolicy, labels: seq<string>, events: seq<Event>)
    requires Run(NewStream(wafs, policy, labels), events).interruptedAt == RequestHeadersPhase
    ensures !HeadersSent(NewStream(wafs, policy, labels), events)
  {
    if events != [] {
      hide Step, ActionOf;
      var start, front, ev := NewStream(wafs, policy, labels), events[..|events| - 1], events[|events| - 1];
      var s := Run(start, front);
      HeaderInterruptionPauses(s, ev);
      SealedStep(s, ev);
      if s.interruptedAt == NoPhase {
        SentAreSeen(wafs, policy, labels, front);
      } else {
        DeniedHeadersHeld(wafs, policy, labels, front);
      }
    }
  }
}
