/** The guarantees a stream gives over whole runs. */
module HttpRuns {
  import opened Prelude
  import opened Wafs
  import opened HttpStream
  import opened HttpTrace
  import opened HttpInvariant
  import opened HttpBodies
  import opened HttpSafety

  predicate SafeInv(s: Stream) {
    && (s.host.upstream != [] ==> s.host.requestHeadersSeen)
    && (s.host.downstream != [] ==> s.host.responseHeadersSeen)
    && (Healthy(s) ==>
          && (s.host.upstream != [] ==> RequestCleared(s.tx.value.trace))
          && (s.interruptedAt == NoPhase && s.host.downstream != [] ==>
                s.processedResponseBody && ResponseCleared(s.tx.value.trace))
          && (s.interruptedAt != NoPhase ==> AllNull(s.host.downstream)))
  }

  /** No error has been let through: none has happened, or the policy is not "allow". */
  predicate NoneLetThrough(s: Stream) {
    s.failurePolicy != Allow || s.host.errors == 0
  }

  /** With the engine on and no error let through, a body is held back while its phase is open. */
  predicate HeldInv(s: Stream) {
    s.tx.Some? && !s.tx.value.off && s.interruptedAt == NoPhase && NoneLetThrough(s) ==>
      && (!s.processedRequestBody ==> s.host.upstream == [])
      && (!s.processedResponseBody ==> s.host.downstream == [])
  }

  predicate StreamInv(s: Stream) {
    FlowInv(s) && FaithInv(s) && Conserved(s) && SafeInv(s) && HeldInv(s)
  }

  lemma RequestDataKeepsSafe(s: Stream, r: (Stream, Action), env: Answers)
    requires FlowInv(s) && SafeInv(s) && s.host.requestHeadersSeen && !s.host.done
    requires Effect(s, r.0, env) && FlowInv(r.0) && (s.tx.None? ==> r.0.tx.None?)
    requires RequestOutcome(s, r.0, r.1)
    requires r.0.interruptedAt != s.interruptedAt ==> s.tx.Some? && !s.tx.value.off && !s.processedRequestBody
    requires HeldInv(s)
    ensures SafeInv(ReleaseRequest(r)) && HeldInv(ReleaseRequest(r))
  {
  }

  lemma ResponseDataKeepsSafe(s: Stream, r: (Stream, Action), env: Answers)
    requires FlowInv(s) && SafeInv(s) && s.host.responseHeadersSeen && !s.host.done
    requires Effect(s, r.0, env) && FlowInv(r.0) && (s.tx.None? ==> r.0.tx.None?)
    requires ResponseOutcome(s, r.0, r.1)
    requires r.0.interruptedAt != s.interruptedAt ==> s.tx.Some? && !s.processedResponseBody
    requires HeldInv(s)
    ensures SafeInv(ReleaseResponse(r)) && HeldInv(ReleaseResponse(r))
  {
  }

  lemma LiftAppends(a: seq<Byte>, b: seq<Byte>)
    ensures Lift(a + b) == Lift(a) + Lift(b)
  {}

  lemma ContentAppends(octets: seq<Octet>, data: seq<Byte>)
    ensures Content(octets + Lift(data)) == Content(octets) + data
  {}

  lemma SliceOfPrefix<T>(a: seq<T>, b: seq<T>, i: nat, j: nat)
    requires i <= j <= |a|
    ensures (a + b)[i..j] == a[i..j]
  {}

  lemma ArrivalKeepsFaith(s: Stream, data: seq<Byte>)
    requires FaithInv(s)
    ensures FaithInv(ArriveResponse(s, data))
  {
    ContentAppends(s.host.responseBuffer, data);
    if s.tx.Some? && EntryIndex(s.tx.value.trace) <= s.bodyReadIndex <= |s.host.responseBuffer| {
      SliceOfPrefix(Content(s.host.responseBuffer), data, EntryIndex(s.tx.value.trace), s.bodyReadIndex);
    }
  }

  lemma ArriveRequestKeeps(s: Stream, data: seq<Byte>)
    requires StreamInv(s)
    ensures StreamInv(ArriveRequest(s, data))
  {
    ArrivalKeepsFlow(s, data);
    if s.bodyReadIndex <= |s.host.requestBuffer| {
      SliceOfPrefix(s.host.requestBuffer, data, 0, s.bodyReadIndex);
    }
  }

  lemma ArrivalKeepsBytes(s: Stream, data: seq<Byte>)
    requires Conserved(s) && SafeInv(s)
    ensures Conserved(ArriveResponse(s, data)) && SafeInv(ArriveResponse(s, data))
  {
    LiftAppends(s.host.responseArrived, data);
    var d, b := s.host.downstream, s.host.responseBuffer;
    assert d + (b + Lift(data)) == (d + b) + Lift(data);
  }

  lemma ArriveResponseKeeps(s: Stream, data: seq<Byte>)
    requires StreamInv(s)
    ensures StreamInv(ArriveResponse(s, data))
  {
    ArrivalKeepsFlow(s, data);
    ArrivalKeepsFaith(s, data);
    ArrivalKeepsBytes(s, data);
  }

  lemma ReleaseRequestKeeps(r: (Stream, Action))
    requires FlowInv(r.0) && FaithInv(r.0) && Conserved(r.0)
    ensures var s := ReleaseRequest(r); FlowInv(s) && FaithInv(s) && Conserved(s)
  {
    ReleaseKeepsFlow(r);
  }

  lemma ReleaseResponseKeeps(r: (Stream, Action))
    requires FlowInv(r.0) && FaithInv(r.0) && Conserved(r.0)
    ensures var s := ReleaseResponse(r); FlowInv(s) && FaithInv(s) && Conserved(s)
  {
    ReleaseKeepsFlow(r);
  }

  lemma RequestBodyKeeps(s: Stream, size: nat, end: bool, env: Answers)
    requires StreamInv(s) && s.host.requestHeadersSeen && !s.host.done && s.panic.None?
    ensures StreamInv(ReleaseRequest(OnHttpRequestBody(s, size, end, env)))
  {
    var r := OnHttpRequestBody(s, size, end, env);
    RequestBodyKeepsFlow(s, size, end, env);
    RequestBodyKeepsFaith(s, size, end, env);
    RequestBodyEffect(s, size, end, env);
    ReleaseRequestKeeps(r);
    RequestDataKeepsSafe(s, r, env);
  }

  lemma ResponseBodyKeeps(s: Stream, size: nat, end: bool, env: Answers)
    requires StreamInv(s) && s.host.responseHeadersSeen && !s.host.done && s.panic.None?
    ensures StreamInv(ReleaseResponse(OnHttpResponseBody(s, size, end, env)))
  {
    var r := OnHttpResponseBody(s, size, end, env);
    ResponseBodyKeepsFlow(s, size, end, env);
    ResponseBodyKeepsFaith(s, size, end, env);
    ResponseBodyEffect(s, size, end, env);
    ReleaseResponseKeeps(r);
    ResponseDataKeepsSafe(s, r, env);
  }

  lemma CrashKeeps(s: Stream)
    requires StreamInv(s) && s.tx.None? && s.panic.None?
    ensures StreamInv(Crash(s, NilLogger).0)
  {}

  lemma HeadersKeep(s: Stream, env: Answers)
    requires StreamInv(s) && Enabled(s, RequestHeaders(env))
    ensures StreamInv(Step(s, RequestHeaders(env)))
  {
    StepKeepsFlow(s, RequestHeaders(env));
    var s1 := s.(host := s.host.(requestHeadersSeen := true));
    RequestHeadersKeepFaith(s1, env);
    RequestHeadersEffect(s1, env);
    assert Step(s, RequestHeaders(env)) == OnHttpRequestHeaders(s1, env).0;
  }

  lemma ResponseHeadersKeep(s: Stream, env: Answers)
    requires StreamInv(s) && Enabled(s, ResponseHeaders(env))
    ensures StreamInv(Step(s, ResponseHeaders(env)))
  {
    StepKeepsFlow(s, ResponseHeaders(env));
    ResponseHeadersKeepFaith(s, env);
    var s1 := s.(host := s.host.(responseHeadersSeen := true));
    ResponseHeadersEffect(s1, env);
    assert Step(s, ResponseHeaders(env)) == OnHttpResponseHeaders(s1, env).0;
  }

  lemma DoneKeeps(s: Stream, env: Answers)
    requires StreamInv(s) && Enabled(s, Done(env))
    ensures StreamInv(Step(s, Done(env)))
  {
    StepKeepsFlow(s, Done(env));
    var s1 := s.(host := s.host.(done := true));
    DoneKeepsFaith(s1, env);
    DoneEffect(s1, env);
    assert Step(s, Done(env)) == OnHttpStreamDone(s1, env);
  }

  lemma StepKeeps(s: Stream, ev: Event)
    requires StreamInv(s)
    ensures StreamInv(Step(s, ev))
  {
    if Enabled(s, ev) {
      match ev
      case RequestHeaders(env) => HeadersKeep(s, env);
      case RequestData(data, end, env) =>
        ArriveRequestKeeps(s, data);
        var s1 := ArriveRequest(s, data);
        RequestBodyKeeps(s1, |s1.host.requestBuffer|, end, env);
      case RequestTrailers(env) =>
        if s.tx.Some? { RequestBodyKeeps(s, s.bodyReadIndex, true, env); } else { CrashKeeps(s); }
      case ResponseHeaders(env) => ResponseHeadersKeep(s, env);
      case ResponseData(data, end, env) =>
        ArriveResponseKeeps(s, data);
        var s1 := ArriveResponse(s, data);
        ResponseBodyKeeps(s1, |s1.host.responseBuffer|, end, env);
      case ResponseTrailers(env) =>
        if s.tx.Some? { ResponseBodyKeeps(s, s.bodyReadIndex, true, env); } else { CrashKeeps(s); }
      case Done(env) => DoneKeeps(s, env);
    }
  }

  /** A state that a stream can be in: the result of some run from its creation. */
  lemma {:induction false} RunKeeps(wafs: WafMap, policy: FailurePolicy, labels: seq<string>, events: seq<Event>)
    ensures StreamInv(Run(NewStream(wafs, policy, labels), events))
  {
    if events != [] {
      RunKeeps(wafs, policy, labels, events[..|events| - 1]);
      StepKeeps(Run(NewStream(wafs, policy, labels), events[..|events| - 1]), events[|events| - 1]);
    }
  }

  /** One event changes none of the facts that are set for good, and crashes only as the rule says. */
  lemma StepEvolves(s: Stream, ev: Event)
    requires StreamInv(s) && Enabled(s, ev)
    ensures Evolves(s, Step(s, ev)) && CrashRule(s, Step(s, ev), ev.env)
  {
    match ev
    case RequestHeaders(env) =>
      var s1 := s.(host := s.host.(requestHeadersSeen := true));
      RequestHeadersEffect(s1, env);
      assert Step(s, ev) == OnHttpRequestHeaders(s1, env).0;
    case ResponseHeaders(env) =>
      var s1 := s.(host := s.host.(responseHeadersSeen := true));
      ResponseHeadersEffect(s1, env);
      assert Step(s, ev) == OnHttpResponseHeaders(s1, env).0;
    case Done(env) =>
      var s1 := s.(host := s.host.(done := true));
      DoneEffect(s1, env);
      assert Step(s, ev) == OnHttpStreamDone(s1, env);
    case RequestData(_, _, _) => RequestStepEvolves(s, ev);
    case RequestTrailers(_) => RequestStepEvolves(s, ev);
    case ResponseData(_, _, _) => ResponseStepEvolves(s, ev);
    case ResponseTrailers(_) => ResponseStepEvolves(s, ev);
  }

  lemma ReleaseEvolves(s: Stream, r: (Stream, Action), env: Answers)
    requires Evolves(s, r.0) && CrashRule(s, r.0, env)
    ensures Evolves(s, ReleaseRequest(r)) && CrashRule(s, ReleaseRequest(r), env)
    ensures Evolves(s, ReleaseResponse(r)) && CrashRule(s, ReleaseResponse(r), env)
  {}

  lemma ArrivalEvolves(s: Stream, data: seq<Byte>, r: Stream, env: Answers)
    ensures Effect(ArriveRequest(s, data), r, env) ==> Evolves(s, r) && CrashRule(s, r, env)
    ensures Effect(ArriveResponse(s, data), r, env) ==> Evolves(s, r) && CrashRule(s, r, env)
  {}

  lemma CrashEvolves(s: Stream, env: Answers)
    requires s.tx.None? && s.interruptedAt == NoPhase
    ensures var r := Crash(s, NilLogger).0; Evolves(s, r) && (s.panic.None? ==> CrashRule(s, r, env))
  {}

  lemma RequestStepEvolves(s: Stream, ev: Event)
    requires StreamInv(s) && Enabled(s, ev) && (ev.RequestData? || ev.RequestTrailers?)
    ensures Evolves(s, Step(s, ev)) && CrashRule(s, Step(s, ev), ev.env)
  {
    hide OnHttpRequestBody, ReleaseRequest, Evolves, CrashRule, KeepsBuffers;
    if ev.RequestData? {
      var s1 := ArriveRequest(s, ev.data);
      var r := OnHttpRequestBody(s1, |s1.host.requestBuffer|, ev.end, ev.env);
      RequestBodyEffect(s1, |s1.host.requestBuffer|, ev.end, ev.env);
      ArrivalEvolves(s, ev.data, r.0, ev.env);
      ReleaseEvolves(s, r, ev.env);
    } else if s.tx.Some? {
      var r := OnHttpRequestBody(s, s.bodyReadIndex, true, ev.env);
      RequestBodyEffect(s, s.bodyReadIndex, true, ev.env);
      ReleaseEvolves(s, r, ev.env);
    } else {
      CrashEvolves(s, ev.env);
      ReleaseEvolves(s, Crash(s, NilLogger), ev.env);
    }
  }

  lemma ResponseStepEvolves(s: Stream, ev: Event)
    requires StreamInv(s) && Enabled(s, ev) && (ev.ResponseData? || ev.ResponseTrailers?)
    ensures Evolves(s, Step(s, ev)) && CrashRule(s, Step(s, ev), ev.env)
  {
    hide OnHttpResponseBody, ReleaseResponse, Evolves, CrashRule, KeepsBuffers;
    if ev.ResponseData? {
      var s1 := ArriveResponse(s, ev.data);
      var r := OnHttpResponseBody(s1, |s1.host.responseBuffer|, ev.end, ev.env);
      ResponseBodyEffect(s1, |s1.host.responseBuffer|, ev.end, ev.env);
      ArrivalEvolves(s, ev.data, r.0, ev.env);
      ReleaseEvolves(s, r, ev.env);
    } else if s.tx.Some? {
      var r := OnHttpResponseBody(s, s.bodyReadIndex, true, ev.env);
      ResponseBodyEffect(s, s.bodyReadIndex, true, ev.env);
      ReleaseEvolves(s, r, ev.env);
    } else {
      CrashEvolves(s, ev.env);
      ReleaseEvolves(s, Crash(s, NilLogger), ev.env);
    }
  }
}
