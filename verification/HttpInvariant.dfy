/** What holds in every state a stream can reach, proved callback by callback. */
module HttpInvariant {
  import opened Prelude
  import opened Wafs
  import opened HttpStream
  import opened HttpTrace

  /** How far the plugin's flags say the transaction can have got. */
  function Bound(s: Stream): nat {
    if s.host.done then 9
    else if s.interruptedAt != NoPhase || s.processedResponseBody then 7
    else if s.host.responseHeadersSeen then 5
    else if s.processedRequestBody then 4
    else 2
  }

  predicate OrderInv(s: Stream) {
    match s.tx
    case None => s.interruptedAt == NoPhase && !s.processedRequestBody && !s.processedResponseBody && s.bodyReadIndex == 0
    case Some(tx) =>
      && Ordered(tx.trace)
      && FloorOf(tx.trace) <= Bound(s)
      && s.host.requestHeadersSeen
      && (s.processedResponseBody ==> s.host.responseHeadersSeen || s.host.done)
      && (s.host.responseHeadersSeen && !tx.off && s.interruptedAt == NoPhase ==> s.processedRequestBody)
  }

  /** Local responses are sent for phases whose answer has not yet begun. */
  predicate BeforeBody(p: Phase) {
    p == RequestHeadersPhase || p == RequestBodyPhase || p == ResponseHeadersPhase
  }

  /** What the flags, the interruption, the local responses and the counters have to do with the calls made. */
  predicate LedgerInv(s: Stream) {
    && (s.panic == None || s.panic == Some(NilLogger) || (s.panic == Some(SendFailed) && BeforeBody(s.interruptedAt)))
    && (s.panic == Some(NilLogger) ==> s.tx.None?)
    && (s.failurePolicy == Allow ==> s.host.refusals == [])
    && |s.host.refusals| <= s.host.errors
    && (forall code :: code in s.host.refusals ==> code == 403)
    && (s.tx.Some? && s.processedRequestBody ==> RequestRan(s.tx.value.trace))
    && (s.tx.Some? && s.processedResponseBody ==> ResponseRan(s.tx.value.trace))
    && (s.interruptedAt != NoPhase ==> s.tx.Some? && Stopped(s.tx.value.trace).Some?)
    && s.host.denials ==
         (if BeforeBody(s.interruptedAt) && s.panic.None? then [DenialStatus(Stopped(s.tx.value.trace).value)] else [])
    && s.metered ==
         (if s.host.requestHeadersSeen then [TransactionCounted] else []) +
         (if s.interruptedAt == NoPhase then []
          else [InterruptionCounted(s.interruptedAt, Stopped(s.tx.value.trace).value.ruleID, s.labels)])
  }

  /** Unless something failed, a closed phase that did not interrupt has cleared the body. */
  predicate ClearInv(s: Stream) {
    s.tx.Some? && s.host.errors == 0 && s.interruptedAt == NoPhase ==>
      && (s.processedRequestBody ==> RequestCleared(s.tx.value.trace))
      && (s.processedResponseBody && !s.host.done ==> ResponseCleared(s.tx.value.trace))
  }

  predicate FlowInv(s: Stream) {
    OrderInv(s) && LedgerInv(s) && ClearInv(s)
  }

  // ---- the pieces of a callback ----

  lemma FailurePolicyKeepsFlow(s: Stream, env: Answers)
    requires OrderInv(s) && LedgerInv(s) && s.panic.None?
    ensures FlowInv(ApplyFailurePolicy(s, env).0)
  {}

  lemma InterruptionKeepsFlow(s: Stream, phase: Phase, it: Interruption, env: Answers)
    requires s.tx.Some? && s.interruptedAt == NoPhase && phase != NoPhase && s.panic.None?
    requires OrderInv(s.(interruptedAt := phase)) && LedgerInv(s) && Stopped(s.tx.value.trace) == Some(it)
    ensures FlowInv(HandleInterruption(s, phase, it, env).0)
  {
    if phase == ResponseBodyPhase {
      assert !BeforeBody(phase);
    } else if env.sendOk {
    } else {
    }
  }

  predicate RequestOpen(s: Stream) {
    s.tx.Some? && !s.tx.value.off && s.interruptedAt == NoPhase && !s.processedRequestBody && s.panic.None? && Bound(s) <= 3
  }

  lemma RunRequestBodyKeepsFlow(s: Stream, site: Site, phase: Phase, env: Answers)
    requires FlowInv(s) && RequestOpen(s) && phase != NoPhase
    ensures FlowInv(RunRequestBody(s, site, phase, env).0)
  {
    hide HandleInterruption, ApplyFailurePolicy;
    var s' := Record(s.(processedRequestBody := true), ProcessRequestBody(site, env.body));
    match env.body
    case EngineError => FailurePolicyKeepsFlow(s', env);
    case Stop(it) => InterruptionKeepsFlow(s', phase, it, env);
    case Clean =>
  }

  lemma WriteRequestChunkKeepsFlow(s: Stream, chunk: seq<Byte>, env: Answers)
    requires FlowInv(s) && RequestOpen(s)
    ensures var r := WriteRequestChunk(s, chunk, env); FlowInv(r.s) && (r.Proceed? ==> RequestOpen(r.s))
  {
    hide HandleInterruption, ApplyFailurePolicy;
    var s' := Record(s, WriteRequestBody(chunk, env.write));
    match env.write
    case WriteError => FailurePolicyKeepsFlow(s', env);
    case WriteStop(it) => InterruptionKeepsFlow(s', RequestBodyPhase, it, env);
    case Wrote(n) =>
  }

  lemma NoReadKeepsFlow(s: Stream, env: Answers)
    requires FlowInv(s) && s.panic.None?
    ensures FlowInv(ApplyFailurePolicy(s, env).0)
  {
    FailurePolicyKeepsFlow(s, env);
  }

  lemma FeedRequestBodyKeepsFlow(s: Stream, bodySize: nat, env: Answers)
    requires FlowInv(s) && RequestOpen(s)
    ensures var r := FeedRequestBody(s, bodySize, env);
            FlowInv(r.s) && (r.Proceed? ==> RequestOpen(r.s))
  {
    hide ApplyFailurePolicy, WriteRequestChunk, FlowInv;
    if bodySize > s.bodyReadIndex {
      if env.read.None? {
        NoReadKeepsFlow(s, env);
      } else {
        WriteRequestChunkKeepsFlow(s, ReadBuffer(s.host.requestBuffer, s.bodyReadIndex, bodySize - s.bodyReadIndex, env.read.value), env);
      }
    }
  }

  lemma RequestBodyKeepsFlow(s: Stream, bodySize: nat, end: bool, env: Answers)
    requires FlowInv(s) && s.host.requestHeadersSeen && !s.host.done && s.panic.None?
    ensures FlowInv(OnHttpRequestBody(s, bodySize, end, env).0)
  {
    hide RunRequestBody, FeedRequestBody;
    if s.interruptedAt == NoPhase && !s.processedRequestBody && s.tx.Some? {
      var s := SeeEngine(s, env);
      if !s.tx.value.off {
        if !env.bodyAccess {
          RunRequestBodyKeepsFlow(s, NoBodyAccess, RequestBodyPhase, env);
        } else {
          FeedRequestBodyKeepsFlow(s, bodySize, env);
          match FeedRequestBody(s, bodySize, env)
          case Leave(_, _) =>
          case Proceed(s) =>
            if end {
              RunRequestBodyKeepsFlow(s.(bodyReadIndex := 0), EndOfStream, RequestBodyPhase, env);
            }
        }
      }
    }
  }

  lemma RequestHeadersKeepFlow(s: Stream, env: Answers)
    requires FlowInv(s) && s.tx.None? && !s.host.requestHeadersSeen && !s.host.responseHeadersSeen && !s.host.done && s.panic.None?
    ensures FlowInv(OnHttpRequestHeaders(s.(host := s.host.(requestHeadersSeen := true)), env).0)
  {
    hide HandleInterruption, ApplyFailurePolicy;
    var s := s.(host := s.host.(requestHeadersSeen := true), metered := s.metered + [TransactionCounted]);
    if env.authority.None? || GetWAFOrDefault(s.wafs, env.authority.value).NoDefaultWAF? {
      FailurePolicyKeepsFlow(s, env);
    } else {
      var r := GetWAFOrDefault(s.wafs, env.authority.value);
      var s := s.(tx := Some(Tx(r.waf, env.engineOff, Empty)),
                  labels := if r.isDefault then s.labels else s.labels.(authority := env.authority));
      if !env.engineOff {
        if !env.requestLine || !env.headers {
          FailurePolicyKeepsFlow(s, env);
        } else if env.headersVerdict.Some? {
          var s := Record(s, ProcessRequestHeaders(env.headersVerdict));
          InterruptionKeepsFlow(s, RequestHeadersPhase, env.headersVerdict.value, env);
        }
      }
    }
  }

  lemma RunResponseHeadersKeepsFlow(s: Stream, env: Answers)
    requires FlowInv(s) && s.tx.Some? && s.interruptedAt == NoPhase && s.panic.None? && !s.host.done
    requires s.host.responseHeadersSeen && FloorOf(s.tx.value.trace) <= 4
    ensures FlowInv(RunResponseHeaders(s, env).0)
  {
    hide HandleInterruption, ApplyFailurePolicy;
    if !env.headers {
      FailurePolicyKeepsFlow(s, env);
    } else if env.headersVerdict.Some? {
      var s := Record(s, ProcessResponseHeaders(env.headersVerdict));
      InterruptionKeepsFlow(s, ResponseHeadersPhase, env.headersVerdict.value, env);
    }
  }

  lemma ResponseHeadersKeepFlow(s: Stream, env: Answers)
    requires FlowInv(s) && !s.host.responseHeadersSeen && !s.host.done && s.panic.None?
    ensures FlowInv(OnHttpResponseHeaders(s.(host := s.host.(responseHeadersSeen := true)), env).0)
  {
    hide HandleInterruption, ApplyFailurePolicy, RunResponseHeaders;
    if s.interruptedAt == NoPhase && s.tx.Some? {
      var s1 := SeeEngine(s.(host := s.host.(responseHeadersSeen := true)), env);
      if !s1.tx.value.off {
        if s1.processedRequestBody {
          RunResponseHeadersKeepsFlow(s1, env);
        } else {
          var s2 := Record(s1.(processedRequestBody := true), ProcessRequestBody(BeforeResponse, env.body));
          match env.body
          case EngineError => FailurePolicyKeepsFlow(s2, env);
          case Stop(it) => InterruptionKeepsFlow(s2, ResponseHeadersPhase, it, env);
          case Clean => RunResponseHeadersKeepsFlow(s2, env);
        }
      }
    }
  }

  predicate ResponseOpen(s: Stream) {
    s.tx.Some? && !s.tx.value.off && s.interruptedAt == NoPhase && !s.processedResponseBody && s.panic.None?
    && s.host.responseHeadersSeen && !s.host.done
  }

  lemma SkipInspectionKeepsFlow(s: Stream, bodySize: nat, env: Answers)
    requires FlowInv(s) && ResponseOpen(s)
    ensures FlowInv(SkipResponseInspection(s, bodySize, env).0)
  {
    hide HandleInterruption, ApplyFailurePolicy;
    var s' := Record(s, ProcessResponseBody(env.body));
    match env.body
    case EngineError => FailurePolicyKeepsFlow(s', env);
    case Stop(it) =>
      InterruptionKeepsFlow(s'.(processedResponseBody := true, bodyReadIndex := bodySize), ResponseBodyPhase, it, env);
    case Clean =>
  }

  lemma WriteResponseChunkKeepsFlow(s: Stream, chunk: seq<Byte>, env: Answers)
    requires FlowInv(s) && ResponseOpen(s)
    ensures var r := WriteResponseChunk(s, chunk, env); FlowInv(r.s) && (r.Proceed? ==> ResponseOpen(r.s))
  {
    hide HandleInterruption, ApplyFailurePolicy;
    var s' := Record(s, WriteResponseBody(chunk, env.write));
    match env.write
    case WriteError => FailurePolicyKeepsFlow(s', env);
    case WriteStop(it) => InterruptionKeepsFlow(s'.(bodyReadIndex := s.bodyReadIndex + |chunk|), ResponseBodyPhase, it, env);
    case Wrote(n) =>
  }

  lemma FeedResponseBodyKeepsFlow(s: Stream, bodySize: nat, env: Answers)
    requires FlowInv(s) && ResponseOpen(s)
    ensures var r := FeedResponseBody(s, bodySize, env);
            FlowInv(r.s) && (r.Proceed? ==> ResponseOpen(r.s))
  {
    hide ApplyFailurePolicy, WriteResponseChunk, FlowInv;
    if bodySize > s.bodyReadIndex {
      if env.read.None? {
        NoReadKeepsFlow(s, env);
      } else {
        WriteResponseChunkKeepsFlow(s, Content(ReadBuffer(s.host.responseBuffer, s.bodyReadIndex, bodySize - s.bodyReadIndex, env.read.value)), env);
      }
    }
  }

  lemma RunResponseBodyKeepsFlow(s: Stream, env: Answers)
    requires FlowInv(s) && ResponseOpen(s)
    ensures FlowInv(RunResponseBody(s, env).0)
  {
    hide HandleInterruption, ApplyFailurePolicy;
    var s' := Record(s.(processedResponseBody := true), ProcessResponseBody(env.body));
    match env.body
    case EngineError => FailurePolicyKeepsFlow(s', env);
    case Stop(it) => InterruptionKeepsFlow(s', ResponseBodyPhase, it, env);
    case Clean =>
  }

  lemma ResponseBodyKeepsFlow(s: Stream, bodySize: nat, end: bool, env: Answers)
    requires FlowInv(s) && s.host.responseHeadersSeen && !s.host.done && s.panic.None?
    ensures FlowInv(OnHttpResponseBody(s, bodySize, end, env).0)
  {
    hide FeedResponseBody, RunResponseBody, SkipResponseInspection;
    if s.interruptedAt == NoPhase && !s.processedResponseBody && s.tx.Some? {
      var s := SeeEngine(s, env);
      if !s.tx.value.off {
        if !env.bodyAccess || !env.bodyProcessable {
          SkipInspectionKeepsFlow(s, bodySize, env);
        } else {
          FeedResponseBodyKeepsFlow(s, bodySize, env);
          match FeedResponseBody(s, bodySize, env)
          case Leave(_, _) =>
          case Proceed(s) =>
            if end {
              RunResponseBodyKeepsFlow(s, env);
            }
        }
      }
    }
  }

  /** A call made after the done callback has begun is never too early. */
  lemma LateCallKeepsFlow(s: Stream, c: Call)
    requires FlowInv(s) && s.tx.Some? && s.host.done
    requires FloorOf(s.tx.value.trace) <= Rank(c) && StopOf(c).None?
    ensures FlowInv(Record(s, c))
  {}

  lemma LateResponseBodyKeepsFlow(s: Stream, v: Verdict)
    requires FlowInv(s) && s.tx.Some? && s.host.done && s.interruptedAt == NoPhase && FloorOf(s.tx.value.trace) <= 6
    ensures var r := Record(s.(processedResponseBody := true), ProcessResponseBody(v));
            FlowInv(r) && FloorOf(r.tx.value.trace) <= 7
  {}

  lemma DoneKeepsFlow(s: Stream, env: Answers)
    requires FlowInv(s) && !s.host.done && s.panic.None?
    ensures FlowInv(OnHttpStreamDone(s.(host := s.host.(done := true)), env))
  {
    if s.tx.Some? {
      assert FloorOf(s.tx.value.trace) <= Bound(s);
      var s1 := SeeEngine(s.(host := s.host.(done := true)), env);
      assert FlowInv(s1);
      var s2 := s1;
      if !s1.tx.value.off && s1.interruptedAt == NoPhase && !s1.processedResponseBody {
        LateResponseBodyKeepsFlow(s1, env.body);
        s2 := Record(s1.(processedResponseBody := true), ProcessResponseBody(env.body));
      }
      LateCallKeepsFlow(s2, ProcessLogging);
      LateCallKeepsFlow(Record(s2, ProcessLogging), CloseTransaction);
    }
  }

  lemma ArrivalKeepsFlow(s: Stream, data: seq<Byte>)
    requires FlowInv(s)
    ensures FlowInv(ArriveRequest(s, data)) && FlowInv(ArriveResponse(s, data))
  {}

  lemma ReleaseKeepsFlow(r: (Stream, Action))
    requires FlowInv(r.0)
    ensures FlowInv(ReleaseRequest(r)) && FlowInv(ReleaseResponse(r))
  {}

  lemma CrashKeepsFlow(s: Stream)
    requires FlowInv(s) && s.tx.None? && s.panic.None?
    ensures FlowInv(Crash(s, NilLogger).0)
  {}

  lemma StepKeepsFlow(s: Stream, ev: Event)
    requires FlowInv(s)
    ensures FlowInv(Step(s, ev))
  {
    hide LedgerInv, ClearInv;
    if Enabled(s, ev) {
      match ev
      case RequestHeaders(env) => RequestHeadersKeepFlow(s, env);
      case RequestData(data, end, env) =>
        ArrivalKeepsFlow(s, data);
        var s := ArriveRequest(s, data);
        RequestBodyKeepsFlow(s, |s.host.requestBuffer|, end, env);
        ReleaseKeepsFlow(OnHttpRequestBody(s, |s.host.requestBuffer|, end, env));
      case RequestTrailers(env) =>
        if s.tx.Some? {
          RequestBodyKeepsFlow(s, s.bodyReadIndex, true, env);
          ReleaseKeepsFlow(OnHttpRequestBody(s, s.bodyReadIndex, true, env));
        } else {
          CrashKeepsFlow(s);
        }
      case ResponseHeaders(env) => ResponseHeadersKeepFlow(s, env);
      case ResponseData(data, end, env) =>
        ArrivalKeepsFlow(s, data);
        var s := ArriveResponse(s, data);
        ResponseBodyKeepsFlow(s, |s.host.responseBuffer|, end, env);
        ReleaseKeepsFlow(OnHttpResponseBody(s, |s.host.responseBuffer|, end, env));
      case ResponseTrailers(env) =>
        if s.tx.Some? {
          ResponseBodyKeepsFlow(s, s.bodyReadIndex, true, env);
          ReleaseKeepsFlow(OnHttpResponseBody(s, s.bodyReadIndex, true, env));
        } else {
          CrashKeepsFlow(s);
        }
      case Done(env) => DoneKeepsFlow(s, env);
    }
  }
}
