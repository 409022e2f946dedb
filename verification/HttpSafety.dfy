/** What the host sees of a callback, and which bytes it may have released. */
module HttpSafety {
  import opened Prelude
  import opened Wafs
  import opened HttpStream
  import opened HttpTrace
  import opened HttpInvariant

  /** The facts of a stream that never change once they are set. */
  predicate Evolves(s: Stream, r: Stream) {
    && r.wafs == s.wafs && r.failurePolicy == s.failurePolicy
    && s.host.errors <= r.host.errors
    && (s.processedRequestBody ==> r.processedRequestBody) && (s.processedResponseBody ==> r.processedResponseBody)
    && (s.interruptedAt != NoPhase ==> r.interruptedAt == s.interruptedAt && r.metered == s.metered)
    && (s.tx.Some? ==>
          && r.tx.Some? && r.tx.value.waf == s.tx.value.waf && r.labels == s.labels
          && (s.tx.value.off ==> r.tx.value.off)
          && (RequestCleared(s.tx.value.trace) ==> RequestCleared(r.tx.value.trace))
          && (ResponseCleared(s.tx.value.trace) ==> ResponseCleared(r.tx.value.trace)))
  }

  /** A callback moves no body byte by itself; only an interruption may overwrite the response buffer. */
  predicate KeepsBuffers(s: Stream, r: Stream) {
    var h, k := s.host, r.host;
    && k.requestArrived == h.requestArrived && k.requestBuffer == h.requestBuffer && k.upstream == h.upstream
    && k.responseArrived == h.responseArrived && k.downstream == h.downstream
    && k.requestHeadersSeen == h.requestHeadersSeen && k.responseHeadersSeen == h.responseHeadersSeen && k.done == h.done
    && (r.interruptedAt == NoPhase ==> k.responseBuffer == h.responseBuffer)
  }

  predicate AllNull(octets: seq<Octet>) {
    forall o :: o in octets ==> o == Null
  }

  /** The engine is resolved and on, and nothing has gone wrong so far. */
  predicate Healthy(s: Stream) {
    s.tx.Some? && !s.tx.value.off && s.host.errors == 0
  }

  /** The plugin crashes on a local response exactly when it must send one for an interruption and cannot. */
  predicate CrashRule(s: Stream, r: Stream, env: Answers) {
    r.panic == Some(SendFailed) <==>
      s.panic == Some(SendFailed) || (s.interruptedAt == NoPhase && BeforeBody(r.interruptedAt) && !env.sendOk)
  }

  /** A callback that logs an error without an interruption ends as the failure policy says. */
  predicate PolicyRule(s: Stream, r: Stream, a: Action) {
    r.host.errors > s.host.errors && r.interruptedAt == NoPhase ==> a == if s.failurePolicy == Allow then Continue else Pause
  }

  predicate Effect(s: Stream, r: Stream, env: Answers) {
    Evolves(s, r) && KeepsBuffers(s, r) && CrashRule(s, r, env)
  }

  lemma Chain(a: Stream, b: Stream, c: Stream, env: Answers)
    requires Effect(a, b, env) && Effect(b, c, env)
    ensures Effect(a, c, env)
  {}

  lemma SameEffect(s: Stream, env: Answers)
    ensures Effect(s, s, env)
  {}

  lemma SeeEngineEffect(s: Stream, env: Answers)
    requires s.tx.Some?
    ensures Effect(s, SeeEngine(s, env), env)
  {}

  lemma RecordEffect(s: Stream, c: Call, env: Answers)
    requires s.tx.Some?
    ensures Effect(s, Record(s, c), env)
  {}

  /** The response-body phase that the done callback makes up for. */
  lemma LateCallEffect(s: Stream, env: Answers)
    requires s.tx.Some?
    ensures Effect(s, s, env) && Effect(s, Record(s.(processedResponseBody := true), ProcessResponseBody(env.body)), env)
  {}

  lemma PolicyEffect(s: Stream, env: Answers)
    ensures var r := ApplyFailurePolicy(s, env);
            && Effect(s, r.0, env) && PolicyRule(s, r.0, r.1)
            && r.0.host.errors == s.host.errors + 1 && r.0.interruptedAt == s.interruptedAt
  {}

  /** An interruption before the response body: a local response, or a crash if it cannot be sent. */
  lemma EarlyInterruptionEffect(s: Stream, phase: Phase, it: Interruption, env: Answers)
    requires s.interruptedAt == NoPhase && BeforeBody(phase)
    ensures var r := HandleInterruption(s, phase, it, env); Effect(s, r.0, env) && r.0.interruptedAt == phase && r.1 == Pause
  {
    var s1 := s.(metered := s.metered + [InterruptionCounted(phase, it.ruleID, s.labels)], interruptedAt := phase);
    var r := HandleInterruption(s, phase, it, env).0;
    if env.sendOk {
      assert r == s1.(host := s1.host.(denials := s1.host.denials + [DenialStatus(it)]));
    } else {
      assert r == s1.(panic := Some(SendFailed));
    }
    assert Evolves(s, r);
    assert KeepsBuffers(s, r);
  }

  /** An interruption of the response body: null bytes, or the old buffer if it cannot be replaced. */
  lemma LateInterruptionEffect(s: Stream, it: Interruption, env: Answers)
    requires s.interruptedAt == NoPhase
    ensures var r := HandleInterruption(s, ResponseBodyPhase, it, env);
            && Effect(s, r.0, env) && r.0.interruptedAt == ResponseBodyPhase && r.1 == Continue
            && (r.0.host.errors == 0 ==> AllNull(r.0.host.responseBuffer))
  {
    var s1 := s.(metered := s.metered + [InterruptionCounted(ResponseBodyPhase, it.ruleID, s.labels)],
                 interruptedAt := ResponseBodyPhase);
    var r := HandleInterruption(s, ResponseBodyPhase, it, env).0;
    if env.replaceOk {
      assert r == s1.(host := s1.host.(responseBuffer := Nulls(s.bodyReadIndex)));
    } else {
      assert r == LogError(s1);
    }
    assert Evolves(s, r);
    assert KeepsBuffers(s, r);
  }

  lemma InterruptionEffect(s: Stream, phase: Phase, it: Interruption, env: Answers)
    requires s.interruptedAt == NoPhase && phase != NoPhase
    ensures var r := HandleInterruption(s, phase, it, env);
            && Effect(s, r.0, env) && r.0.interruptedAt == phase
            && (if BeforeBody(phase) then r.1 == Pause
                else r.1 == Continue && (r.0.host.errors == 0 ==> AllNull(r.0.host.responseBuffer)))
  {
    if phase == ResponseBodyPhase {
      LateInterruptionEffect(s, it, env);
    } else {
      EarlyInterruptionEffect(s, phase, it, env);
    }
  }

  lemma RequestHeadersEffect(s: Stream, env: Answers)
    requires s.tx.None? && s.interruptedAt == NoPhase
    ensures Effect(s, OnHttpRequestHeaders(s, env).0, env)
  {
    hide HandleInterruption, ApplyFailurePolicy;
    var r := OnHttpRequestHeaders(s, env).0;
    var s1 := s.(metered := s.metered + [TransactionCounted]);
    if env.authority.None? || GetWAFOrDefault(s.wafs, env.authority.value).NoDefaultWAF? {
      PolicyEffect(s1, env);
      assert r == ApplyFailurePolicy(s1, env).0;
    } else {
      var w := GetWAFOrDefault(s.wafs, env.authority.value);
      var s2 := s1.(tx := Some(Tx(w.waf, env.engineOff, Empty)),
                    labels := if w.isDefault then s.labels else s.labels.(authority := env.authority));
      assert Effect(s, s2, env);
      if env.engineOff {
        assert r == s2;
      } else if !env.requestLine || !env.headers {
        PolicyEffect(s2, env);
        assert r == ApplyFailurePolicy(s2, env).0;
        Chain(s, s2, r, env);
      } else {
        RunRequestHeadersEffect(s2, env);
        var s3 := Record(s2, ProcessRequestHeaders(env.headersVerdict));
        assert r == if env.headersVerdict.Some? then HandleInterruption(s3, RequestHeadersPhase, env.headersVerdict.value, env).0 else s3;
        Chain(s, s2, r, env);
      }
    }
  }

  lemma RunRequestHeadersEffect(s: Stream, env: Answers)
    requires s.tx.Some? && s.interruptedAt == NoPhase
    ensures var s1 := Record(s, ProcessRequestHeaders(env.headersVerdict));
            && Effect(s, s1, env)
            && (env.headersVerdict.Some? ==>
                  Effect(s, HandleInterruption(s1, RequestHeadersPhase, env.headersVerdict.value, env).0, env))
  {
    hide HandleInterruption;
    if env.headersVerdict.Some? {
      var s1 := Record(s, ProcessRequestHeaders(env.headersVerdict));
      InterruptionEffect(s1, RequestHeadersPhase, env.headersVerdict.value, env);
      Chain(s, s1, HandleInterruption(s1, RequestHeadersPhase, env.headersVerdict.value, env).0, env);
    }
  }

  /** The callback did not hold the body back although its phase is open: the engine is off, or "allow" met an error. */
  predicate LetThrough(s: Stream, r: Stream)
    requires r.tx.Some?
  {
    r.tx.value.off || (s.failurePolicy == Allow && r.host.errors > s.host.errors)
  }

  /** How a callback of the request body may end. */
  predicate RequestOutcome(s: Stream, r: Stream, a: Action) {
    && PolicyRule(s, r, a)
    && (r.interruptedAt != NoPhase ==> a == Pause)
    && (a == Continue && r.tx.Some? ==> r.processedRequestBody || LetThrough(s, r))
  }

  lemma RunRequestBodyEffect(s: Stream, site: Site, phase: Phase, env: Answers)
    requires s.tx.Some? && s.interruptedAt == NoPhase && BeforeBody(phase)
    ensures var r := RunRequestBody(s, site, phase, env); Effect(s, r.0, env) && RequestOutcome(s, r.0, r.1)
  {
    hide HandleInterruption, ApplyFailurePolicy;
    var r := RunRequestBody(s, site, phase, env);
    var s1 := Record(s.(processedRequestBody := true), ProcessRequestBody(site, env.body));
    match env.body
    case EngineError => PolicyEffect(s1, env); assert r == ApplyFailurePolicy(s1, env); Chain(s, s1, r.0, env);
    case Stop(it) => InterruptionEffect(s1, phase, it, env); assert r == HandleInterruption(s1, phase, it, env); Chain(s, s1, r.0, env);
    case Clean => assert r == (s1, Continue);
  }

  /** What handing a request chunk to the engine may do to the stream. */
  predicate RequestFedOutcome(s: Stream, r: Fed, env: Answers) {
    && Effect(s, r.s, env)
    && (r.Proceed? ==> r.s.interruptedAt == NoPhase && r.s.host.errors == s.host.errors)
    && (r.Leave? ==> RequestOutcome(s, r.s, r.action))
  }

  lemma WriteRequestChunkEffect(s: Stream, chunk: seq<Byte>, env: Answers)
    requires s.tx.Some? && s.interruptedAt == NoPhase
    ensures RequestFedOutcome(s, WriteRequestChunk(s, chunk, env), env)
  {
    hide HandleInterruption, ApplyFailurePolicy;
    var r := WriteRequestChunk(s, chunk, env);
    var s1 := Record(s, WriteRequestBody(chunk, env.write));
    if env.write.WriteError? {
      PolicyEffect(s1, env);
      assert r.s == ApplyFailurePolicy(s1, env).0;
      Chain(s, s1, r.s, env);
    } else if env.write.WriteStop? {
      InterruptionEffect(s1, RequestBodyPhase, env.write.it, env);
      var h := HandleInterruption(s1, RequestBodyPhase, env.write.it, env);
      assert r == Leave(h.0, h.1);
      Chain(s, s1, r.s, env);
    }
  }

  lemma FeedRequestBodyEffect(s: Stream, bodySize: nat, env: Answers)
    requires s.tx.Some? && s.interruptedAt == NoPhase
    ensures RequestFedOutcome(s, FeedRequestBody(s, bodySize, env), env)
  {
    hide ApplyFailurePolicy, WriteRequestChunk;
    var r := FeedRequestBody(s, bodySize, env);
    if bodySize <= s.bodyReadIndex {
      assert r == Proceed(s);
    } else if env.read.None? {
      PolicyEffect(s, env);
      assert r.s == ApplyFailurePolicy(s, env).0;
    } else {
      var chunk := ReadBuffer(s.host.requestBuffer, s.bodyReadIndex, bodySize - s.bodyReadIndex, env.read.value);
      WriteRequestChunkEffect(s, chunk, env);
      assert r == WriteRequestChunk(s, chunk, env);
    }
  }

  lemma RequestBodyEffect(s: Stream, bodySize: nat, end: bool, env: Answers)
    requires s.panic.None?
    ensures var r := OnHttpRequestBody(s, bodySize, end, env);
            && Effect(s, r.0, env) && RequestOutcome(s, r.0, r.1)
            && (r.0.interruptedAt != s.interruptedAt ==> s.tx.Some? && !s.tx.value.off && !s.processedRequestBody)
            && (s.tx.None? ==> r.0.tx.None?)
  {
    hide RunRequestBody, FeedRequestBody;
    var r := OnHttpRequestBody(s, bodySize, end, env);
    if s.interruptedAt == NoPhase && !s.processedRequestBody && s.tx.Some? {
      var s1 := SeeEngine(s, env);
      SeeEngineEffect(s, env);
      if s1.tx.value.off {
        assert r == (s1, Continue);
      } else if !env.bodyAccess {
        RunRequestBodyEffect(s1, NoBodyAccess, RequestBodyPhase, env);
        assert r == RunRequestBody(s1, NoBodyAccess, RequestBodyPhase, env);
        Chain(s, s1, r.0, env);
      } else {
        FeedRequestBodyEffect(s1, bodySize, env);
        var f := FeedRequestBody(s1, bodySize, env);
        Chain(s, s1, f.s, env);
        if f.Leave? {
          assert r == (f.s, f.action);
        } else if end {
          var s2 := f.s.(bodyReadIndex := 0);
          RunRequestBodyEffect(s2, EndOfStream, RequestBodyPhase, env);
          assert r == RunRequestBody(s2, EndOfStream, RequestBodyPhase, env);
          Chain(s, s2, r.0, env);
        } else {
          assert r == (f.s, Pause);
        }
      }
    }
  }

  lemma RunResponseHeadersEffect(s: Stream, env: Answers)
    requires s.tx.Some? && s.interruptedAt == NoPhase
    ensures Effect(s, RunResponseHeaders(s, env).0, env)
  {
    hide HandleInterruption, ApplyFailurePolicy;
    var r := RunResponseHeaders(s, env).0;
    if !env.headers {
      PolicyEffect(s, env);
      assert r == ApplyFailurePolicy(s, env).0;
    } else {
      var s1 := Record(s, ProcessResponseHeaders(env.headersVerdict));
      if env.headersVerdict.Some? {
        InterruptionEffect(s1, ResponseHeadersPhase, env.headersVerdict.value, env);
        assert r == HandleInterruption(s1, ResponseHeadersPhase, env.headersVerdict.value, env).0;
        Chain(s, s1, r, env);
      }
    }
  }

  lemma ResponseHeadersEffect(s: Stream, env: Answers)
    requires s.panic.None?
    ensures var r := OnHttpResponseHeaders(s, env).0; Effect(s, r, env) && (s.tx.None? ==> r.tx.None?)
  {
    hide RunResponseHeaders, HandleInterruption, ApplyFailurePolicy;
    var r := OnHttpResponseHeaders(s, env).0;
    if s.interruptedAt == NoPhase && s.tx.Some? {
      var s1 := SeeEngine(s, env);
      SeeEngineEffect(s, env);
      if s1.tx.value.off {
        assert r == s1;
      } else if s1.processedRequestBody {
        RunResponseHeadersEffect(s1, env);
        assert r == RunResponseHeaders(s1, env).0;
        Chain(s, s1, r, env);
      } else {
        RunRequestBodyEffect(s1, BeforeResponse, ResponseHeadersPhase, env);
        var s2 := RunRequestBody(s1, BeforeResponse, ResponseHeadersPhase, env).0;
        Chain(s, s1, s2, env);
        if env.body.Clean? {
          RunResponseHeadersEffect(s2, env);
          assert r == RunResponseHeaders(s2, env).0;
          Chain(s, s2, r, env);
        } else {
          assert r == s2;
        }
      }
    }
  }

  /** How a callback of the response body may end. */
  predicate ResponseOutcome(s: Stream, r: Stream, a: Action) {
    && PolicyRule(s, r, a)
    && (a == Continue && r.tx.Some? && r.interruptedAt == NoPhase ==> r.processedResponseBody || LetThrough(s, r))
    && (a == Continue && Healthy(r) && r.interruptedAt != NoPhase ==> AllNull(r.host.responseBuffer))
  }

  lemma SkipInspectionEffect(s: Stream, bodySize: nat, env: Answers)
    requires s.tx.Some? && s.interruptedAt == NoPhase
    ensures var r := SkipResponseInspection(s, bodySize, env); Effect(s, r.0, env) && ResponseOutcome(s, r.0, r.1)
  {
    hide HandleInterruption, ApplyFailurePolicy;
    var r := SkipResponseInspection(s, bodySize, env);
    var s1 := Record(s, ProcessResponseBody(env.body));
    match env.body
    case EngineError => PolicyEffect(s1, env); assert r == ApplyFailurePolicy(s1, env); Chain(s, s1, r.0, env);
    case Stop(it) =>
      var s2 := s1.(processedResponseBody := true, bodyReadIndex := bodySize);
      InterruptionEffect(s2, ResponseBodyPhase, it, env);
      assert r == HandleInterruption(s2, ResponseBodyPhase, it, env);
      Chain(s, s2, r.0, env);
    case Clean =>
  }

  lemma RunResponseBodyEffect(s: Stream, env: Answers)
    requires s.tx.Some? && s.interruptedAt == NoPhase
    ensures var r := RunResponseBody(s, env); Effect(s, r.0, env) && ResponseOutcome(s, r.0, r.1)
  {
    hide HandleInterruption, ApplyFailurePolicy;
    var r := RunResponseBody(s, env);
    var s1 := Record(s.(processedResponseBody := true), ProcessResponseBody(env.body));
    match env.body
    case EngineError => PolicyEffect(s1, env); assert r == ApplyFailurePolicy(s1, env); Chain(s, s1, r.0, env);
    case Stop(it) =>
      InterruptionEffect(s1, ResponseBodyPhase, it, env);
      assert r == HandleInterruption(s1, ResponseBodyPhase, it, env);
      Chain(s, s1, r.0, env);
    case Clean =>
  }

  /** What handing a chunk to the engine may do to the stream. */
  predicate FedOutcome(s: Stream, r: Fed, env: Answers) {
    && Effect(s, r.s, env)
    && (r.Proceed? ==> r.s.interruptedAt == NoPhase && r.s.host.errors == s.host.errors)
    && (r.Leave? ==> ResponseOutcome(s, r.s, r.action))
  }

  lemma AcceptedChunkEffect(s: Stream, chunk: seq<Byte>, env: Answers)
    requires s.tx.Some? && s.interruptedAt == NoPhase && env.write.Wrote?
    ensures FedOutcome(s, WriteResponseChunk(s, chunk, env), env)
  {}

  lemma StoppedChunkEffect(s: Stream, chunk: seq<Byte>, env: Answers)
    requires s.tx.Some? && s.interruptedAt == NoPhase && env.write.WriteStop?
    ensures FedOutcome(s, WriteResponseChunk(s, chunk, env), env)
  {
    hide HandleInterruption, ApplyFailurePolicy;
    var r := WriteResponseChunk(s, chunk, env);
    var s1 := Record(s, WriteResponseBody(chunk, env.write)).(bodyReadIndex := s.bodyReadIndex + |chunk|);
    assert Effect(s, s1, env);
    InterruptionEffect(s1, ResponseBodyPhase, env.write.it, env);
    var h := HandleInterruption(s1, ResponseBodyPhase, env.write.it, env);
    assert r == Leave(h.0, h.1);
    Chain(s, s1, r.s, env);
  }

  lemma WriteResponseChunkEffect(s: Stream, chunk: seq<Byte>, env: Answers)
    requires s.tx.Some? && s.interruptedAt == NoPhase
    ensures FedOutcome(s, WriteResponseChunk(s, chunk, env), env)
  {
    hide ApplyFailurePolicy, HandleInterruption;
    match env.write
    case Wrote(_) => AcceptedChunkEffect(s, chunk, env);
    case WriteStop(_) => StoppedChunkEffect(s, chunk, env);
    case WriteError =>
      var s1 := Record(s, WriteResponseBody(chunk, env.write));
      PolicyEffect(s1, env);
      var p := ApplyFailurePolicy(s1, env);
      assert WriteResponseChunk(s, chunk, env) == Leave(p.0, p.1);
      Chain(s, s1, p.0, env);
  }

  lemma FeedResponseBodyEffect(s: Stream, bodySize: nat, env: Answers)
    requires s.tx.Some? && s.interruptedAt == NoPhase
    ensures FedOutcome(s, FeedResponseBody(s, bodySize, env), env)
  {
    hide ApplyFailurePolicy, WriteResponseChunk;
    var r := FeedResponseBody(s, bodySize, env);
    if bodySize <= s.bodyReadIndex {
      assert r == Proceed(s);
    } else if env.read.None? {
      PolicyEffect(s, env);
      var p := ApplyFailurePolicy(s, env);
      assert r == Leave(p.0, p.1);
    } else {
      var chunk := Content(ReadBuffer(s.host.responseBuffer, s.bodyReadIndex, bodySize - s.bodyReadIndex, env.read.value));
      WriteResponseChunkEffect(s, chunk, env);
      assert r == WriteResponseChunk(s, chunk, env);
    }
  }

  lemma ReplaceEffect(s: Stream, size: nat, env: Answers)
    requires s.interruptedAt != NoPhase
    ensures var r := ReplaceResponseBody(s, size, env);
            Effect(s, r.0, env) && ResponseOutcome(s, r.0, r.1) && r.0.interruptedAt == s.interruptedAt
  {}

  lemma ResponseBodyEffect(s: Stream, bodySize: nat, end: bool, env: Answers)
    requires s.panic.None?
    ensures var r := OnHttpResponseBody(s, bodySize, end, env);
            && Effect(s, r.0, env) && ResponseOutcome(s, r.0, r.1)
            && (r.0.interruptedAt != s.interruptedAt ==> s.tx.Some? && !s.processedResponseBody)
            && (s.tx.None? ==> r.0.tx.None?)
  {
    hide SkipResponseInspection, FeedResponseBody, RunResponseBody, ReplaceResponseBody;
    var r := OnHttpResponseBody(s, bodySize, end, env);
    if s.interruptedAt == NoPhase && !s.processedResponseBody && s.tx.Some? {
      var s1 := SeeEngine(s, env);
      SeeEngineEffect(s, env);
      if s1.tx.value.off {
        assert r == (s1, Continue);
      } else if !env.bodyAccess || !env.bodyProcessable {
        SkipInspectionEffect(s1, bodySize, env);
        assert r == SkipResponseInspection(s1, bodySize, env);
        Chain(s, s1, r.0, env);
      } else {
        FeedResponseBodyEffect(s1, bodySize, env);
        var f := FeedResponseBody(s1, bodySize, env);
        Chain(s, s1, f.s, env);
        if f.Leave? {
          assert r == (f.s, f.action);
        } else if end {
          RunResponseBodyEffect(f.s, env);
          assert r == RunResponseBody(f.s, env);
          Chain(s, f.s, r.0, env);
        } else {
          assert r == (f.s, Pause);
        }
      }
    } else if s.interruptedAt != NoPhase && s.tx.Some? {
      assert r == ReplaceResponseBody(s, bodySize, env);
      ReplaceEffect(s, bodySize, env);
    } else {
      assert r == (s, Continue) || r == Crash(s, NilLogger);
    }
  }

  lemma DoneEffect(s: Stream, env: Answers)
    ensures var r := OnHttpStreamDone(s, env);
            Effect(s, r, env) && r.interruptedAt == s.interruptedAt && (s.tx.None? ==> r.tx.None?)
  {
    hide Evolves, KeepsBuffers, CrashRule;
    if s.tx.Some? {
      var s1 := SeeEngine(s, env);
      SeeEngineEffect(s, env);
      var s2 :=
        if !s1.tx.value.off && s.interruptedAt == NoPhase && !s.processedResponseBody
        then Record(s1.(processedResponseBody := true), ProcessResponseBody(env.body))
        else s1;
      LateCallEffect(s1, env);
      var s3 := Record(s2, ProcessLogging);
      RecordEffect(s2, ProcessLogging, env);
      RecordEffect(s3, CloseTransaction, env);
      Chain(s, s1, s2, env);
      Chain(s, s2, s3, env);
      Chain(s, s3, Record(s3, CloseTransaction), env);
    } else {
      SameEffect(s, env);
    }
  }
}
