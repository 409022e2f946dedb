/**
 Where body bytes are at any moment: fed to the engine, held back, or released. The read index is
 shared by both directions, so the two sides are proved together.
 */
module HttpBodies {
  import opened Prelude
  import opened Wafs
  import opened HttpStream
  import opened HttpTrace
  import opened HttpInvariant

  /**
   While the request phase is open, the index counts the bytes the engine has; while nothing has left,
   they are the beginning of the buffer.
   */
  predicate RequestFaithful(s: Stream) {
    s.tx.Some? && !s.processedRequestBody ==>
      && s.bodyReadIndex == |RequestFed(s.tx.value.trace)|
      && (s.host.upstream == [] ==>
            && s.bodyReadIndex <= |s.host.requestBuffer|
            && RequestFed(s.tx.value.trace) == s.host.requestBuffer[..s.bodyReadIndex])
  }

  /** While the response phase is open and nothing has left, the engine has the body from the entry index on. */
  predicate ResponseFaithful(s: Stream) {
    s.tx.Some? && s.interruptedAt == NoPhase && !s.processedResponseBody ==>
      var t := s.tx.value.trace;
      && s.bodyReadIndex == EntryIndex(t) + |ResponseFed(t)|
      && (s.host.downstream == [] && ResponseFed(t) != [] ==>
            && s.bodyReadIndex <= |s.host.responseBuffer|
            && ResponseFed(t) == Content(s.host.responseBuffer)[EntryIndex(t)..s.bodyReadIndex])
  }

  /** No byte is lost, invented or reordered between arrival and release. */
  predicate Conserved(s: Stream) {
    && s.host.requestArrived == s.host.upstream + s.host.requestBuffer
    && (s.interruptedAt == NoPhase ==> Lift(s.host.responseArrived) == s.host.downstream + s.host.responseBuffer)
  }

  predicate FaithInv(s: Stream) {
    RequestFaithful(s) && ResponseFaithful(s)
  }

  lemma {:induction false} EarlyTrace(t: Trace)
    ensures FloorOf(t) <= 3 ==> !EndSeen(t)
    ensures FloorOf(t) <= 4 ==> ResponseFed(t) == []
  {
    if t.Then? {
      EarlyTrace(t.earlier);
    }
  }

  /** Neither way of turning a callback away touches what was fed. */
  lemma OutcomeKeepsFaith(s: Stream, phase: Phase, it: Interruption, env: Answers)
    requires FaithInv(s) && s.interruptedAt == NoPhase && phase != NoPhase
    ensures FaithInv(ApplyFailurePolicy(s, env).0) && FaithInv(HandleInterruption(s, phase, it, env).0)
  {}

  lemma RunRequestBodyKeepsFaith(s: Stream, site: Site, phase: Phase, env: Answers)
    requires FlowInv(s) && RequestOpen(s) && FaithInv(s) && phase != NoPhase
    ensures FaithInv(RunRequestBody(if site == EndOfStream then s.(bodyReadIndex := 0) else s, site, phase, env).0)
  {
    hide HandleInterruption, ApplyFailurePolicy;
    EarlyTrace(s.tx.value.trace);
    var s0 := if site == EndOfStream then s.(bodyReadIndex := 0) else s;
    var s1 := Record(s0.(processedRequestBody := true), ProcessRequestBody(site, env.body));
    assert FaithInv(s1);
    match env.body
    case EngineError => OutcomeKeepsFaith(s1, phase, Interruption(0, 0), env);
    case Stop(it) => OutcomeKeepsFaith(s1, phase, it, env);
    case Clean =>
  }

  /** A slice read at the index extends the prefix before it. */
  lemma ReadExtendsPrefix(body: seq<Byte>, index: nat, size: nat, atMost: nat)
    requires index <= |body|
    ensures var chunk := ReadBuffer(body, index, size, atMost);
            index + |chunk| <= |body| && body[..index + |chunk|] == body[..index] + chunk
  {}

  lemma WriteRequestChunkKeepsFaith(s: Stream, chunk: seq<Byte>, env: Answers)
    requires s.tx.Some? && FloorOf(s.tx.value.trace) <= 3 && FaithInv(s) && s.interruptedAt == NoPhase
    requires s.host.upstream == [] && !s.processedRequestBody ==>
               var i := s.bodyReadIndex;
               i + |chunk| <= |s.host.requestBuffer| &&
               s.host.requestBuffer[..i + |chunk|] == s.host.requestBuffer[..i] + chunk
    ensures FaithInv(WriteRequestChunk(s, chunk, env).s)
  {
    hide HandleInterruption, ApplyFailurePolicy;
    var t := s.tx.value.trace;
    var c := WriteRequestBody(chunk, env.write);
    EarlyTrace(t);
    assert ResponseFed(Then(t, c)) == [] && !EndSeen(Then(t, c));
    match env.write
    case WriteError => OutcomeKeepsFaith(Record(s, c), RequestBodyPhase, Interruption(0, 0), env);
    case WriteStop(it) => OutcomeKeepsFaith(Record(s, c), RequestBodyPhase, it, env);
    case Wrote(n) =>
  }

  lemma FeedRequestBodyKeepsFaith(s: Stream, bodySize: nat, env: Answers)
    requires s.tx.Some? && FloorOf(s.tx.value.trace) <= 3 && FaithInv(s) && s.interruptedAt == NoPhase
    requires !s.processedRequestBody
    ensures FaithInv(FeedRequestBody(s, bodySize, env).s)
  {
    hide ApplyFailurePolicy, WriteRequestChunk;
    if bodySize > s.bodyReadIndex && env.read.Some? {
      var size := bodySize - s.bodyReadIndex;
      if s.host.upstream == [] {
        ReadExtendsPrefix(s.host.requestBuffer, s.bodyReadIndex, size, env.read.value);
      }
      var chunk := ReadBuffer(s.host.requestBuffer, s.bodyReadIndex, size, env.read.value);
      WriteRequestChunkKeepsFaith(s, chunk, env);
      assert FeedRequestBody(s, bodySize, env) == WriteRequestChunk(s, chunk, env);
    } else if bodySize > s.bodyReadIndex {
      OutcomeKeepsFaith(s, RequestBodyPhase, Interruption(0, 0), env);
      assert FeedRequestBody(s, bodySize, env).s == ApplyFailurePolicy(s, env).0;
    } else {
      assert FeedRequestBody(s, bodySize, env).s == s;
    }
  }

  lemma RequestBodyKeepsFaith(s: Stream, bodySize: nat, end: bool, env: Answers)
    requires FlowInv(s) && FaithInv(s) && s.host.requestHeadersSeen && !s.host.done && s.panic.None?
    ensures FaithInv(OnHttpRequestBody(s, bodySize, end, env).0)
  {
    hide RunRequestBody, FeedRequestBody;
    if s.interruptedAt == NoPhase && !s.processedRequestBody && s.tx.Some? {
      var s := SeeEngine(s, env);
      assert FaithInv(s) && FlowInv(s);
      if !s.tx.value.off {
        if !env.bodyAccess {
          RunRequestBodyKeepsFaith(s, NoBodyAccess, RequestBodyPhase, env);
        } else {
          FeedRequestBodyKeepsFaith(s, bodySize, env);
          FeedRequestBodyKeepsFlow(s, bodySize, env);
          match FeedRequestBody(s, bodySize, env)
          case Leave(_, _) =>
          case Proceed(s) =>
            if end {
              RunRequestBodyKeepsFaith(s, EndOfStream, RequestBodyPhase, env);
            }
        }
      }
    }
  }

  lemma ContentOfRead(octets: seq<Octet>, index: nat, size: nat, atMost: nat)
    ensures Content(ReadBuffer(octets, index, size, atMost)) == ReadBuffer(Content(octets), index, size, atMost)
  {}

  /** A slice read at the index extends the slice from the entry index before it. */
  lemma ReadExtendsSlice(body: seq<Byte>, entry: nat, index: nat, size: nat, atMost: nat)
    requires entry <= index <= |body|
    ensures var chunk := ReadBuffer(body, index, size, atMost);
            index + |chunk| <= |body| && body[entry..index + |chunk|] == body[entry..index] + chunk
  {}

  /** Calls other than writes and the request-body phase leave what was fed as it was. */
  lemma OtherCallKeepsFaith(s: Stream, c: Call)
    requires s.tx.Some? && FaithInv(s) && !IsWrite(c) && !c.ProcessRequestBody?
    ensures FaithInv(Record(s, c))
  {
    var t := s.tx.value.trace;
    assert EntryIndex(Then(t, c)) == EntryIndex(t);
  }

  lemma WriteResponseChunkKeepsFaith(s: Stream, chunk: seq<Byte>, env: Answers)
    requires s.tx.Some? && FaithInv(s) && s.processedRequestBody && s.interruptedAt == NoPhase && !s.processedResponseBody
    requires var i, e := s.bodyReadIndex, EntryIndex(s.tx.value.trace);
             s.host.downstream == [] && chunk != [] ==>
               e <= i && i + |chunk| <= |s.host.responseBuffer| &&
               Content(s.host.responseBuffer)[e..i + |chunk|] == Content(s.host.responseBuffer)[e..i] + chunk
    ensures FaithInv(WriteResponseChunk(s, chunk, env).s)
  {
    hide HandleInterruption, ApplyFailurePolicy;
    var t := s.tx.value.trace;
    var c := WriteResponseBody(chunk, env.write);
    assert EntryIndex(Then(t, c)) == EntryIndex(t);
    match env.write
    case WriteError => OutcomeKeepsFaith(Record(s, c), ResponseBodyPhase, Interruption(0, 0), env);
    case WriteStop(it) => StoppedIsFaithful(Record(s, c).(bodyReadIndex := s.bodyReadIndex + |chunk|), it, env);
    case Wrote(n) =>
      if n >= |chunk| {
        var s' := Record(s, c).(bodyReadIndex := s.bodyReadIndex + |chunk|);
        assert FaithInv(s');
        assert WriteResponseChunk(s, chunk, env) == Proceed(s');
      }
  }

  lemma ReadContinuesResponse(octets: seq<Octet>, entry: nat, index: nat, size: nat, atMost: nat)
    requires entry <= index
    ensures var chunk := Content(ReadBuffer(octets, index, size, atMost));
            chunk != [] ==>
              index + |chunk| <= |octets| &&
              Content(octets)[entry..index + |chunk|] == Content(octets)[entry..index] + chunk
  {
    if index <= |octets| {
      ContentOfRead(octets, index, size, atMost);
      ReadExtendsSlice(Content(octets), entry, index, size, atMost);
    }
  }

  lemma NextChunkKeepsFaith(s: Stream, size: nat, atMost: nat, env: Answers)
    requires s.tx.Some? && FaithInv(s) && s.processedRequestBody && s.interruptedAt == NoPhase && !s.processedResponseBody
    ensures FaithInv(WriteResponseChunk(s, Content(ReadBuffer(s.host.responseBuffer, s.bodyReadIndex, size, atMost)), env).s)
  {
    ReadContinuesResponse(s.host.responseBuffer, EntryIndex(s.tx.value.trace), s.bodyReadIndex, size, atMost);
    WriteResponseChunkKeepsFaith(s, Content(ReadBuffer(s.host.responseBuffer, s.bodyReadIndex, size, atMost)), env);
  }

  lemma FeedResponseBodyKeepsFaith(s: Stream, bodySize: nat, env: Answers)
    requires s.tx.Some? && FaithInv(s) && s.processedRequestBody && s.interruptedAt == NoPhase && !s.processedResponseBody
    ensures FaithInv(FeedResponseBody(s, bodySize, env).s)
  {
    hide ApplyFailurePolicy, WriteResponseChunk;
    if bodySize > s.bodyReadIndex && env.read.Some? {
      var size := bodySize - s.bodyReadIndex;
      NextChunkKeepsFaith(s, size, env.read.value, env);
      var chunk := Content(ReadBuffer(s.host.responseBuffer, s.bodyReadIndex, size, env.read.value));
      assert FeedResponseBody(s, bodySize, env) == WriteResponseChunk(s, chunk, env);
    } else if bodySize > s.bodyReadIndex {
      OutcomeKeepsFaith(s, ResponseBodyPhase, Interruption(0, 0), env);
      assert FeedResponseBody(s, bodySize, env).s == ApplyFailurePolicy(s, env).0;
    } else {
      assert FeedResponseBody(s, bodySize, env).s == s;
    }
  }

  /** Once both directions are closed there is nothing left to claim. */
  lemma StoppedIsFaithful(s: Stream, it: Interruption, env: Answers)
    requires s.tx.Some? && s.processedRequestBody && s.interruptedAt == NoPhase
    ensures FaithInv(HandleInterruption(s, ResponseBodyPhase, it, env).0)
  {}

  lemma SkipInspectionKeepsFaith(s: Stream, bodySize: nat, env: Answers)
    requires s.tx.Some? && FaithInv(s) && s.processedRequestBody && s.interruptedAt == NoPhase && !s.processedResponseBody
    ensures FaithInv(SkipResponseInspection(s, bodySize, env).0)
  {
    hide HandleInterruption, ApplyFailurePolicy;
    var s' := Record(s, ProcessResponseBody(env.body));
    OtherCallKeepsFaith(s, ProcessResponseBody(env.body));
    match env.body
    case EngineError => OutcomeKeepsFaith(s', ResponseBodyPhase, Interruption(0, 0), env);
    case Stop(it) => StoppedIsFaithful(s'.(processedResponseBody := true, bodyReadIndex := bodySize), it, env);
    case Clean =>
  }

  lemma RunResponseBodyKeepsFaith(s: Stream, env: Answers)
    requires s.tx.Some? && s.processedRequestBody && s.interruptedAt == NoPhase
    ensures FaithInv(RunResponseBody(s, env).0)
  {
    hide HandleInterruption, ApplyFailurePolicy;
    var s' := Record(s.(processedResponseBody := true), ProcessResponseBody(env.body));
    match env.body
    case EngineError => OutcomeKeepsFaith(s', ResponseBodyPhase, Interruption(0, 0), env);
    case Stop(it) => StoppedIsFaithful(s', it, env);
    case Clean =>
  }

  lemma ResponseBodyKeepsFaith(s: Stream, bodySize: nat, end: bool, env: Answers)
    requires FlowInv(s) && FaithInv(s) && s.host.responseHeadersSeen && !s.host.done && s.panic.None?
    ensures FaithInv(OnHttpResponseBody(s, bodySize, end, env).0)
  {
    hide FeedResponseBody, RunResponseBody, SkipResponseInspection;
    if s.interruptedAt == NoPhase && !s.processedResponseBody && s.tx.Some? {
      var s := SeeEngine(s, env);
      assert FaithInv(s) && FlowInv(s);
      if !s.tx.value.off {
        if !env.bodyAccess || !env.bodyProcessable {
          SkipInspectionKeepsFaith(s, bodySize, env);
        } else {
          FeedResponseBodyKeepsFaith(s, bodySize, env);
          FeedResponseBodyKeepsFlow(s, bodySize, env);
          match FeedResponseBody(s, bodySize, env)
          case Leave(_, _) =>
          case Proceed(s) =>
            if end {
              RunResponseBodyKeepsFaith(s, env);
            }
        }
      }
    }
  }

  lemma RequestHeadersKeepFaith(s: Stream, env: Answers)
    requires FaithInv(s) && s.tx.None? && s.bodyReadIndex == 0 && s.interruptedAt == NoPhase
    ensures FaithInv(OnHttpRequestHeaders(s, env).0)
  {
    hide HandleInterruption, ApplyFailurePolicy;
    var s := s.(metered := s.metered + [TransactionCounted]);
    OutcomeKeepsFaith(s, RequestHeadersPhase, Interruption(0, 0), env);
    if env.authority.Some? && GetWAFOrDefault(s.wafs, env.authority.value).Resolved? {
      var r := GetWAFOrDefault(s.wafs, env.authority.value);
      var s := s.(tx := Some(Tx(r.waf, env.engineOff, Empty)),
                  labels := if r.isDefault then s.labels else s.labels.(authority := env.authority));
      OutcomeKeepsFaith(s, RequestHeadersPhase, Interruption(0, 0), env);
      OtherCallKeepsFaith(s, ProcessRequestHeaders(env.headersVerdict));
      var s' := Record(s, ProcessRequestHeaders(env.headersVerdict));
      if env.headersVerdict.Some? {
        OutcomeKeepsFaith(s', RequestHeadersPhase, env.headersVerdict.value, env);
      }
    }
  }

  lemma RunResponseHeadersKeepsFaith(s: Stream, env: Answers)
    requires s.tx.Some? && FaithInv(s) && s.interruptedAt == NoPhase
    ensures FaithInv(RunResponseHeaders(s, env).0)
  {
    hide HandleInterruption, ApplyFailurePolicy;
    OtherCallKeepsFaith(s, ProcessResponseHeaders(env.headersVerdict));
    if !env.headers {
      OutcomeKeepsFaith(s, ResponseHeadersPhase, Interruption(0, 0), env);
    } else if env.headersVerdict.Some? {
      OutcomeKeepsFaith(Record(s, ProcessResponseHeaders(env.headersVerdict)), ResponseHeadersPhase, env.headersVerdict.value, env);
    }
  }

  lemma ResponseHeadersKeepFaith(s: Stream, env: Answers)
    requires FlowInv(s) && FaithInv(s) && !s.host.responseHeadersSeen && !s.host.done && s.panic.None?
    ensures FaithInv(OnHttpResponseHeaders(s.(host := s.host.(responseHeadersSeen := true)), env).0)
  {
    hide HandleInterruption, ApplyFailurePolicy, RunResponseHeaders;
    if s.interruptedAt == NoPhase && s.tx.Some? {
      var s0 := SeeEngine(s, env);
      var s1 := SeeEngine(s.(host := s.host.(responseHeadersSeen := true)), env);
      assert FaithInv(s1);
      if !s1.tx.value.off {
        if s1.processedRequestBody {
          RunResponseHeadersKeepsFaith(s1, env);
        } else {
          EarlyTrace(s.tx.value.trace);
          var c := ProcessRequestBody(BeforeResponse, env.body);
          assert EndSeen(Then(s.tx.value.trace, c)) == EndSeen(s.tx.value.trace);
          var s2 := Record(s1.(processedRequestBody := true), c);
          assert FaithInv(s2);
          match env.body
          case EngineError => OutcomeKeepsFaith(s2, ResponseHeadersPhase, Interruption(0, 0), env);
          case Stop(it) => OutcomeKeepsFaith(s2, ResponseHeadersPhase, it, env);
          case Clean => RunResponseHeadersKeepsFaith(s2, env);
        }
      }
    }
  }

  lemma DoneKeepsFaith(s: Stream, env: Answers)
    requires FaithInv(s)
    ensures FaithInv(OnHttpStreamDone(s, env))
  {
    if s.tx.Some? {
      var s1 := SeeEngine(s, env);
      OtherCallKeepsFaith(s1, ProcessResponseBody(env.body));
      var s2 :=
        if !s1.tx.value.off && s.interruptedAt == NoPhase && !s.processedResponseBody
        then Record(s1.(processedResponseBody := true), ProcessResponseBody(env.body))
        else s1;
      assert FaithInv(s2);
      OtherCallKeepsFaith(s2, ProcessLogging);
      OtherCallKeepsFaith(Record(s2, ProcessLogging), CloseTransaction);
    }
  }
}
