/**
 What each callback does, as a table over the answers it meets: how it ends, which calls it makes, and where it
 leaves the flags and the read index.
 */
module HttpCallbacks {
  import opened Prelude
  import opened Wafs
  import opened HttpStream
  import opened HttpFeeding
  import opened HttpGuarantees

  /** The ways a callback ends. */
  datatype Ending = GoesOn | Waits | Fails | Stops(phase: Phase, it: Interruption)

  function ByVerdict(v: Verdict, phase: Phase): Ending {
    match v
    case Clean => GoesOn
    case EngineError => Fails
    case Stop(it) => Stops(phase, it)
  }

  predicate SameAnswer(s: Stream, r: Stream) {
    r.host == s.host && r.interruptedAt == s.interruptedAt && r.metered == s.metered && r.panic == s.panic
  }

  /** A failure: one error is logged; "allow" continues, and any other policy pauses and sends 403. */
  predicate HasFailed(s: Stream, r: (Stream, Action), env: Answers) {
    && r.1 == (if s.failurePolicy == Allow then Continue else Pause)
    && r.0.host == s.host.(errors := s.host.errors + 1,
                           refusals := s.host.refusals + if s.failurePolicy != Allow && env.sendOk then [403] else [])
    && r.0.interruptedAt == s.interruptedAt && r.0.metered == s.metered && r.0.panic == s.panic
  }

  /**
   An interruption is counted and answered: before the response body by a local response with the rule's status,
   or 403 if it asks for none, and from then on by null bytes.
   */
  predicate HasStopped(s: Stream, r: (Stream, Action), phase: Phase, it: Interruption, env: Answers) {
    && r.0.interruptedAt == phase && r.0.metered == s.metered + [InterruptionCounted(phase, it.ruleID, r.0.labels)]
    && if phase == ResponseBodyPhase then
         && r.1 == Continue && r.0.panic == s.panic
         && r.0.host == if env.replaceOk then s.host.(responseBuffer := Nulls(r.0.bodyReadIndex))
                        else s.host.(errors := s.host.errors + 1)
       else
         && r.1 == Pause
         && if !env.sendOk then r.0.host == s.host && r.0.panic == Some(SendFailed)
            else
              && r.0.panic == s.panic
              && r.0.host == s.host.(denials := s.host.denials + [if it.status == 0 then 403 else it.status % 0x1_0000_0000])
  }

  predicate Ended(s: Stream, r: (Stream, Action), e: Ending, env: Answers) {
    match e
    case GoesOn => r.1 == Continue && SameAnswer(s, r.0)
    case Waits => r.1 == Pause && SameAnswer(s, r.0)
    case Fails => HasFailed(s, r, env)
    case Stops(phase, it) => HasStopped(s, r, phase, it, env)
  }

  function CallsOf(s: Stream): seq<Call> {
    if s.tx.None? then [] else Calls(s.tx.value.trace)
  }

  /** What stays as it was in every callback of a stream with a transaction. */
  predicate SameStream(s: Stream, r: Stream, env: Answers)
    requires s.tx.Some?
  {
    && r.tx.Some? && r.tx.value.waf == s.tx.value.waf && r.tx.value.off == (s.tx.value.off || env.engineOff)
    && r.wafs == s.wafs && r.failurePolicy == s.failurePolicy && r.labels == s.labels
  }

  lemma FailureEnds(s: Stream, env: Answers)
    ensures var r := ApplyFailurePolicy(s, env); Ended(s, r, Fails, env) && r.0 == s.(host := r.0.host)
  {}

  lemma StopEnds(s: Stream, phase: Phase, it: Interruption, env: Answers)
    requires s.interruptedAt == NoPhase
    ensures var r := HandleInterruption(s, phase, it, env);
            && Ended(s, r, Stops(phase, it), env)
            && r.0 == s.(host := r.0.host, interruptedAt := phase, metered := r.0.metered, panic := r.0.panic)
  {}

  // ---- the request's headers ----

  predicate HasEngine(s: Stream, env: Answers) {
    env.authority.Some? && GetWAFOrDefault(s.wafs, env.authority.value).Resolved?
  }

  function RequestHeadersEnding(s: Stream, env: Answers): Ending {
    if !HasEngine(s, env) then Fails
    else if env.engineOff then GoesOn
    else if !env.requestLine || !env.headers then Fails
    else if env.headersVerdict.Some? then Stops(RequestHeadersPhase, env.headersVerdict.value)
    else GoesOn
  }

  /** The engine is asked about the headers of every request it is on for and that can be read. */
  lemma RequestHeadersDo(s: Stream, env: Answers)
    requires s.tx.None? && s.interruptedAt == NoPhase
    ensures var r := OnHttpRequestHeaders(s, env);
            && Ended(s.(metered := s.metered + [TransactionCounted]), r, RequestHeadersEnding(s, env), env)
            && (r.0.tx.Some? <==> HasEngine(s, env))
            && (r.0.tx.Some? ==> r.0.tx.value.off == env.engineOff)
            && CallsOf(r.0) ==
                 (if HasEngine(s, env) && !env.engineOff && env.requestLine && env.headers
                  then [ProcessRequestHeaders(env.headersVerdict)] else [])
            && r.0.processedRequestBody == s.processedRequestBody && r.0.processedResponseBody == s.processedResponseBody
            && r.0.bodyReadIndex == s.bodyReadIndex && r.0.failurePolicy == s.failurePolicy && r.0.wafs == s.wafs
  {
    hide ApplyFailurePolicy, HandleInterruption, Ended;
    var s1 := s.(metered := s.metered + [TransactionCounted]);
    FailureEnds(s1, env);
    if HasEngine(s, env) {
      var w := GetWAFOrDefault(s.wafs, env.authority.value);
      var s2 := s1.(tx := Some(Tx(w.waf, env.engineOff, Empty)),
                    labels := if w.isDefault then s.labels else s.labels.(authority := env.authority));
      HeadersOfEngine(s1, s2, env);
      assert OnHttpRequestHeaders(s, env) == RunRequestHeaders(s2, env);
    }
  }

  /** The same from the moment the engine is known. */
  lemma HeadersOfEngine(s1: Stream, s2: Stream, env: Answers)
    requires s1.interruptedAt == NoPhase && s2.tx.Some? && s2.tx.value.trace == Empty
    requires s2 == s1.(tx := s2.tx, labels := s2.labels)
    ensures var r := RunRequestHeaders(s2, env);
            && Ended(s1, r, if s2.tx.value.off then GoesOn else if !env.requestLine || !env.headers then Fails
                            else if env.headersVerdict.Some? then Stops(RequestHeadersPhase, env.headersVerdict.value) else GoesOn, env)
            && r.0.tx.Some? && r.0.tx.value.off == s2.tx.value.off
            && Calls(r.0.tx.value.trace) ==
                 (if !s2.tx.value.off && env.requestLine && env.headers then [ProcessRequestHeaders(env.headersVerdict)] else [])
            && r.0.processedRequestBody == s2.processedRequestBody && r.0.processedResponseBody == s2.processedResponseBody
            && r.0.bodyReadIndex == s2.bodyReadIndex && r.0.failurePolicy == s2.failurePolicy && r.0.wafs == s2.wafs
  {
    hide ApplyFailurePolicy, HandleInterruption;
    FailureEnds(s2, env);
    if env.headersVerdict.Some? {
      StopEnds(Record(s2, ProcessRequestHeaders(env.headersVerdict)), RequestHeadersPhase, env.headersVerdict.value, env);
    }
  }

  // ---- the request's body ----

  /** The engine is asked about the body. */
  predicate AsksRequest(s: Stream, env: Answers)
    requires s.tx.Some?
  {
    !s.processedRequestBody && !s.tx.value.off && !env.engineOff
  }

  /** A chunk of the request is handed to the engine. */
  predicate WritesRequest(s: Stream, size: nat, env: Answers)
    requires s.tx.Some?
  {
    AsksRequest(s, env) && env.bodyAccess && size > s.bodyReadIndex && env.read.Some?
  }

  predicate Accepts(chunk: seq<Byte>, env: Answers) {
    env.write.Wrote? && env.write.n >= |chunk|
  }

  predicate ReachesLimit(chunk: seq<Byte>, env: Answers) {
    env.write.Wrote? && env.write.n < |chunk|
  }

  /** The phase is run because of the end of the stream. */
  predicate EndsRequest(s: Stream, size: nat, end: bool, env: Answers)
    requires s.tx.Some?
  {
    && AsksRequest(s, env) && env.bodyAccess && end
    && (size > s.bodyReadIndex ==> env.read.Some? && Accepts(RequestChunk(s, size, env), env))
  }

  function RequestBodyEnding(s: Stream, size: nat, end: bool, env: Answers): Ending
    requires s.tx.Some?
  {
    if !AsksRequest(s, env) then GoesOn
    else if !env.bodyAccess || EndsRequest(s, size, end, env) then ByVerdict(env.body, RequestBodyPhase)
    else if size <= s.bodyReadIndex then Waits
    else if env.read.None? || env.write.WriteError? then Fails
    else if env.write.WriteStop? then Stops(RequestBodyPhase, env.write.it)
    else if ReachesLimit(RequestChunk(s, size, env), env) then GoesOn
    else Waits
  }

  function RequestBodyCalls(s: Stream, size: nat, end: bool, env: Answers): seq<Call>
    requires s.tx.Some?
  {
    (if WritesRequest(s, size, env) then [WriteRequestBody(RequestChunk(s, size, env), env.write)] else [])
    + (if AsksRequest(s, env) && !env.bodyAccess then [ProcessRequestBody(NoBodyAccess, env.body)]
       else if EndsRequest(s, size, end, env) then [ProcessRequestBody(EndOfStream, env.body)]
       else [])
  }

  predicate RequestBodyLeaves(s: Stream, r: Stream, size: nat, end: bool, env: Answers)
    requires s.tx.Some?
  {
    var chunk := RequestChunk(s, size, env);
    && (r.processedRequestBody <==>
          || s.processedRequestBody || (AsksRequest(s, env) && !env.bodyAccess) || EndsRequest(s, size, end, env)
          || (WritesRequest(s, size, env) && ReachesLimit(chunk, env)))
    && r.processedResponseBody == s.processedResponseBody
    && r.bodyReadIndex == (if EndsRequest(s, size, end, env) then 0
                           else if WritesRequest(s, size, env) && Accepts(chunk, env) then s.bodyReadIndex + |chunk|
                           else s.bodyReadIndex)
  }

  /** What RunRequestBody comes to. */
  lemma RequestPhaseDoes(s: Stream, site: Site, phase: Phase, env: Answers)
    requires s.tx.Some? && s.interruptedAt == NoPhase
    ensures var r := RunRequestBody(s, site, phase, env);
            && Ended(s, r, ByVerdict(env.body, phase), env)
            && r.0 == Record(s.(processedRequestBody := true), ProcessRequestBody(site, env.body))
                      .(host := r.0.host, interruptedAt := r.0.interruptedAt, metered := r.0.metered, panic := r.0.panic)
  {
    hide ApplyFailurePolicy, HandleInterruption;
    var s1 := Record(s.(processedRequestBody := true), ProcessRequestBody(site, env.body));
    FailureEnds(s1, env);
    if env.body.Stop? {
      StopEnds(s1, phase, env.body.it, env);
    }
  }

  function ChunkEnding(chunk: seq<Byte>, env: Answers, phase: Phase): Ending {
    match env.write
    case WriteError => Fails
    case WriteStop(it) => Stops(phase, it)
    case Wrote(n) => GoesOn
  }

  lemma RequestChunkDoes(s: Stream, chunk: seq<Byte>, env: Answers)
    requires s.tx.Some? && s.interruptedAt == NoPhase
    ensures var f := WriteRequestChunk(s, chunk, env);
            && (f.Proceed? <==> Accepts(chunk, env))
            && (f.Leave? ==> Ended(s, (f.s, f.action), ChunkEnding(chunk, env, RequestBodyPhase), env))
            && f.s == Record(s, WriteRequestBody(chunk, env.write))
                      .(host := if f.Proceed? then s.host else f.s.host, interruptedAt := if f.Proceed? then NoPhase else f.s.interruptedAt,
                        metered := if f.Proceed? then s.metered else f.s.metered, panic := if f.Proceed? then s.panic else f.s.panic,
                        processedRequestBody := s.processedRequestBody || ReachesLimit(chunk, env),
                        bodyReadIndex := s.bodyReadIndex + if Accepts(chunk, env) then |chunk| else 0)
  {
    hide ApplyFailurePolicy, HandleInterruption;
    var s1 := Record(s, WriteRequestBody(chunk, env.write));
    FailureEnds(s1, env);
    if env.write.WriteStop? {
      StopEnds(s1, RequestBodyPhase, env.write.it, env);
    }
  }

  lemma RequestBodyDoes(s: Stream, size: nat, end: bool, env: Answers)
    requires s.tx.Some? && s.interruptedAt == NoPhase
    ensures var r := OnHttpRequestBody(s, size, end, env);
            && Ended(s, r, RequestBodyEnding(s, size, end, env), env)
            && CallsOf(r.0) == CallsOf(s) + RequestBodyCalls(s, size, end, env)
            && RequestBodyLeaves(s, r.0, size, end, env)
            && (AsksRequest(s, env) ==> SameStream(s, r.0, env))
  {
    hide RunRequestBody, WriteRequestChunk, ApplyFailurePolicy, Ended;
    var r := OnHttpRequestBody(s, size, end, env);
    if AsksRequest(s, env) {
      var s1 := SeeEngine(s, env);
      if !env.bodyAccess {
        RequestPhaseDoes(s1, NoBodyAccess, RequestBodyPhase, env);
        EndedFrom(s, s1, r, ByVerdict(env.body, RequestBodyPhase), env);
      } else if size <= s.bodyReadIndex {
        if end {
          var s2 := s1.(bodyReadIndex := 0);
          RequestPhaseDoes(s2, EndOfStream, RequestBodyPhase, env);
          EndedFrom(s, s2, r, ByVerdict(env.body, RequestBodyPhase), env);
        } else {
          assert r == (s1, Pause);
          Quietly(s, r, Waits, env);
        }
      } else if env.read.None? {
        FailureEnds(s1, env);
        EndedFrom(s, s1, r, Fails, env);
      } else {
        RequestWriteDoes(s, size, end, env);
      }
    } else {
      Quietly(s, r, GoesOn, env);
    }
  }

  /** An ending does not depend on the flags, the index or the trace. */
  lemma EndedFrom(s: Stream, s1: Stream, r: (Stream, Action), e: Ending, env: Answers)
    requires s1 == s.(tx := s1.tx, processedRequestBody := s1.processedRequestBody, processedResponseBody := s1.processedResponseBody,
                      bodyReadIndex := s1.bodyReadIndex)
    requires Ended(s1, r, e, env)
    ensures Ended(s, r, e, env)
  {}

  lemma Quietly(s: Stream, r: (Stream, Action), e: Ending, env: Answers)
    requires (e.GoesOn? && r.1.Continue?) || (e.Waits? && r.1.Pause?)
    requires SameAnswer(s, r.0)
    ensures Ended(s, r, e, env)
  {}

  lemma RequestWriteDoes(s: Stream, size: nat, end: bool, env: Answers)
    requires s.tx.Some? && s.interruptedAt == NoPhase && WritesRequest(s, size, env)
    ensures var r := OnHttpRequestBody(s, size, end, env);
            && Ended(s, r, RequestBodyEnding(s, size, end, env), env)
            && CallsOf(r.0) == CallsOf(s) + RequestBodyCalls(s, size, end, env)
            && RequestBodyLeaves(s, r.0, size, end, env) && SameStream(s, r.0, env)
  {
    hide RunRequestBody, WriteRequestChunk, ApplyFailurePolicy, Ended;
    var r := OnHttpRequestBody(s, size, end, env);
    var s1, chunk := SeeEngine(s, env), RequestChunk(s, size, env);
    RequestChunkDoes(s1, chunk, env);
    var f := WriteRequestChunk(s1, chunk, env);
    assert FeedRequestBody(s1, size, env) == f;
    var w := WriteRequestBody(chunk, env.write);
    assert [w] + [] == [w] && CallsOf(f.s) == CallsOf(s) + [w];
    if f.Leave? {
      assert r == (f.s, f.action);
      EndedFrom(s, s1, r, ChunkEnding(chunk, env, RequestBodyPhase), env);
    } else if end {
      var s2 := f.s.(bodyReadIndex := 0);
      RequestPhaseDoes(s2, EndOfStream, RequestBodyPhase, env);
      assert r == RunRequestBody(s2, EndOfStream, RequestBodyPhase, env);
      EndedFrom(s, s2, r, ByVerdict(env.body, RequestBodyPhase), env);
      assert CallsOf(r.0) == CallsOf(f.s) + [ProcessRequestBody(EndOfStream, env.body)];
    } else {
      assert r == (f.s, Pause);
      Quietly(s, r, Waits, env);
    }
  }

  // ---- the response's headers ----

  predicate AsksResponseHeaders(s: Stream, env: Answers)
    requires s.tx.Some?
  {
    !s.tx.value.off && !env.engineOff
  }

  /** The request-body phase is made up for, and lets the response's headers be looked at. */
  predicate ReachesResponse(s: Stream, env: Answers)
    requires s.tx.Some?
  {
    AsksResponseHeaders(s, env) && (s.processedRequestBody || env.body.Clean?)
  }

  function ResponseHeadersEnding(s: Stream, env: Answers): Ending
    requires s.tx.Some?
  {
    if !AsksResponseHeaders(s, env) then GoesOn
    else if !ReachesResponse(s, env) then ByVerdict(env.body, ResponseHeadersPhase)
    else if !env.headers then Fails
    else if env.headersVerdict.Some? then Stops(ResponseHeadersPhase, env.headersVerdict.value)
    else GoesOn
  }

  function ResponseHeadersCalls(s: Stream, env: Answers): seq<Call>
    requires s.tx.Some?
  {
    (if AsksResponseHeaders(s, env) && !s.processedRequestBody then [ProcessRequestBody(BeforeResponse, env.body)] else [])
    + (if ReachesResponse(s, env) && env.headers then [ProcessResponseHeaders(env.headersVerdict)] else [])
  }

  lemma HeadersPhaseDoes(s: Stream, env: Answers)
    requires s.tx.Some? && s.interruptedAt == NoPhase
    ensures var r := RunResponseHeaders(s, env);
            && Ended(s, r, if !env.headers then Fails
                           else if env.headersVerdict.Some? then Stops(ResponseHeadersPhase, env.headersVerdict.value) else GoesOn, env)
            && CallsOf(r.0) == CallsOf(s) + (if env.headers then [ProcessResponseHeaders(env.headersVerdict)] else [])
            && r.0 == s.(tx := r.0.tx, host := r.0.host, interruptedAt := r.0.interruptedAt, metered := r.0.metered, panic := r.0.panic)
            && SameStream(s, r.0, env.(engineOff := false))
  {
    hide ApplyFailurePolicy, HandleInterruption;
    FailureEnds(s, env);
    if env.headersVerdict.Some? {
      StopEnds(Record(s, ProcessResponseHeaders(env.headersVerdict)), ResponseHeadersPhase, env.headersVerdict.value, env);
    }
  }

  lemma ResponseHeadersDo(s: Stream, env: Answers)
    requires s.tx.Some? && s.interruptedAt == NoPhase
    ensures var r := OnHttpResponseHeaders(s, env);
            && Ended(s, r, ResponseHeadersEnding(s, env), env)
            && CallsOf(r.0) == CallsOf(s) + ResponseHeadersCalls(s, env)
            && (r.0.processedRequestBody <==> s.processedRequestBody || AsksResponseHeaders(s, env))
            && r.0.processedResponseBody == s.processedResponseBody && r.0.bodyReadIndex == s.bodyReadIndex
            && SameStream(s, r.0, env)
  {
    hide RunRequestBody, RunResponseHeaders, ApplyFailurePolicy, Ended;
    var r, s1 := OnHttpResponseHeaders(s, env), SeeEngine(s, env);
    if s1.tx.value.off {
      Quietly(s, r, GoesOn, env);
    } else if s.processedRequestBody {
      HeadersPhaseDoes(s1, env);
      EndedFrom(s, s1, r, ResponseHeadersEnding(s, env), env);
    } else {
      RequestPhaseDoes(s1, BeforeResponse, ResponseHeadersPhase, env);
      var m := RunRequestBody(s1, BeforeResponse, ResponseHeadersPhase, env);
      var p := ProcessRequestBody(BeforeResponse, env.body);
      assert CallsOf(m.0) == CallsOf(s) + [p] && [p] + [] == [p];
      if env.body.Clean? {
        CleanPhase(s1, m, env);
        HeadersPhaseDoes(m.0, env);
        EndedFrom(s, m.0, r, ResponseHeadersEnding(s, env), env);
      } else {
        EndedFrom(s, s1, r, ResponseHeadersEnding(s, env), env);
      }
    }
  }

  lemma CleanPhase(s: Stream, m: (Stream, Action), env: Answers)
    requires s.tx.Some? && s.interruptedAt == NoPhase && env.body.Clean?
    requires m == RunRequestBody(s, BeforeResponse, ResponseHeadersPhase, env)
    ensures m.0 == Record(s.(processedRequestBody := true), ProcessRequestBody(BeforeResponse, env.body))
  {}

  // ---- the response's body ----

  predicate AsksResponse(s: Stream, env: Answers)
    requires s.tx.Some?
  {
    !s.processedResponseBody && !s.tx.value.off && !env.engineOff
  }

  predicate Inspectable(env: Answers) {
    env.bodyAccess && env.bodyProcessable
  }

  predicate WritesResponse(s: Stream, size: nat, env: Answers)
    requires s.tx.Some?
  {
    AsksResponse(s, env) && Inspectable(env) && size > s.bodyReadIndex && env.read.Some?
  }

  predicate EndsResponse(s: Stream, size: nat, end: bool, env: Answers)
    requires s.tx.Some?
  {
    && AsksResponse(s, env) && Inspectable(env) && end
    && (size > s.bodyReadIndex ==> env.read.Some? && Accepts(ResponseChunk(s, size, env), env))
  }

  function ResponseBodyEnding(s: Stream, size: nat, end: bool, env: Answers): Ending
    requires s.tx.Some?
  {
    if !AsksResponse(s, env) then GoesOn
    else if !Inspectable(env) || EndsResponse(s, size, end, env) then ByVerdict(env.body, ResponseBodyPhase)
    else if size <= s.bodyReadIndex then Waits
    else if env.read.None? || env.write.WriteError? then Fails
    else if env.write.WriteStop? then Stops(ResponseBodyPhase, env.write.it)
    else if ReachesLimit(ResponseChunk(s, size, env), env) then GoesOn
    else Waits
  }

  function ResponseBodyCalls(s: Stream, size: nat, end: bool, env: Answers): seq<Call>
    requires s.tx.Some?
  {
    (if WritesResponse(s, size, env) then [WriteResponseBody(ResponseChunk(s, size, env), env.write)] else [])
    + (if (AsksResponse(s, env) && !Inspectable(env)) || EndsResponse(s, size, end, env) then [ProcessResponseBody(env.body)] else [])
  }

  /**
   The phase that is run without inspection counts as done unless the engine failed. The index moves over every
   chunk the engine was given without an error; an interruption without inspection sets it to the whole size.
   */
  predicate ResponseBodyLeaves(s: Stream, r: Stream, size: nat, end: bool, env: Answers)
    requires s.tx.Some?
  {
    var chunk := ResponseChunk(s, size, env);
    && r.processedRequestBody == s.processedRequestBody
    && (r.processedResponseBody <==>
          || s.processedResponseBody || (AsksResponse(s, env) && !Inspectable(env) && !env.body.EngineError?)
          || EndsResponse(s, size, end, env) || (WritesResponse(s, size, env) && ReachesLimit(chunk, env)))
    && r.bodyReadIndex == (if AsksResponse(s, env) && !Inspectable(env) && env.body.Stop? then size
                           else if WritesResponse(s, size, env) && !env.write.WriteError? then s.bodyReadIndex + |chunk|
                           else s.bodyReadIndex)
  }

  lemma ResponsePhaseDoes(s: Stream, env: Answers)
    requires s.tx.Some? && s.interruptedAt == NoPhase
    ensures var r := RunResponseBody(s, env);
            && Ended(s, r, ByVerdict(env.body, ResponseBodyPhase), env)
            && r.0 == Record(s.(processedResponseBody := true), ProcessResponseBody(env.body))
                      .(host := r.0.host, interruptedAt := r.0.interruptedAt, metered := r.0.metered, panic := r.0.panic)
  {
    hide ApplyFailurePolicy, HandleInterruption;
    var s1 := Record(s.(processedResponseBody := true), ProcessResponseBody(env.body));
    FailureEnds(s1, env);
    if env.body.Stop? {
      StopEnds(s1, ResponseBodyPhase, env.body.it, env);
    }
  }

  lemma SkippedPhaseDoes(s: Stream, size: nat, env: Answers)
    requires s.tx.Some? && s.interruptedAt == NoPhase
    ensures var r := SkipResponseInspection(s, size, env);
            && Ended(s, r, ByVerdict(env.body, ResponseBodyPhase), env)
            && r.0 == Record(s, ProcessResponseBody(env.body))
                      .(processedResponseBody := s.processedResponseBody || !env.body.EngineError?,
                        bodyReadIndex := if env.body.Stop? then size else s.bodyReadIndex,
                        host := r.0.host, interruptedAt := r.0.interruptedAt, metered := r.0.metered, panic := r.0.panic)
  {
    hide ApplyFailurePolicy, HandleInterruption;
    var s1 := Record(s, ProcessResponseBody(env.body));
    FailureEnds(s1, env);
    if env.body.Stop? {
      StopEnds(s1.(processedResponseBody := true, bodyReadIndex := size), ResponseBodyPhase, env.body.it, env);
    }
  }

  lemma ResponseChunkDoes(s: Stream, chunk: seq<Byte>, env: Answers)
    requires s.tx.Some? && s.interruptedAt == NoPhase
    ensures var f := WriteResponseChunk(s, chunk, env);
            && (f.Proceed? <==> Accepts(chunk, env))
            && (f.Leave? ==> Ended(s, (f.s, f.action), ChunkEnding(chunk, env, ResponseBodyPhase), env))
            && f.s == Record(s, WriteResponseBody(chunk, env.write))
                      .(host := if f.Proceed? then s.host else f.s.host, interruptedAt := if f.Proceed? then NoPhase else f.s.interruptedAt,
                        metered := if f.Proceed? then s.metered else f.s.metered, panic := if f.Proceed? then s.panic else f.s.panic,
                        processedResponseBody := s.processedResponseBody || ReachesLimit(chunk, env),
                        bodyReadIndex := s.bodyReadIndex + if env.write.WriteError? then 0 else |chunk|)
  {
    hide ApplyFailurePolicy, HandleInterruption;
    var s1 := Record(s, WriteResponseBody(chunk, env.write));
    FailureEnds(s1, env);
    if env.write.WriteStop? {
      StopEnds(s1.(bodyReadIndex := s1.bodyReadIndex + |chunk|), ResponseBodyPhase, env.write.it, env);
    }
  }

  lemma ResponseBodyDoes(s: Stream, size: nat, end: bool, env: Answers)
    requires s.tx.Some? && s.interruptedAt == NoPhase
    ensures var r := OnHttpResponseBody(s, size, end, env);
            && Ended(s, r, ResponseBodyEnding(s, size, end, env), env)
            && CallsOf(r.0) == CallsOf(s) + ResponseBodyCalls(s, size, end, env)
            && ResponseBodyLeaves(s, r.0, size, end, env)
            && (AsksResponse(s, env) ==> SameStream(s, r.0, env))
  {
    hide RunResponseBody, WriteResponseChunk, SkipResponseInspection, ApplyFailurePolicy, Ended;
    var r := OnHttpResponseBody(s, size, end, env);
    if AsksResponse(s, env) {
      var s1 := SeeEngine(s, env);
      if !Inspectable(env) {
        SkippedPhaseDoes(s1, size, env);
        EndedFrom(s, s1, r, ByVerdict(env.body, ResponseBodyPhase), env);
      } else if size <= s.bodyReadIndex {
        if end {
          ResponsePhaseDoes(s1, env);
          EndedFrom(s, s1, r, ByVerdict(env.body, ResponseBodyPhase), env);
        } else {
          assert r == (s1, Pause);
          Quietly(s, r, Waits, env);
        }
      } else if env.read.None? {
        FailureEnds(s1, env);
        EndedFrom(s, s1, r, Fails, env);
      } else {
        ResponseWriteDoes(s, size, end, env);
      }
    } else {
      Quietly(s, r, GoesOn, env);
    }
  }

  lemma ResponseWriteDoes(s: Stream, size: nat, end: bool, env: Answers)
    requires s.tx.Some? && s.interruptedAt == NoPhase && WritesResponse(s, size, env)
    ensures var r := OnHttpResponseBody(s, size, end, env);
            && Ended(s, r, ResponseBodyEnding(s, size, end, env), env)
            && CallsOf(r.0) == CallsOf(s) + ResponseBodyCalls(s, size, end, env)
            && ResponseBodyLeaves(s, r.0, size, end, env) && SameStream(s, r.0, env)
  {
    hide RunResponseBody, WriteResponseChunk, ApplyFailurePolicy, Ended;
    var r := OnHttpResponseBody(s, size, end, env);
    var s1, chunk := SeeEngine(s, env), ResponseChunk(s, size, env);
    ResponseChunkDoes(s1, chunk, env);
    var f := WriteResponseChunk(s1, chunk, env);
    assert FeedResponseBody(s1, size, env) == f;
    var w := WriteResponseBody(chunk, env.write);
    assert [w] + [] == [w] && CallsOf(f.s) == CallsOf(s) + [w];
    if f.Leave? {
      assert r == (f.s, f.action);
      EndedFrom(s, s1, r, ChunkEnding(chunk, env, ResponseBodyPhase), env);
    } else if end {
      ResponsePhaseDoes(f.s, env);
      assert r == RunResponseBody(f.s, env);
      EndedFrom(s, f.s, r, ByVerdict(env.body, ResponseBodyPhase), env);
      assert CallsOf(r.0) == CallsOf(f.s) + [ProcessResponseBody(env.body)];
    } else {
      assert r == (f.s, Pause);
      Quietly(s, r, Waits, env);
    }
  }

  // ---- the end of the stream ----

  lemma DoneDoes(s: Stream, env: Answers)
    requires s.tx.Some?
    ensures var r := OnHttpStreamDone(s, env);
            && SameAnswer(s, r) && SameStream(s, r, env)
            && CallsOf(r) == CallsOf(s)
                 + (if AsksResponse(s, env) && s.interruptedAt == NoPhase then [ProcessResponseBody(env.body)] else [])
                 + [ProcessLogging, CloseTransaction]
  {
    var s1 := SeeEngine(s, env);
    var late := AsksResponse(s, env) && s.interruptedAt == NoPhase;
    var s2 := if late then Record(s1.(processedResponseBody := true), ProcessResponseBody(env.body)) else s1;
    assert OnHttpStreamDone(s, env) == Record(Record(s2, ProcessLogging), CloseTransaction);
    var before := CallsOf(s) + if late then [ProcessResponseBody(env.body)] else [];
    assert CallsOf(s2) == before;
    assert CallsOf(Record(s2, ProcessLogging)) == before + [ProcessLogging];
    assert before + [ProcessLogging] + [CloseTransaction] == before + [ProcessLogging, CloseTransaction];
  }

  // ---- streams that were interrupted before, or have no engine ----

  /**
   After an interruption nothing is asked any more: the request stays paused, the response's headers go on, as
   they carry the answer, and its body is replaced.
   */
  lemma InterruptedDo(s: Stream, size: nat, end: bool, env: Answers)
    requires s.tx.Some? && s.interruptedAt != NoPhase
    ensures OnHttpRequestBody(s, size, end, env) == (s, Pause)
    ensures OnHttpRequestTrailers(s, env) == (s, Pause)
    ensures OnHttpResponseHeaders(s, env) == (s, Continue)
    ensures var r := OnHttpResponseBody(s, size, end, env);
            && r.1 == Continue
            && r.0 == s.(host := if env.replaceOk then s.host.(responseBuffer := Nulls(size)) else s.host.(errors := s.host.errors + 1))
  {}

  /** Without an engine everything continues, except that trailers crash. */
  lemma WithoutEngineDo(s: Stream, size: nat, end: bool, env: Answers)
    requires s.tx.None? && s.interruptedAt == NoPhase
    ensures OnHttpRequestBody(s, size, end, env) == OnHttpResponseBody(s, size, end, env) == (s, Continue)
    ensures OnHttpResponseHeaders(s, env) == (s, Continue) && OnHttpStreamDone(s, env) == s
    ensures OnHttpRequestTrailers(s, env) == OnHttpResponseTrailers(s, env) == (s.(panic := Some(NilLogger)), Pause)
  {}

  // ---- when headers are held back ----

  /** The request's headers are paused exactly if they were interrupted, or a failure was not let through. */
  lemma RequestHeadersPause(s: Stream, env: Answers)
    requires s.tx.None? && s.interruptedAt == NoPhase
    ensures var r := OnHttpRequestHeaders(s, env);
            r.1 == Pause <==> r.0.interruptedAt != NoPhase || (r.0.host.errors > s.host.errors && s.failurePolicy != Allow)
  {
    RequestHeadersDo(s, env);
  }

  /** The same for the response's headers of a stream that was not interrupted before. */
  lemma ResponseHeadersPause(s: Stream, env: Answers)
    requires s.interruptedAt == NoPhase
    ensures var r := OnHttpResponseHeaders(s, env);
            r.1 == Pause <==> r.0.interruptedAt != NoPhase || (r.0.host.errors > s.host.errors && s.failurePolicy != Allow)
  {
    if s.tx.Some? {
      ResponseHeadersDo(s, env);
    } else {
      WithoutEngineDo(s, 0, false, env);
    }
  }
}
