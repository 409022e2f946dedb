/**
 Which bytes of a response reach the client without the engine ever having held them. The entry index may skip
 the beginning of a response, and an interruption may replace its rest; the results here are about streams that
 were not interrupted and whose errors were all blocked.
 */
module HttpUnseenBack {
  import opened Prelude
  import opened HttpStream
  import opened HttpBodies
  import opened HttpSafety
  import opened HttpRuns
  import opened HttpFeeding
  import opened HttpAlignment
  import opened HttpGuarantees
  import opened HttpUnseen

  predicate PassedByBack(s: Stream, env: Answers)
    requires s.tx.Some?
  {
    s.processedResponseBody || s.tx.value.off || env.engineOff
  }

  /** Part of what has arrived is not with the engine: before the entry index, or not handed over yet. */
  predicate HasUnreadBack(s: Stream, ev: Event) {
    var n := |s.host.responseArrived + NewDataBack(ev)|;
    n > 0 && (Entry(s) > 0 || |ShareBack(s)| < n)
  }

  /** As for requests; if the entry index skips a beginning, the end leaves that unread in any case. */
  predicate ChunkLeavesBack(policy: FailurePolicy, skipped: bool, left: int, end: bool, env: Answers) {
    if left <= 0 then end && Passes(env.body, policy)
    else if env.read.None? || env.write.WriteError? then policy == Allow
    else if env.write.WriteStop? then false
    else
      || env.write.n < Got(left, env.read.value)
      || (end && (skipped || env.read.value < left) && Passes(env.body, policy))
  }

  /** The event releases bytes of the response that the engine does not hold. */
  predicate LeavesUnreadBack(s: Stream, ev: Event) {
    && Enabled(s, ev) && IsResponseBody(ev) && s.interruptedAt == NoPhase && HasUnreadBack(s, ev)
    && if s.tx.None? then ev.ResponseData?
       else if PassedByBack(s, ev.env) then true
       else if !ev.env.bodyAccess || !ev.env.bodyProcessable || ev.ResponseTrailers? then Passes(ev.env.body, s.failurePolicy)
       else
         var left := |s.host.responseArrived + ev.data| - |ShareBack(s)| - Entry(s);
         ChunkLeavesBack(s.failurePolicy, Entry(s) > 0, left, ev.end, ev.env)
  }

  // ---- how a callback ends ----

  /** When a response-body callback that does not interrupt lets the body go. */
  predicate CallbackGoesBack(s: Stream, size: nat, end: bool, env: Answers)
    requires s.tx.Some?
  {
    if PassedByBack(s, env) then true
    else if !env.bodyAccess || !env.bodyProcessable then Passes(env.body, s.failurePolicy)
    else if size <= s.bodyReadIndex then end && Passes(env.body, s.failurePolicy)
    else if env.read.None? || env.write.WriteError? then s.failurePolicy == Allow
    else if env.write.WriteStop? then false
    else env.write.n < |ResponseChunk(s, size, env)| || (end && Passes(env.body, s.failurePolicy))
  }

  lemma OutcomesEndBack(s: Stream, it: Interruption, env: Answers)
    requires s.interruptedAt == NoPhase
    ensures ApplyFailurePolicy(s, env).1.Continue? <==> s.failurePolicy == Allow
    ensures HandleInterruption(s, ResponseBodyPhase, it, env).0.interruptedAt != NoPhase
  {}

  /** The outcome `goes` is told by the action, unless there was an interruption. */
  predicate EndsAs(r: (Stream, Action), goes: bool) {
    r.0.interruptedAt == NoPhase ==> (r.1.Continue? <==> goes)
  }

  lemma PhaseEndsBack(s: Stream, size: nat, env: Answers)
    requires s.tx.Some? && s.interruptedAt == NoPhase
    ensures EndsAs(RunResponseBody(s, env), Passes(env.body, s.failurePolicy))
    ensures EndsAs(SkipResponseInspection(s, size, env), Passes(env.body, s.failurePolicy))
  {
    hide ApplyFailurePolicy, HandleInterruption;
    var it := if env.body.Stop? then env.body.it else Interruption(0, 0);
    var s1 := Record(s, ProcessResponseBody(env.body));
    OutcomesEndBack(s1, it, env);
    OutcomesEndBack(s1.(processedResponseBody := true, bodyReadIndex := size), it, env);
    OutcomesEndBack(Record(s.(processedResponseBody := true), ProcessResponseBody(env.body)), it, env);
  }

  lemma ChunkEndsBack(s: Stream, chunk: seq<Byte>, env: Answers)
    requires s.tx.Some? && s.interruptedAt == NoPhase
    ensures var f := WriteResponseChunk(s, chunk, env);
            && (f.Proceed? <==> env.write.Wrote? && env.write.n >= |chunk|)
            && (f.Proceed? ==> f.s.failurePolicy == s.failurePolicy && f.s.interruptedAt == NoPhase)
            && (f.Leave? ==> EndsAs((f.s, f.action), env.write.Wrote? || (env.write.WriteError? && s.failurePolicy == Allow)))
            && (env.write.WriteStop? ==> f.s.interruptedAt != NoPhase)
  {
    hide ApplyFailurePolicy, HandleInterruption;
    var s1 := Record(s, WriteResponseBody(chunk, env.write));
    var it := if env.write.WriteStop? then env.write.it else Interruption(0, 0);
    OutcomesEndBack(s1, it, env);
    OutcomesEndBack(s1.(bodyReadIndex := s1.bodyReadIndex + |chunk|), it, env);
  }

  lemma CallbackEndsBack(s: Stream, size: nat, end: bool, env: Answers)
    requires s.tx.Some? && s.interruptedAt == NoPhase
    ensures EndsAs(OnHttpResponseBody(s, size, end, env), CallbackGoesBack(s, size, end, env))
  {
    hide ApplyFailurePolicy, WriteResponseChunk, RunResponseBody, SkipResponseInspection;
    if !PassedByBack(s, env) {
      var s1 := SeeEngine(s, env);
      PhaseEndsBack(s1, size, env);
      if env.bodyAccess && env.bodyProcessable && size > s.bodyReadIndex {
        if env.read.None? {
          OutcomesEndBack(s1, Interruption(0, 0), env);
        } else {
          var chunk := ResponseChunk(s, size, env);
          ChunkEndsBack(s1, chunk, env);
          var f := WriteResponseChunk(s1, chunk, env);
          assert FeedResponseBody(s1, size, env) == f;
          var r := OnHttpResponseBody(s, size, end, env);
          if f.Leave? {
            assert r == (f.s, f.action);
          } else {
            PhaseEndsBack(f.s, size, env);
            assert r == if end then RunResponseBody(f.s, env) else (f.s, Pause);
          }
        }
      }
    }
  }

  // ---- one event ----

  predicate GoesBack(s: Stream, ev: Event) {
    && Enabled(s, ev) && IsResponseBody(ev) && s.interruptedAt == NoPhase
    && if s.tx.None? then ev.ResponseData?
       else if ev.ResponseData? then
         var a := ArriveResponse(s, ev.data);
         CallbackGoesBack(a, |a.host.responseBuffer|, ev.end, ev.env)
       else CallbackGoesBack(s, s.bodyReadIndex, true, ev.env)
  }

  lemma BackLengths(s: Stream, data: seq<Byte>)
    requires Conserved(s) && s.interruptedAt == NoPhase
    ensures |s.host.downstream| + |s.host.responseBuffer + Lift(data)| == |s.host.responseArrived + data|
  {
    assert |Lift(s.host.responseArrived)| == |s.host.downstream + s.host.responseBuffer|;
  }

  lemma DataReleasesBack(s: Stream, data: seq<Byte>, end: bool, env: Answers)
    requires StreamInv(s) && Enabled(s, ResponseData(data, end, env))
    requires s.interruptedAt == NoPhase && Step(s, ResponseData(data, end, env)).interruptedAt == NoPhase
    ensures var ev := ResponseData(data, end, env);
            |Step(s, ev).host.downstream| == if GoesBack(s, ev) then |s.host.responseArrived + data| else |s.host.downstream|
  {
    hide CallbackGoesBack, OnHttpResponseBody;
    var a := ArriveResponse(s, data);
    var size := |a.host.responseBuffer|;
    var r := OnHttpResponseBody(a, size, end, env);
    assert Step(s, ResponseData(data, end, env)) == ReleaseResponse(r);
    ResponseBodyEffect(a, size, end, env);
    BackLengths(s, data);
    if s.tx.Some? {
      CallbackEndsBack(a, size, end, env);
    } else {
      TurnedAwayBack(a, size, end, env);
    }
  }

  lemma TurnedAwayBack(s: Stream, size: nat, end: bool, env: Answers)
    requires s.tx.None? && s.interruptedAt == NoPhase
    ensures OnHttpResponseBody(s, size, end, env) == (s, Continue)
  {}

  lemma TrailersReleaseBack(s: Stream, env: Answers)
    requires StreamInv(s) && Enabled(s, ResponseTrailers(env))
    requires s.interruptedAt == NoPhase && Step(s, ResponseTrailers(env)).interruptedAt == NoPhase
    ensures var ev := ResponseTrailers(env);
            |Step(s, ev).host.downstream| == if GoesBack(s, ev) then |s.host.responseArrived| else |s.host.downstream|
  {
    hide CallbackGoesBack, OnHttpResponseBody;
    BackLengths(s, []);
    if s.tx.Some? {
      ResponseBodyEffect(s, s.bodyReadIndex, true, env);
      CallbackEndsBack(s, s.bodyReadIndex, true, env);
    }
  }

  lemma OthersReleaseBack(s: Stream, ev: Event)
    requires StreamInv(s) && Enabled(s, ev) && !IsResponseBody(ev)
    ensures Step(s, ev).host.downstream == s.host.downstream
  {
    hide OnHttpRequestHeaders, OnHttpRequestBody, OnHttpResponseHeaders, OnHttpStreamDone;
    match ev
    case RequestHeaders(env) => RequestHeadersEffect(s.(host := s.host.(requestHeadersSeen := true)), env);
    case RequestData(data, end, env) =>
      var a := ArriveRequest(s, data);
      RequestBodyEffect(a, |a.host.requestBuffer|, end, env);
    case RequestTrailers(env) => if s.tx.Some? { RequestBodyEffect(s, s.bodyReadIndex, true, env); }
    case ResponseHeaders(env) => ResponseHeadersEffect(s.(host := s.host.(responseHeadersSeen := true)), env);
    case Done(env) => DoneEffect(s.(host := s.host.(done := true)), env);
  }

  lemma EventReleasesBack(s: Stream, ev: Event)
    requires StreamInv(s) && s.interruptedAt == NoPhase && Step(s, ev).interruptedAt == NoPhase
    ensures |Step(s, ev).host.downstream| ==
              if GoesBack(s, ev) then |s.host.responseArrived + NewDataBack(ev)| else |s.host.downstream|
  {
    if Enabled(s, ev) {
      match ev
      case ResponseData(data, end, env) => DataReleasesBack(s, data, end, env);
      case ResponseTrailers(env) => TrailersReleaseBack(s, env);
      case _ => OthersReleaseBack(s, ev);
    }
  }

  /** The engine holds all that was released of the response. */
  predicate UpToDateBack(s: Stream) {
    s.host.downstream == [] || (Entry(s) == 0 && |s.host.downstream| <= |ShareBack(s)|)
  }

  /** What a run has established before an event: see ResponseLedgerSound. */
  predicate Quiet(s: Stream) {
    StreamInv(s) && NoneLetThrough(s) && s.interruptedAt == NoPhase && (ShareBack(s) != [] ==> s.processedRequestBody)
  }

  lemma LeavesBackIff(s: Stream, ev: Event)
    requires Quiet(s) && UpToDateBack(s)
    ensures LeavesUnreadBack(s, ev) <==>
              var n := |s.host.responseArrived + NewDataBack(ev)|;
              GoesBack(s, ev) && n > 0 && (Entry(s) > 0 || |ShareBack(s)| + |TakenBack(s, ev)| < n)
  {
    if Enabled(s, ev) && IsResponseBody(ev) && s.tx.Some? && !PassedByBack(s, ev.env) {
      BackLengths(s, NewDataBack(ev));
      assert s.bodyReadIndex == Entry(s) + |ShareBack(s)| && s.host.downstream == [];
      if ev.ResponseData? && ev.env.bodyAccess && ev.env.bodyProcessable {
        ChunkLeavesBackIff(s, ev);
      }
    }
  }

  lemma ChunkLeavesBackIff(s: Stream, ev: Event)
    requires ev.ResponseData? && Enabled(s, ev) && InspectsResponse(s, ev.env)
    requires s.bodyReadIndex == Entry(s) + |ShareBack(s)| && |s.host.responseBuffer + Lift(ev.data)| == |s.host.responseArrived + ev.data|
    ensures LeavesUnreadBack(s, ev) <==>
              var n := |s.host.responseArrived + ev.data|;
              GoesBack(s, ev) && n > 0 && (Entry(s) > 0 || |ShareBack(s)| + |TakenBack(s, ev)| < n)
  {
    var a := ArriveResponse(s, ev.data);
    var size, i := |a.host.responseBuffer|, s.bodyReadIndex;
    if i < size && ev.env.read.Some? {
      assert |ReadBuffer(a.host.responseBuffer, i, size - i, ev.env.read.value)| == Got(size - i, ev.env.read.value);
    }
  }

  /** Once the engine's share of the response has begun, its entry does not move. */
  lemma QuietStep(s: Stream, ev: Event)
    requires Quiet(s) && Step(s, ev).interruptedAt == NoPhase
    ensures var r := Step(s, ev);
            && ShareBack(r) == ShareBack(s) + TakenBack(s, ev)
            && (ShareBack(s) != [] || GoesBack(s, ev) ==> ShareBack(r) == [] || Entry(r) == Entry(s))
            && (s.host.downstream != [] ==> TakenBack(s, ev) == [])
  {
    StepFeeds(s, ev);
    TrustedStep(s, ev);
    if s.processedRequestBody {
      EntryStays(s, ev);
    } else if Enabled(s, ev) && IsResponseBody(ev) {
      ResponseStepFeeds(s, ev);
    }
  }

  lemma QuietIff(s: Stream, ev: Event)
    requires Quiet(s) && Step(s, ev).interruptedAt == NoPhase
    ensures UpToDateBack(Step(s, ev)) <==> UpToDateBack(s) && !LeavesUnreadBack(s, ev)
  {
    BackLengths(s, NewDataBack(ev));
    hide Step, StreamInv, GoesBack, LeavesUnreadBack, TakenBack;
    EventReleasesBack(s, ev);
    QuietStep(s, ev);
    if UpToDateBack(s) {
      LeavesBackIff(s, ev);
    }
  }

  // ---- whole runs ----

  predicate SeenBack(h: History, j: nat) {
    j in Places(ResponseLedger(h), Entry(End(h)))
  }

  /** Every byte of the response that the client received was held by the engine. */
  predicate AllSeenBack(h: History) {
    forall j :: 0 <= j < |End(h).host.downstream| ==> SeenBack(h, j)
  }

  predicate NoneLeftBack(h: History) {
    h.After? ==> NoneLeftBack(h.earlier) && !LeavesUnreadBack(End(h.earlier), h.ev)
  }

  lemma SpanHolds(from: nat, n: nat, j: nat)
    ensures j in Span(from, n) <==> from <= j < from + n
  {
    if from <= j < from + n {
      assert Span(from, n)[j - from] == j;
    }
  }

  lemma PiecesSeen(h: History)
    requires Places(ResponseLedger(h), Entry(End(h))) == Span(Entry(End(h)), |ShareBack(End(h))|)
    ensures AllSeenBack(h) <==> UpToDateBack(End(h))
  {
    var e, n, d := Entry(End(h)), |ShareBack(End(h))|, |End(h).host.downstream|;
    forall j: nat ensures SeenBack(h, j) <==> e <= j < e + n {
      SpanHolds(e, n, j);
    }
    if d > 0 {
      assert SeenBack(h, 0) <==> e == 0 && n > 0;
      assert SeenBack(h, d - 1) <==> e <= d - 1 < e + n;
    }
  }

  lemma {:induction false} NoneLeftBackIff(h: History)
    requires NoneLetThrough(End(h)) && End(h).interruptedAt == NoPhase
    ensures UpToDateBack(End(h)) <==> NoneLeftBack(h)
  {
    if h.After? {
      hide Step, StreamInv, UpToDateBack, LeavesUnreadBack;
      EndKeeps(h.earlier);
      ResponseLedgerSound(h.earlier);
      NoneEarlier(End(h.earlier), h.ev);
      Uninterrupted(End(h.earlier), h.ev);
      NoneLeftBackIff(h.earlier);
      QuietIff(End(h.earlier), h.ev);
    }
  }

  lemma Uninterrupted(s: Stream, ev: Event)
    requires StreamInv(s) && Step(s, ev).interruptedAt == NoPhase
    ensures s.interruptedAt == NoPhase
  {
    if Enabled(s, ev) {
      StepEvolves(s, ev);
    }
  }

  /**
   In every run without an interruption whose errors were all blocked: all bytes of the response that the
   client received were held by the engine if and only if no event let the body go while part of it was
   unread; what precedes the entry index is never read.
   */
  lemma SeenBackIff(h: History)
    requires NoneLetThrough(End(h)) && End(h).interruptedAt == NoPhase
    ensures AllSeenBack(h) <==> NoneLeftBack(h)
  {
    TrustedIsPunctual(h);
    ResponseShareIff(h);
    PiecesSeen(h);
    NoneLeftBackIff(h);
  }
}
