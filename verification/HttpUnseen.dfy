/**
 Which bytes of a request reach the server without the engine ever having held them: for every run, exactly
 those left over by an event that lets the body go while part of it is unread.
 */
module HttpUnseen {
  import opened Prelude
  import opened HttpStream
  import opened HttpSafety
  import opened HttpRuns
  import opened HttpFeeding
  import opened HttpAlignment
  import opened HttpGuarantees

  /** The body phase lets the body go: it passes, or it fails under "allow". */
  predicate Passes(v: Verdict, policy: FailurePolicy) {
    v.Clean? || (v.EngineError? && policy == Allow)
  }

  /** The engine is not asked about the body, or not any more. */
  predicate PassedBy(s: Stream, env: Answers)
    requires s.tx.Some?
  {
    s.processedRequestBody || s.tx.value.off || env.engineOff
  }

  /** Part of what has arrived is not with the engine. */
  predicate HasUnread(s: Stream, ev: Event) {
    |Share(s)| < |s.host.requestArrived + NewData(ev)|
  }

  /** What is left to read goes on unread: after a failed call under "allow", a partial write, or a short read of the end. */
  predicate ChunkLeaves(policy: FailurePolicy, left: nat, end: bool, env: Answers) {
    if env.read.None? || env.write.WriteError? then policy == Allow
    else if env.write.WriteStop? then false
    else env.write.n < Got(left, env.read.value) || (end && env.read.value < left && Passes(env.body, policy))
  }

  /** The event releases bytes that the engine does not hold. */
  predicate LeavesUnread(s: Stream, ev: Event) {
    && Enabled(s, ev) && IsRequestBody(ev) && s.interruptedAt == NoPhase && HasUnread(s, ev)
    && if s.tx.None? then ev.RequestData?
       else if PassedBy(s, ev.env) then true
       else if !ev.env.bodyAccess || ev.RequestTrailers? then Passes(ev.env.body, s.failurePolicy)
       else
         var left := |s.host.requestArrived + ev.data| - |Share(s)|;
         ChunkLeaves(s.failurePolicy, left, ev.end, ev.env)
  }

  // ---- how a callback ends ----

  /** When a request-body callback lets the body go. */
  predicate CallbackGoes(s: Stream, size: nat, end: bool, env: Answers)
    requires s.tx.Some?
  {
    if PassedBy(s, env) then true
    else if !env.bodyAccess then Passes(env.body, s.failurePolicy)
    else if size <= s.bodyReadIndex then end && Passes(env.body, s.failurePolicy)
    else if env.read.None? || env.write.WriteError? then s.failurePolicy == Allow
    else if env.write.WriteStop? then false
    else env.write.n < |RequestChunk(s, size, env)| || (end && Passes(env.body, s.failurePolicy))
  }

  lemma OutcomesEnd(s: Stream, phase: Phase, it: Interruption, env: Answers)
    ensures ApplyFailurePolicy(s, env).1.Continue? <==> s.failurePolicy == Allow
    ensures phase != ResponseBodyPhase ==> HandleInterruption(s, phase, it, env).1.Pause?
  {}

  lemma PhaseEnds(s: Stream, site: Site, env: Answers)
    requires s.tx.Some?
    ensures RunRequestBody(s, site, RequestBodyPhase, env).1.Continue? <==> Passes(env.body, s.failurePolicy)
  {
    hide ApplyFailurePolicy, HandleInterruption;
    var s1 := Record(s.(processedRequestBody := true), ProcessRequestBody(site, env.body));
    OutcomesEnd(s1, RequestBodyPhase, if env.body.Stop? then env.body.it else Interruption(0, 0), env);
  }

  lemma ChunkEnds(s: Stream, chunk: seq<Byte>, env: Answers)
    requires s.tx.Some?
    ensures var f := WriteRequestChunk(s, chunk, env);
            && (f.Proceed? <==> env.write.Wrote? && env.write.n >= |chunk|)
            && (f.Proceed? ==> f.s.failurePolicy == s.failurePolicy)
            && (f.Leave? ==> (f.action.Continue? <==> env.write.Wrote? || (env.write.WriteError? && s.failurePolicy == Allow)))
  {
    hide ApplyFailurePolicy, HandleInterruption;
    var s1 := Record(s, WriteRequestBody(chunk, env.write));
    OutcomesEnd(s1, RequestBodyPhase, if env.write.WriteStop? then env.write.it else Interruption(0, 0), env);
  }

  lemma CallbackEnds(s: Stream, size: nat, end: bool, env: Answers)
    requires s.tx.Some? && s.interruptedAt == NoPhase
    ensures OnHttpRequestBody(s, size, end, env).1.Continue? <==> CallbackGoes(s, size, end, env)
  {
    hide ApplyFailurePolicy, WriteRequestChunk, RunRequestBody;
    if !PassedBy(s, env) {
      var s1 := SeeEngine(s, env);
      if !env.bodyAccess {
        PhaseEnds(s1, NoBodyAccess, env);
      } else if size <= s.bodyReadIndex {
        PhaseEnds(s1.(bodyReadIndex := 0), EndOfStream, env);
      } else if env.read.None? {
        OutcomesEnd(s1, RequestBodyPhase, Interruption(0, 0), env);
      } else {
        var chunk := RequestChunk(s, size, env);
        ChunkEnds(s1, chunk, env);
        var f := WriteRequestChunk(s1, chunk, env);
        assert FeedRequestBody(s1, size, env) == f;
        var r := OnHttpRequestBody(s, size, end, env);
        if f.Leave? {
          assert r == (f.s, f.action);
        } else {
          PhaseEnds(f.s.(bodyReadIndex := 0), EndOfStream, env);
          assert r == if end then RunRequestBody(f.s.(bodyReadIndex := 0), EndOfStream, RequestBodyPhase, env) else (f.s, Pause);
        }
      }
    }
  }

  // ---- one event ----

  /** While the engine is being asked, nothing has been released. */
  predicate Gated(s: Stream) {
    s.tx.Some? && !s.tx.value.off && s.interruptedAt == NoPhase && !s.processedRequestBody ==> s.host.upstream == []
  }

  /** Everything released is with the engine, and what is not released is still watched. */
  predicate UpToDate(s: Stream) {
    Gated(s) && |s.host.upstream| <= |Share(s)|
  }

  /** Whether the event lets the body go. */
  predicate Goes(s: Stream, ev: Event) {
    && Enabled(s, ev) && IsRequestBody(ev) && s.interruptedAt == NoPhase
    && if s.tx.None? then ev.RequestData?
       else if ev.RequestData? then
         var a := ArriveRequest(s, ev.data);
         CallbackGoes(a, |a.host.requestBuffer|, ev.end, ev.env)
       else CallbackGoes(s, s.bodyReadIndex, true, ev.env)
  }

  lemma DataReleases(s: Stream, data: seq<Byte>, end: bool, env: Answers)
    requires StreamInv(s) && Enabled(s, RequestData(data, end, env))
    ensures var ev := RequestData(data, end, env);
            Step(s, ev).host.upstream == if Goes(s, ev) then s.host.requestArrived + data else s.host.upstream
  {
    hide CallbackGoes, OnHttpRequestBody;
    var a := ArriveRequest(s, data);
    var size := |a.host.requestBuffer|;
    var r := OnHttpRequestBody(a, size, end, env);
    RequestDataStep(s, data, end, env);
    RequestBodyEffect(a, size, end, env);
    assert s.host.upstream + (s.host.requestBuffer + data) == s.host.requestArrived + data;
    if s.tx.Some? && s.interruptedAt == NoPhase {
      CallbackEnds(a, size, end, env);
    } else {
      TurnedAway(a, size, end, env);
    }
  }

  lemma TurnedAway(s: Stream, size: nat, end: bool, env: Answers)
    requires s.tx.None? || s.interruptedAt != NoPhase
    ensures OnHttpRequestBody(s, size, end, env).1.Continue? <==> s.interruptedAt == NoPhase
  {}

  lemma TrailersRelease(s: Stream, env: Answers)
    requires StreamInv(s) && Enabled(s, RequestTrailers(env))
    ensures var ev := RequestTrailers(env);
            Step(s, ev).host.upstream == if Goes(s, ev) then s.host.requestArrived else s.host.upstream
  {
    hide CallbackGoes, OnHttpRequestBody;
    if s.tx.Some? {
      RequestBodyEffect(s, s.bodyReadIndex, true, env);
      if s.interruptedAt == NoPhase {
        CallbackEnds(s, s.bodyReadIndex, true, env);
      } else {
        TurnedAway(s, s.bodyReadIndex, true, env);
      }
    }
  }

  /** The other events release nothing of the request. */
  lemma OthersRelease(s: Stream, ev: Event)
    requires StreamInv(s) && Enabled(s, ev) && !IsRequestBody(ev)
    ensures Step(s, ev).host.upstream == s.host.upstream && Step(s, ev).host.requestArrived == s.host.requestArrived
  {
    hide OnHttpRequestHeaders, OnHttpResponseHeaders, OnHttpResponseBody, OnHttpStreamDone;
    match ev
    case RequestHeaders(env) => RequestHeadersEffect(s.(host := s.host.(requestHeadersSeen := true)), env);
    case ResponseHeaders(env) => ResponseHeadersEffect(s.(host := s.host.(responseHeadersSeen := true)), env);
    case ResponseData(data, end, env) =>
      var a := ArriveResponse(s, data);
      ResponseBodyEffect(a, |a.host.responseBuffer|, end, env);
    case ResponseTrailers(env) => if s.tx.Some? { ResponseBodyEffect(s, s.bodyReadIndex, true, env); }
    case Done(env) => DoneEffect(s.(host := s.host.(done := true)), env);
  }

  lemma EventReleases(s: Stream, ev: Event)
    requires StreamInv(s)
    ensures Step(s, ev).host.upstream == if Goes(s, ev) then s.host.requestArrived + NewData(ev) else s.host.upstream
  {
    assert s.host.requestArrived + [] == s.host.requestArrived;
    if Enabled(s, ev) {
      match ev
      case RequestData(data, end, env) => DataReleases(s, data, end, env);
      case RequestTrailers(env) => TrailersRelease(s, env);
      case _ => OthersRelease(s, ev);
    }
  }

  /** An event leaves bytes unread exactly if it lets the body go and the engine does not hold all of it then. */
  lemma LeavesIff(s: Stream, ev: Event)
    requires StreamInv(s) && UpToDate(s)
    ensures LeavesUnread(s, ev) <==> Goes(s, ev) && |Share(s)| + |Taken(s, ev)| < |s.host.requestArrived + NewData(ev)|
    ensures Taken(s, ev) != [] ==> s.host.upstream == []
  {
    if Enabled(s, ev) && IsRequestBody(ev) && s.interruptedAt == NoPhase && s.tx.Some? && !PassedBy(s, ev.env) {
      assert s.bodyReadIndex == |Share(s)| && s.host.requestBuffer == s.host.requestArrived;
      if ev.RequestData? && ev.env.bodyAccess {
        ChunkLeavesIff(s, ev);
      }
    }
  }

  lemma ChunkLeavesIff(s: Stream, ev: Event)
    requires ev.RequestData? && Enabled(s, ev) && InspectsRequest(s, ev.env)
    requires s.bodyReadIndex == |Share(s)| && s.host.requestBuffer == s.host.requestArrived
    ensures LeavesUnread(s, ev) <==> Goes(s, ev) && |Share(s)| + |Taken(s, ev)| < |s.host.requestArrived + ev.data|
  {
    var a := ArriveRequest(s, ev.data);
    var body, i := a.host.requestBuffer, s.bodyReadIndex;
    if i < |body| && ev.env.read.Some? {
      assert |ReadBuffer(body, i, |body| - i, ev.env.read.value)| == Got(|body| - i, ev.env.read.value);
    }
  }

  lemma StaysUpToDate(s: Stream, ev: Event)
    requires StreamInv(s) && UpToDate(s) && !LeavesUnread(s, ev)
    ensures UpToDate(Step(s, ev))
  {
    StepFeeds(s, ev);
    EventReleases(s, ev);
    LeavesIff(s, ev);
    var r := Step(s, ev);
    if Enabled(s, ev) {
      StepEvolves(s, ev);
      if Goes(s, ev) && s.tx.Some? {
        GoneIsClosed(s, ev);
      }
    }
  }

  /** A callback that lets the body go closes the phase, unless "allow" lets a failed call through. */
  lemma CallbackCloses(s: Stream, size: nat, end: bool, env: Answers)
    requires s.tx.Some? && s.interruptedAt == NoPhase && !PassedBy(s, env) && CallbackGoes(s, size, end, env)
    ensures OnHttpRequestBody(s, size, end, env).0.processedRequestBody ||
            (env.bodyAccess && size > s.bodyReadIndex && (env.read.None? || env.write.WriteError?))
  {
    if env.bodyAccess && size > s.bodyReadIndex && env.read.Some? {
      var chunk := RequestChunk(s, size, env);
      assert FeedRequestBody(SeeEngine(s, env), size, env) == WriteRequestChunk(SeeEngine(s, env), chunk, env);
    }
  }

  /** An event that lets the body go with nothing unread has closed the phase, or the engine is off. */
  lemma GoneIsClosed(s: Stream, ev: Event)
    requires StreamInv(s) && UpToDate(s) && !LeavesUnread(s, ev) && Goes(s, ev) && s.tx.Some?
    ensures Gated(Step(s, ev))
  {
    hide OnHttpRequestBody;
    var a := if ev.RequestData? then ArriveRequest(s, ev.data) else s;
    var size := if ev.RequestData? then |a.host.requestBuffer| else s.bodyReadIndex;
    var end := ev.RequestTrailers? || ev.end;
    assert Step(s, ev) == ReleaseRequest(OnHttpRequestBody(a, size, end, ev.env));
    StepEvolves(s, ev);
    if PassedBy(s, ev.env) {
      PassedByCloses(a, size, end, ev.env);
    } else {
      CallbackCloses(a, size, end, ev.env);
      assert s.bodyReadIndex == |Share(s)| && s.host.requestBuffer == s.host.requestArrived;
    }
  }

  lemma PassedByCloses(s: Stream, size: nat, end: bool, env: Answers)
    requires s.tx.Some? && s.interruptedAt == NoPhase && PassedBy(s, env)
    ensures var r := OnHttpRequestBody(s, size, end, env).0; r.tx.Some? && (r.processedRequestBody || r.tx.value.off)
  {}

  lemma LeftBehind(s: Stream, ev: Event)
    requires StreamInv(s) && UpToDate(s) && LeavesUnread(s, ev)
    ensures |Step(s, ev).host.upstream| > |Share(Step(s, ev))|
  {
    StepFeeds(s, ev);
    EventReleases(s, ev);
    LeavesIff(s, ev);
  }

  // ---- whole runs ----

  /**
   The engine held the byte at place `j` of the request's body. A chunk that was written in part does not count;
   as part of it is unseen in any case, that makes no difference to AllSeen.
   */
  predicate Seen(h: History, j: nat) {
    j in Places(RequestLedger(h), 0)
  }

  /** Every byte that has gone upstream was held by the engine. */
  predicate AllSeen(h: History) {
    forall j :: 0 <= j < |End(h).host.upstream| ==> Seen(h, j)
  }

  /** No event of the run has left bytes unread. */
  predicate NoneLeft(h: History) {
    h.After? ==> NoneLeft(h.earlier) && !LeavesUnread(End(h.earlier), h.ev)
  }

  lemma {:induction false} NoneLeftKeeps(h: History)
    requires NoneLeft(h)
    ensures UpToDate(End(h)) && Punctual(RequestLedger(h))
  {
    if h.After? {
      var s := End(h.earlier);
      EndKeeps(h.earlier);
      NoneLeftKeeps(h.earlier);
      StaysUpToDate(s, h.ev);
      LeavesIff(s, h.ev);
    }
  }

  lemma UpstreamGrows(s: Stream, ev: Event)
    requires StreamInv(s)
    ensures |s.host.upstream| <= |Step(s, ev).host.upstream|
  {
    EventReleases(s, ev);
    assert |s.host.requestArrived| >= |s.host.upstream|;
  }

  /** A byte that went unseen stays unseen. */
  lemma MissingStays(h: History, j: nat)
    requires h.After? && j < |End(h.earlier).host.upstream| && !Seen(h.earlier, j)
    ensures j < |End(h).host.upstream| && !Seen(h, j)
  {
    hide Step, Places, Goes, Taken, Arrived;
    var s := End(h.earlier);
    EndKeeps(h.earlier);
    UpstreamGrows(s, h.ev);
    PlacesGrow(RequestLedger(h.earlier), Taken(s, h.ev), |s.host.upstream|, Arrived(s, h.ev), j);
  }

  lemma PlacesGrow(l: Ledger, taken: seq<Byte>, released: nat, data: seq<Byte>, j: nat)
    requires j < released && j !in Places(l, 0)
    ensures j !in Places(Entered(l, taken, released, data), 0)
  {
    hide Total;
    var later := Span(released + 0 + |Total(l)|, |taken|);
    assert j !in later;
    assert Places(Entered(l, taken, released, data), 0) == Places(l, 0) + later;
  }

  /** The event that leaves bytes unread makes the first of them an unseen one. */
  lemma LeftIsMissing(h: History)
    requires h.After? && NoneLeft(h.earlier) && LeavesUnread(End(h.earlier), h.ev)
    ensures !AllSeen(h)
  {
    var s := End(h.earlier);
    EndKeeps(h.earlier);
    NoneLeftKeeps(h.earlier);
    LeftBehind(s, h.ev);
    LeavesIff(s, h.ev);
    RequestShareIff(h);
    assert !Seen(h, |Share(End(h))|);
  }

  /**
   For every run, policy and engine: all bytes that went upstream were held by the engine if and only if
   no event let the body go while part of it was unread.
   */
  lemma {:induction false} SeenIff(h: History)
    ensures AllSeen(h) <==> NoneLeft(h)
  {
    if NoneLeft(h) {
      NoneLeftKeeps(h);
      RequestShareIff(h);
      var n := |Share(End(h))|;
      forall j | 0 <= j < |End(h).host.upstream| ensures Seen(h, j) {
        assert Span(0, n)[j] == j;
      }
    } else if NoneLeft(h.earlier) {
      LeftIsMissing(h);
    } else {
      SeenIff(h.earlier);
      var j :| 0 <= j < |End(h.earlier).host.upstream| && !Seen(h.earlier, j);
      MissingStays(h, j);
    }
  }
}
