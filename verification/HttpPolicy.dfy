/**
 What the failure policy comes to over whole runs. The request-body phase is marked as processed before the
 engine is asked, so a failure that the policy blocks holds the body back for that callback only.
 */
module HttpPolicy {
  import opened Prelude
  import opened HttpStream
  import opened HttpTrace
  import opened HttpRuns
  import opened HttpFeeding
  import opened HttpAlignment
  import opened HttpGuarantees
  import opened HttpSealing
  import opened HttpUnseen

  // ---- what a failed phase looks like in the trace ----

  /** The engine failed in the request-body phase. */
  predicate RequestFailed(t: Trace) {
    t.Then? && (RequestFailed(t.earlier) || (t.last.ProcessRequestBody? && t.last.verdict.EngineError?))
  }

  predicate RequestStopped(t: Trace) {
    t.Then? && (RequestStopped(t.earlier) || (t.last.ProcessRequestBody? && t.last.verdict.Stop?))
  }

  lemma {:induction false} RanSomehow(t: Trace)
    requires RequestRan(t)
    ensures RequestCleared(t) || RequestFailed(t) || RequestStopped(t)
  {
    if RequestRan(t.earlier) {
      RanSomehow(t.earlier);
    }
  }

  lemma {:induction false} StopAndResponse(t: Trace)
    requires Ordered(t)
    ensures RequestStopped(t) ==> FloorOf(t) >= 7 && !ResponseRan(t)
    ensures ResponseRan(t) ==> FloorOf(t) >= 5
  {
    if t.Then? {
      StopAndResponse(t.earlier);
    }
  }

  /** The phase was run without clearing the request, and without an interruption. */
  predicate FailedBefore(s: Stream) {
    s.tx.Some? && s.processedRequestBody && s.interruptedAt == NoPhase && !RequestCleared(s.tx.value.trace)
  }

  lemma FailedBeforeMeans(s: Stream)
    requires StreamInv(s) && FailedBefore(s) && !s.host.done
    ensures RequestFailed(s.tx.value.trace)
  {
    RanSomehow(s.tx.value.trace);
    StopAndResponse(s.tx.value.trace);
  }

  // ---- one event ----

  /** The phase has cleared the request, or an error was let through. */
  predicate ClearedOrAllowed(s: Stream, r: Stream) {
    r.tx.Some? && (RequestCleared(r.tx.value.trace) || (s.failurePolicy == Allow && r.host.errors > s.host.errors))
  }

  lemma PhaseClears(s: Stream, site: Site, env: Answers)
    requires s.tx.Some?
    ensures var r := RunRequestBody(s, site, RequestBodyPhase, env); r.1.Continue? ==> ClearedOrAllowed(s, r.0)
  {}

  lemma ChunkClears(s: Stream, chunk: seq<Byte>, env: Answers)
    requires s.tx.Some?
    ensures var f := WriteRequestChunk(s, chunk, env);
            && (f.Leave? && f.action.Continue? ==> ClearedOrAllowed(s, f.s))
            && (f.Proceed? ==> f.s.host == s.host && f.s.failurePolicy == s.failurePolicy)
  {}

  /** A callback that asks the engine lets the body go only if the phase passes, or "allow" meets an error. */
  lemma CallbackClears(s: Stream, size: nat, end: bool, env: Answers)
    requires s.tx.Some? && s.interruptedAt == NoPhase && !PassedBy(s, env)
    ensures var r := OnHttpRequestBody(s, size, end, env); r.1.Continue? ==> ClearedOrAllowed(s, r.0)
  {
    hide RunRequestBody, WriteRequestChunk;
    var s1 := SeeEngine(s, env);
    if !env.bodyAccess {
      PhaseClears(s1, NoBodyAccess, env);
    } else if size <= s.bodyReadIndex {
      PhaseClears(s1.(bodyReadIndex := 0), EndOfStream, env);
    } else if env.read.Some? {
      var chunk := RequestChunk(s, size, env);
      ChunkClears(s1, chunk, env);
      var f := WriteRequestChunk(s1, chunk, env);
      assert FeedRequestBody(s1, size, env) == f;
      if f.Proceed? {
        PhaseClears(f.s.(bodyReadIndex := 0), EndOfStream, env);
      }
    }
  }

  /** What waits in the request's buffer when an event reaches the plugin. */
  function WaitingRequest(s: Stream, ev: Event): seq<Byte> {
    s.host.requestBuffer + NewData(ev)
  }

  /** After a failed phase every further callback of the request's body lets it go. */
  lemma FailedPhaseReleases(s: Stream, ev: Event)
    requires StreamInv(s) && Enabled(s, ev) && FailedBefore(s) && IsRequestBody(ev)
    ensures var r := Step(s, ev); r.host.upstream == s.host.upstream + WaitingRequest(s, ev) && r.tx == s.tx
  {
    EventReleases(s, ev);
    assert s.host.upstream + (s.host.requestBuffer + NewData(ev)) == s.host.requestArrived + NewData(ev);
    if ev.RequestData? {
      RequestDataStep(s, ev.data, ev.end, ev.env);
    }
  }

  lemma AskingReleasesCleared(s: Stream, ev: Event)
    requires StreamInv(s) && Goes(s, ev) && s.tx.Some? && !PassedBy(s, ev.env) && NoneLetThrough(Step(s, ev))
    ensures var r := Step(s, ev); r.tx.Some? && RequestCleared(r.tx.value.trace)
  {
    hide OnHttpRequestBody, CallbackGoes;
    StepEvolves(s, ev);
    var a := if ev.RequestData? then ArriveRequest(s, ev.data) else s;
    var size := if ev.RequestData? then |a.host.requestBuffer| else s.bodyReadIndex;
    var end := ev.RequestTrailers? || ev.end;
    assert Step(s, ev) == ReleaseRequest(OnHttpRequestBody(a, size, end, ev.env));
    CallbackEnds(a, size, end, ev.env);
    CallbackClears(a, size, end, ev.env);
  }

  /**
   With the engine on and no error let through, bytes leave uncleared in exactly one way: the phase failed in
   an earlier callback, the policy blocked that callback, and a later one finds the phase processed.
   */
  lemma UnclearedIff(s: Stream, ev: Event)
    requires Reachable(s) && Enabled(s, ev)
    requires var r := Step(s, ev); s.tx.Some? && r.tx.Some? && !r.tx.value.off && NoneLetThrough(r)
    ensures var r := Step(s, ev);
            r.host.upstream != s.host.upstream && !RequestCleared(r.tx.value.trace) <==>
              FailedBefore(s) && IsRequestBody(ev) && WaitingRequest(s, ev) != []
    ensures FailedBefore(s) ==> RequestFailed(s.tx.value.trace)
  {
    ReachableKeeps(s);
    EventReleases(s, ev);
    StepEvolves(s, ev);
    if FailedBefore(s) {
      FailedBeforeMeans(s);
    }
    if FailedBefore(s) && IsRequestBody(ev) {
      FailedPhaseReleases(s, ev);
      LongerDiffers(s.host.upstream, WaitingRequest(s, ev));
    } else if Goes(s, ev) && !PassedBy(s, ev.env) {
      AskingReleasesCleared(s, ev);
    } else if Goes(s, ev) {
      OnlyOffOrCleared(s, ev);
    }
  }

  lemma LongerDiffers<T>(a: seq<T>, b: seq<T>)
    ensures a + b != a <==> b != []
  {
    if b != [] {
      assert |a + b| > |a|;
    } else {
      assert a + b == a;
    }
  }

  lemma OnlyOffOrCleared(s: Stream, ev: Event)
    requires StreamInv(s) && Goes(s, ev) && s.tx.Some? && PassedBy(s, ev.env) && !FailedBefore(s)
    ensures var r := Step(s, ev); r.tx.Some? ==> r.tx.value.off || RequestCleared(r.tx.value.trace)
  {
    if ev.RequestData? {
      RequestDataStep(s, ev.data, ev.end, ev.env);
    }
  }

  // ---- over whole runs ----

  lemma NoEngineStays(s: Stream, ev: Event)
    requires s.interruptedAt == NoPhase && s.tx.None? && !ev.RequestHeaders?
    ensures Step(s, ev).tx.None?
  {
    match ev
    case RequestData(data, end, env) =>
      var a := ArriveRequest(s, data);
      assert OnHttpRequestBody(a, |a.host.requestBuffer|, end, env) == (a, Continue);
    case ResponseData(data, end, env) =>
      var a := ArriveResponse(s, data);
      assert OnHttpResponseBody(a, |a.host.responseBuffer|, end, env) == (a, Continue);
    case _ =>
  }

  /** Only the request's headers give a stream its engine, and nothing has been released by then. */
  lemma OnlyHeadersOpen(s: Stream, ev: Event)
    requires StreamInv(s) && Enabled(s, ev) && s.tx.None? && Step(s, ev).tx.Some?
    ensures Step(s, ev).host.upstream == []
  {
    EventReleases(s, ev);
    if !ev.RequestHeaders? {
      NoEngineStays(s, ev);
    }
  }

  lemma {:induction false} ReleasedIsProcessed(h: History)
    requires var s := End(h); s.tx.Some? && !s.tx.value.off && NoneLetThrough(s) && s.host.upstream != []
    ensures End(h).processedRequestBody
  {
    if h.After? {
      hide Step, StreamInv;
      var s := End(h.earlier);
      EndKeeps(h.earlier);
      EndKeeps(h);
      if Enabled(s, h.ev) {
        StepEvolves(s, h.ev);
        if s.tx.None? {
          OnlyHeadersOpen(s, h.ev);
        } else if s.host.upstream == [] {
          ReleaseIsProcessed(s, h.ev);
        } else {
          ReleasedIsProcessed(h.earlier);
        }
      } else {
        Dropped(s, h.ev);
        ReleasedIsProcessed(h.earlier);
      }
    }
  }

  lemma Dropped(s: Stream, ev: Event)
    requires !Enabled(s, ev)
    ensures Step(s, ev) == s
  {}

  /** The event that releases the first byte leaves the phase processed. */
  lemma ReleaseIsProcessed(s: Stream, ev: Event)
    requires StreamInv(s) && Enabled(s, ev) && StreamInv(Step(s, ev))
    requires var r := Step(s, ev); r.tx.Some? && !r.tx.value.off && NoneLetThrough(r)
    requires s.host.upstream == [] && Step(s, ev).host.upstream != []
    ensures Step(s, ev).processedRequestBody
  {
    var r := Step(s, ev);
    if r.interruptedAt != NoPhase {
      if s.interruptedAt != NoPhase {
        EventReleases(s, ev);
      } else if IsResponseBody(ev) {
        BodyInterruption(s, ev);
      } else {
        EarlyInterruption(s, ev);
      }
      assert false;
    }
  }

  /**
   Whatever the policy, with the engine on and no error let through: nothing goes upstream before the
   request-body phase was run. That it passed is promised only while nothing fails, see RequestSafety.
   */
  lemma ReleasedHasRun(h: History)
    requires var s := End(h); s.tx.Some? && !s.tx.value.off && NoneLetThrough(s) && s.host.upstream != []
    ensures RequestRan(End(h).tx.value.trace)
  {
    ReleasedIsProcessed(h);
    EndKeeps(h);
  }
}
