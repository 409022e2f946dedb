/**
 What still reaches the client from the event that interrupts on: null bytes in place of the body, unless the
 host refuses the replacement, which the plugin only logs.
 */
module HttpSealing {
  import opened Wafs
  import opened HttpStream
  import opened HttpSafety
  import opened HttpRuns
  import opened HttpGuarantees
  import opened HttpCallbacks
  import opened HttpFeeding
  import opened HttpBodies

  /** What is in the response buffer when an event reaches the plugin. */
  function Waiting(s: Stream, ev: Event): seq<Octet> {
    s.host.responseBuffer + if ev.ResponseData? then Lift(ev.data) else []
  }

  /**
   How much of a response body the plugin takes to be covered when it interrupts it: all that is waiting if the
   body is not inspected; otherwise what precedes the entry index, what the engine holds, and what this event read.
   */
  function Covered(s: Stream, ev: Event): nat {
    var held := Entry(s) + |ShareBack(s)|;
    if !ev.ResponseData? then held
    else if !ev.env.bodyAccess || !ev.env.bodyProcessable then |Waiting(s, ev)|
    else if |Waiting(s, ev)| <= held || ev.env.read.None? then held
    else held + Got(|Waiting(s, ev)| - held, ev.env.read.value)
  }

  /**
   How many null bytes replace what is waiting: as many as there are, for trailers as many as the index says,
   and for the interruption of a response body as many as are covered.
   */
  function Replacement(s: Stream, ev: Event): nat {
    if s.interruptedAt == NoPhase then Covered(s, ev)
    else if ev.ResponseData? then |Waiting(s, ev)|
    else s.bodyReadIndex
  }

  /** What an event lets out of a stream that is interrupted after it. */
  function LetOut(s: Stream, ev: Event): seq<Octet> {
    if !Enabled(s, ev) || !IsResponseBody(ev) then []
    else if ev.env.replaceOk then Nulls(Replacement(s, ev))
    else Waiting(s, ev)
  }

  /** The guard of a leak: the host refuses the replacement while something of the server's is waiting. */
  predicate Leaks(s: Stream, ev: Event) {
    Enabled(s, ev) && IsResponseBody(ev) && !ev.env.replaceOk && !AllNull(Waiting(s, ev))
  }

  lemma ReplacedAndReleased(s: Stream, size: nat, env: Answers)
    requires s.tx.Some? && s.interruptedAt != NoPhase
    ensures var r := ReleaseResponse(OnHttpResponseBody(s, size, true, env));
            && r.interruptedAt == s.interruptedAt && r.host.upstream == s.host.upstream
            && r.host.downstream == s.host.downstream + if env.replaceOk then Nulls(size) else s.host.responseBuffer
    ensures OnHttpResponseBody(s, size, false, env) == OnHttpResponseBody(s, size, true, env)
  {
    assert OnHttpResponseBody(s, size, true, env) == ReplaceResponseBody(s, size, env);
  }

  /** An interruption keeps its phase, lets nothing upstream, and lets out exactly that. */
  lemma InterruptionSeals(s: Stream, ev: Event)
    requires Reachable(s) && s.interruptedAt != NoPhase
    ensures var r := Step(s, ev);
            && Reachable(r) && r.interruptedAt == s.interruptedAt
            && r.host.upstream == s.host.upstream && r.host.downstream == s.host.downstream + LetOut(s, ev)
  {
    ReachableKeeps(s);
    StepReachable(s, ev);
    if Enabled(s, ev) && IsResponseBody(ev) {
      SealedResponse(s, ev);
    } else if Enabled(s, ev) {
      SealedOtherwise(s, ev);
      assert s.host.downstream + [] == s.host.downstream;
    } else {
      assert s.host.downstream + [] == s.host.downstream;
    }
  }

  lemma SealedResponse(s: Stream, ev: Event)
    requires StreamInv(s) && s.interruptedAt != NoPhase && Enabled(s, ev) && IsResponseBody(ev)
    ensures var r := Step(s, ev);
            && r.interruptedAt == s.interruptedAt
            && r.host.upstream == s.host.upstream && r.host.downstream == s.host.downstream + LetOut(s, ev)
  {
    if ev.ResponseData? {
      var a := ArriveResponse(s, ev.data);
      ReplacedAndReleased(a, |a.host.responseBuffer|, ev.env);
      assert Step(s, ev) == ReleaseResponse(OnHttpResponseBody(a, |a.host.responseBuffer|, ev.end, ev.env));
    } else {
      ReplacedAndReleased(s, s.bodyReadIndex, ev.env);
      assert s.host.responseBuffer + [] == s.host.responseBuffer;
      assert Step(s, ev) == ReleaseResponse(OnHttpResponseBody(s, s.bodyReadIndex, true, ev.env));
    }
  }

  lemma SealedOtherwise(s: Stream, ev: Event)
    requires StreamInv(s) && s.interruptedAt != NoPhase && Enabled(s, ev) && !IsResponseBody(ev)
    ensures var r := Step(s, ev);
            && r.interruptedAt == s.interruptedAt
            && r.host.upstream == s.host.upstream && r.host.downstream == s.host.downstream
  {
    match ev
    case RequestData(data, end, env) =>
      var a := ArriveRequest(s, data);
      assert OnHttpRequestBody(a, |a.host.requestBuffer|, end, env) == (a, Pause);
    case RequestTrailers(env) => assert OnHttpRequestBody(s, s.bodyReadIndex, true, env) == (s, Pause);
    case Done(env) => DoneEffect(s.(host := s.host.(done := true)), env);
    case _ =>
  }

  // ---- the event that interrupts ----

  /** The response body was interrupted, if it was, as it should be: the buffer is replaced and released. */
  predicate StoppedInBody(s: Stream, r: Stream, a: Action, env: Answers) {
    r.interruptedAt != NoPhase ==>
      && r.interruptedAt == ResponseBodyPhase && a == Continue
      && r.host.downstream == s.host.downstream && r.host.upstream == s.host.upstream
      && r.host.responseBuffer == if env.replaceOk then Nulls(r.bodyReadIndex) else s.host.responseBuffer
  }

  lemma ResponseBodyStops(s: Stream, size: nat, end: bool, env: Answers)
    requires s.interruptedAt == NoPhase
    ensures var r := OnHttpResponseBody(s, size, end, env); StoppedInBody(s, r.0, r.1, env)
  {
    hide OnHttpResponseBody;
    if s.tx.Some? {
      ResponseBodyDoes(s, size, end, env);
    } else {
      WithoutEngineDo(s, size, end, env);
    }
  }

  /** The index with which a response body is interrupted. */
  lemma StoppedIndex(s: Stream, size: nat, end: bool, env: Answers)
    requires s.interruptedAt == NoPhase && OnHttpResponseBody(s, size, end, env).0.interruptedAt != NoPhase
    ensures OnHttpResponseBody(s, size, end, env).0.bodyReadIndex ==
              if !env.bodyAccess || !env.bodyProcessable then size
              else s.bodyReadIndex + if size > s.bodyReadIndex && env.read.Some? then |ResponseChunk(s, size, env)| else 0
    ensures s.tx.Some? && !s.processedResponseBody && !s.tx.value.off && !env.engineOff
  {
    hide OnHttpResponseBody;
    if s.tx.Some? {
      ResponseBodyDoes(s, size, end, env);
    } else {
      WithoutEngineDo(s, size, end, env);
    }
  }

  // ---- no other event interrupts the response body ----

  lemma RequestBodyRaises(s: Stream, size: nat, end: bool, env: Answers)
    requires s.interruptedAt == NoPhase
    ensures OnHttpRequestBody(s, size, end, env).0.interruptedAt in {NoPhase, RequestBodyPhase}
  {
    hide OnHttpRequestBody;
    if s.tx.Some? {
      RequestBodyDoes(s, size, end, env);
    } else {
      WithoutEngineDo(s, size, end, env);
    }
  }

  lemma ResponseHeadersRaise(s: Stream, env: Answers)
    requires s.interruptedAt == NoPhase
    ensures OnHttpResponseHeaders(s, env).0.interruptedAt in {NoPhase, ResponseHeadersPhase}
  {
    hide OnHttpResponseHeaders;
    if s.tx.Some? {
      ResponseHeadersDo(s, env);
    } else {
      WithoutEngineDo(s, 0, false, env);
    }
  }

  /** Which phase an event can interrupt. */
  function PhaseOfEvent(ev: Event): Phase {
    match ev
    case RequestHeaders(_) => RequestHeadersPhase
    case RequestData(_, _, _) => RequestBodyPhase
    case RequestTrailers(_) => RequestBodyPhase
    case ResponseHeaders(_) => ResponseHeadersPhase
    case ResponseData(_, _, _) => ResponseBodyPhase
    case ResponseTrailers(_) => ResponseBodyPhase
    case Done(_) => NoPhase
  }

  /** An event interrupts its own phase only; before the response body this releases nothing. */
  lemma EarlyInterruption(s: Stream, ev: Event)
    requires StreamInv(s) && s.interruptedAt == NoPhase && Enabled(s, ev) && !IsResponseBody(ev)
    requires Step(s, ev).interruptedAt != NoPhase
    ensures var r := Step(s, ev);
            && r.interruptedAt == PhaseOfEvent(ev)
            && r.host.upstream == s.host.upstream && r.host.downstream == s.host.downstream
  {
    hide OnHttpRequestHeaders, OnHttpRequestBody, OnHttpResponseHeaders;
    match ev
    case RequestHeaders(env) =>
      RequestHeadersDo(s.(host := s.host.(requestHeadersSeen := true)), env);
      RequestHeadersEffect(s.(host := s.host.(requestHeadersSeen := true)), env);
    case RequestData(data, end, env) =>
      var a := ArriveRequest(s, data);
      RequestBodyRaises(a, |a.host.requestBuffer|, end, env);
      RequestBodyEffect(a, |a.host.requestBuffer|, end, env);
    case RequestTrailers(env) =>
      RequestBodyRaises(s, s.bodyReadIndex, true, env);
      RequestBodyEffect(s, s.bodyReadIndex, true, env);
    case ResponseHeaders(env) =>
      ResponseHeadersRaise(s.(host := s.host.(responseHeadersSeen := true)), env);
      ResponseHeadersEffect(s.(host := s.host.(responseHeadersSeen := true)), env);
    case Done(_) =>
  }

  lemma CoveredByData(s: Stream, ev: Event)
    requires StreamInv(s) && s.interruptedAt == NoPhase && Enabled(s, ev) && ev.ResponseData?
    requires var a := ArriveResponse(s, ev.data);
             OnHttpResponseBody(a, |a.host.responseBuffer|, ev.end, ev.env).0.interruptedAt != NoPhase
    ensures var a := ArriveResponse(s, ev.data);
            OnHttpResponseBody(a, |a.host.responseBuffer|, ev.end, ev.env).0.bodyReadIndex == Covered(s, ev)
  {
    hide OnHttpResponseBody;
    var a := ArriveResponse(s, ev.data);
    StoppedIndex(a, |a.host.responseBuffer|, ev.end, ev.env);
    ChunksRead(a, ev.env);
    assert s.bodyReadIndex == Entry(s) + |ShareBack(s)|;
  }

  /**
   The event that interrupts the response body lets out null bytes in place of what is waiting, as many as are
   covered; or what is waiting itself, if the host refuses the replacement.
   */
  lemma BodyInterruption(s: Stream, ev: Event)
    requires StreamInv(s) && s.interruptedAt == NoPhase && Enabled(s, ev) && IsResponseBody(ev)
    requires Step(s, ev).interruptedAt != NoPhase
    ensures var r := Step(s, ev);
            && r.interruptedAt == ResponseBodyPhase && r.host.upstream == s.host.upstream
            && r.host.downstream
               == s.host.downstream + (if ev.env.replaceOk then Nulls(Covered(s, ev)) else Waiting(s, ev))
            && r.bodyReadIndex == Covered(s, ev)
  {
    hide OnHttpResponseBody, Covered;
    if ev.ResponseData? {
      var a := ArriveResponse(s, ev.data);
      ResponseBodyStops(a, |a.host.responseBuffer|, ev.end, ev.env);
      assert Step(s, ev) == ReleaseResponse(OnHttpResponseBody(a, |a.host.responseBuffer|, ev.end, ev.env));
      CoveredByData(s, ev);
    } else {
      ResponseBodyStops(s, s.bodyReadIndex, true, ev.env);
      StoppedIndex(s, s.bodyReadIndex, true, ev.env);
      CoveredByTrailers(s, ev);
      assert s.host.responseBuffer + [] == s.host.responseBuffer;
    }
  }

  lemma CoveredByTrailers(s: Stream, ev: Event)
    requires ResponseFaithful(s) && s.tx.Some? && s.interruptedAt == NoPhase && !s.processedResponseBody && ev.ResponseTrailers?
    ensures Covered(s, ev) == s.bodyReadIndex
  {}

  /** A body that is interrupted without inspection is replaced byte for byte. */
  lemma UninspectedInFull(s: Stream, ev: Event)
    requires Reachable(s) && s.interruptedAt == NoPhase && Enabled(s, ev) && ev.ResponseData?
    requires Step(s, ev).interruptedAt != NoPhase && ev.env.replaceOk && (!ev.env.bodyAccess || !ev.env.bodyProcessable)
    ensures Step(s, ev).host.downstream == s.host.downstream + Nulls(|s.host.responseBuffer| + |ev.data|)
  {
    ReachableKeeps(s);
    BodyInterruption(s, ev);
  }

  /** An inspected one is covered to its end exactly if the last read was complete. */
  lemma CoveredInFull(s: Stream, ev: Event)
    requires ev.ResponseData? && ev.env.bodyAccess && ev.env.bodyProcessable
    ensures Covered(s, ev) >= |Waiting(s, ev)| <==> ReadComplete(|Waiting(s, ev)| - (Entry(s) + |ShareBack(s)|), ev.env)
  {}

  /** From the event that interrupts on, every event lets out exactly that. */
  lemma SealedStep(s: Stream, ev: Event)
    requires Reachable(s) && Step(s, ev).interruptedAt != NoPhase
    ensures var r := Step(s, ev);
            && r.interruptedAt == (if s.interruptedAt == NoPhase then PhaseOfEvent(ev) else s.interruptedAt)
            && r.host.upstream == s.host.upstream && r.host.downstream == s.host.downstream + LetOut(s, ev)
    ensures AllNull(LetOut(s, ev)) <==> !Leaks(s, ev)
  {
    LetOutNull(s, ev);
    if s.interruptedAt != NoPhase {
      InterruptionSeals(s, ev);
    } else {
      ReachableKeeps(s);
      assert s.host.downstream + [] == s.host.downstream;
      if IsResponseBody(ev) {
        BodyInterruption(s, ev);
      } else {
        EarlyInterruption(s, ev);
      }
    }
  }

  // ---- over whole runs ----

  function LetOutBy(s: Stream, events: seq<Event>): seq<Octet> {
    if events == [] then []
    else LetOutBy(s, events[..|events| - 1]) + LetOut(Run(s, events[..|events| - 1]), events[|events| - 1])
  }

  predicate NeverLeaks(s: Stream, events: seq<Event>) {
    events != [] ==> NeverLeaks(s, events[..|events| - 1]) && !Leaks(Run(s, events[..|events| - 1]), events[|events| - 1])
  }

  lemma AllNullJoins(a: seq<Octet>, b: seq<Octet>)
    ensures AllNull(a + b) <==> AllNull(a) && AllNull(b)
  {
    assert forall o :: o in a ==> o in a + b;
    assert forall o :: o in b ==> o in a + b;
  }

  lemma LetOutNull(s: Stream, ev: Event)
    ensures AllNull(LetOut(s, ev)) <==> !Leaks(s, ev)
  {}

  /**
   Over any continuation of a run: an interruption keeps its phase, nothing more goes upstream, and what the
   client still receives is null bytes only, exactly if no replacement was refused while something of the
   server's was waiting.
   */
  lemma {:induction false} InterruptionStays(s: Stream, events: seq<Event>)
    requires Reachable(s) && s.interruptedAt != NoPhase
    ensures var r := Run(s, events);
            && Reachable(r) && r.interruptedAt == s.interruptedAt && r.host.upstream == s.host.upstream
            && r.host.downstream == s.host.downstream + LetOutBy(s, events)
            && (AllNull(LetOutBy(s, events)) <==> NeverLeaks(s, events))
  {
    if events == [] {
      assert s.host.downstream + [] == s.host.downstream;
    } else {
      var front, last := events[..|events| - 1], events[|events| - 1];
      InterruptionStays(s, front);
      InterruptionSeals(Run(s, front), last);
      AllNullJoins(LetOutBy(s, front), LetOut(Run(s, front), last));
      LetOutNull(Run(s, front), last);
      Associates(s.host.downstream, LetOutBy(s, front), LetOut(Run(s, front), last));
    }
  }

  /** The number of the event that interrupts. */
  function InterruptedBy(start: Stream, events: seq<Event>): nat {
    if events == [] then 0
    else if Run(start, events[..|events| - 1]).interruptedAt == NoPhase then |events| - 1
    else InterruptedBy(start, events[..|events| - 1])
  }

  /** No event from number `i` on leaks. */
  predicate NoLeakFrom(start: Stream, events: seq<Event>, i: nat) {
    forall k :: i <= k < |events| ==> !Leaks(Run(start, events[..k]), events[k])
  }

  lemma NoLeakNext(start: Stream, events: seq<Event>, i: nat)
    requires events != [] && i < |events|
    ensures var n := |events| - 1;
            NoLeakFrom(start, events, i) <==> NoLeakFrom(start, events[..n], i) && !Leaks(Run(start, events[..n]), events[n])
  {
    hide Run, Leaks;
    var n := |events| - 1;
    forall k | i <= k < n
      ensures Leaks(Run(start, events[..n][..k]), events[..n][k]) == Leaks(Run(start, events[..k]), events[k])
    {
      assert events[..n][..k] == events[..k];
    }
  }

  /** What the client has received from the interrupting event `i` on is null bytes, exactly if no event leaked. */
  predicate SealedFrom(start: Stream, events: seq<Event>, i: nat)
    requires i < |events|
  {
    var s, r := Run(start, events[..i]), Run(start, events);
    && s.host.upstream == r.host.upstream && s.host.downstream <= r.host.downstream
    && (AllNull(r.host.downstream[|s.host.downstream|..]) <==> NoLeakFrom(start, events, i))
  }

  /**
   In every run that is interrupted: one event interrupts, in its own phase, which then never changes. From
   that event on, itself included, nothing more goes upstream, and the client receives null bytes only,
   exactly if no event meets a refused replacement while something of the server's is waiting.
   */
  lemma {:induction false} InterruptionIsFinal(wafs: WafMap, policy: FailurePolicy, labels: seq<string>, events: seq<Event>)
    requires Run(NewStream(wafs, policy, labels), events).interruptedAt != NoPhase
    ensures var start := NewStream(wafs, policy, labels);
            var i := InterruptedBy(start, events);
            && i < |events| && Run(start, events[..i]).interruptedAt == NoPhase
            && Run(start, events).interruptedAt == PhaseOfEvent(events[i])
            && SealedFrom(start, events, i)
  {
    hide Step, LetOut, Leaks, SealedFrom, PhaseOfEvent, AllNull;
    var start := NewStream(wafs, policy, labels);
    var front, n := events[..|events| - 1], |events| - 1;
    var s := Run(start, front);
    SealedStep(s, events[n]);
    if s.interruptedAt == NoPhase {
      SealStarts(start, events);
    } else {
      InterruptionIsFinal(wafs, policy, labels, front);
      var i := InterruptedBy(start, front);
      assert front[..i] == events[..i];
      SealContinues(start, events, i);
    }
  }

  lemma SealStarts(start: Stream, events: seq<Event>)
    requires events != []
    requires var n := |events| - 1; var s, r := Run(start, events[..n]), Run(start, events);
             && r.host.upstream == s.host.upstream && r.host.downstream == s.host.downstream + LetOut(s, events[n])
             && (AllNull(LetOut(s, events[n])) <==> !Leaks(s, events[n]))
    ensures SealedFrom(start, events, |events| - 1)
  {
    hide Run, Leaks, LetOut;
    var n := |events| - 1;
    NoLeakNext(start, events, n);
    var s, r := Run(start, events[..n]), Run(start, events);
    assert r.host.downstream[|s.host.downstream|..] == LetOut(s, events[n]);
  }

  lemma SealContinues(start: Stream, events: seq<Event>, i: nat)
    requires events != [] && i < |events| - 1 && SealedFrom(start, events[..|events| - 1], i)
    requires var n := |events| - 1; var s, r := Run(start, events[..n]), Run(start, events);
             && r.host.upstream == s.host.upstream && r.host.downstream == s.host.downstream + LetOut(s, events[n])
             && (AllNull(LetOut(s, events[n])) <==> !Leaks(s, events[n]))
    ensures SealedFrom(start, events, i)
  {
    hide Run, Leaks, LetOut, AllNull;
    var n := |events| - 1;
    assert events[..n][..i] == events[..i];
    NoLeakNext(start, events, i);
    var s, m, r := Run(start, events[..i]), Run(start, events[..n]), Run(start, events);
    var d := |s.host.downstream|;
    assert r.host.downstream[d..] == m.host.downstream[d..] + LetOut(m, events[n]);
    AllNullJoins(m.host.downstream[d..], LetOut(m, events[n]));
  }

  lemma Associates<T>(a: seq<T>, b: seq<T>, c: seq<T>)
    ensures (a + b) + c == a + (b + c)
  {}
}
