/**
 What wasmplugin/plugin.go promises about a stream, for every run: every order of callbacks the host
 may choose, every chunking, every answer of the engine and every failure of the host.
 */
module HttpGuarantees {
  import opened Prelude
  import opened Wafs
  import opened HttpStream
  import opened HttpTrace
  import opened HttpInvariant
  import opened HttpBodies
  import opened HttpSafety
  import opened HttpRuns
  import opened HttpFeeding
  import opened HttpAlignment

  /** The states some run leads to. */
  ghost predicate Reachable(s: Stream) {
    exists wafs, policy, labels, events :: s == Run(NewStream(wafs, policy, labels), events)
  }

  lemma ReachableEnds(s: Stream) returns (h: History)
    requires Reachable(s)
    ensures End(h) == s
  {
    var wafs, policy, labels, events :| s == Run(NewStream(wafs, policy, labels), events);
    h := RunsAreHistories(wafs, policy, labels, events);
  }

  lemma ReachableKeeps(s: Stream)
    requires Reachable(s)
    ensures StreamInv(s)
  {
    var wafs, policy, labels, events :| s == Run(NewStream(wafs, policy, labels), events);
    RunKeeps(wafs, policy, labels, events);
  }

  // ---- what is released, and when ----

  /**
   With the engine on and no error, the client has received a byte of the server's body only if the
   response-body phase has passed (or its limit was reached) and nothing has been interrupted; in
   particular an interruption in any phase means that it never received one.
   */
  lemma ResponseSafety(s: Stream)
    requires Reachable(s) && Healthy(s)
    ensures !AllNull(s.host.downstream) ==> s.interruptedAt == NoPhase && ResponseCleared(s.tx.value.trace)
  {
    ReachableKeeps(s);
  }

  /** With the engine on and no error, a byte goes upstream only after the request-body phase has passed. */
  lemma RequestSafety(s: Stream)
    requires Reachable(s) && Healthy(s)
    ensures s.host.upstream != [] ==> RequestCleared(s.tx.value.trace)
  {
    ReachableKeeps(s);
  }

  /** As long as nothing is interrupted, bytes are only delayed: none is lost, added or reordered. */
  lemma NothingLost(s: Stream)
    requires Reachable(s)
    ensures s.host.upstream + s.host.requestBuffer == s.host.requestArrived
    ensures s.interruptedAt == NoPhase ==> s.host.downstream + s.host.responseBuffer == Lift(s.host.responseArrived)
  {
    ReachableKeeps(s);
  }

  lemma StepReachable(s: Stream, ev: Event)
    requires Reachable(s)
    ensures Reachable(Step(s, ev))
  {
    var wafs, policy, labels, events :| s == Run(NewStream(wafs, policy, labels), events);
    var start := NewStream(wafs, policy, labels);
    assert (events + [ev])[..|events|] == events;
    assert Step(s, ev) == Run(start, events + [ev]);
  }

  // ---- in which order the engine is asked ----

  function Calls(t: Trace): seq<Call> {
    if t.Empty? then [] else Calls(t.earlier) + [t.last]
  }

  lemma {:induction false} FloorBoundsCalls(t: Trace)
    ensures forall i :: 0 <= i < |Calls(t)| ==> Floor(Calls(t)[i]) <= FloorOf(t)
  {
    if t.Then? {
      FloorBoundsCalls(t.earlier);
    }
  }

  lemma {:induction false} OrderedCalls(t: Trace)
    requires Ordered(t)
    ensures forall i, j :: 0 <= i < j < |Calls(t)| ==> Floor(Calls(t)[i]) <= Rank(Calls(t)[j])
  {
    if t.Then? {
      OrderedCalls(t.earlier);
      FloorBoundsCalls(t.earlier);
    }
  }

  /** A response-body phase that failed is the one call of a phase that may be made again. */
  predicate MayRepeat(c: Call) {
    IsWrite(c) || c == ProcessResponseBody(EngineError)
  }

  /**
   Of any two calls, the later one belongs to a later phase, except that chunks of one body follow
   each other and that a failed response-body phase may be tried again. After an interruption only
   logging follows; after a chunk that reached the limit, that body's phase is over.
   */
  lemma PhaseOrder(s: Stream, i: nat, j: nat)
    requires Reachable(s) && s.tx.Some? && i < j < |Calls(s.tx.value.trace)|
    ensures var a, b := Calls(s.tx.value.trace)[i], Calls(s.tx.value.trace)[j];
            && (!MayRepeat(a) ==> Rank(a) < Rank(b))
            && (IsWrite(a) ==> Rank(a) <= Rank(b))
            && (a.ProcessResponseBody? ==> b.WriteResponseBody? || b.ProcessResponseBody? || Rank(b) > 6)
            && (StopOf(a).Some? ==> b.ProcessLogging? || b.CloseTransaction?)
            && (LimitReached(a) ==> Rank(b) > Rank(a) + 1)
  {
    ReachableKeeps(s);
    OrderedCalls(s.tx.value.trace);
    assert Floor(Calls(s.tx.value.trace)[i]) <= Rank(Calls(s.tx.value.trace)[j]);
  }

  /** The request-body phase is asked for at most once, and the response-body phase completes at most once. */
  lemma BodyPhasesRunOnce(s: Stream, i: nat, j: nat)
    requires Reachable(s) && s.tx.Some?
    requires i < |Calls(s.tx.value.trace)| && j < |Calls(s.tx.value.trace)|
    ensures var a, b := Calls(s.tx.value.trace)[i], Calls(s.tx.value.trace)[j];
            && (a.ProcessRequestBody? && b.ProcessRequestBody? ==> i == j)
            && (a.ProcessResponseBody? && b.ProcessResponseBody? && !a.verdict.EngineError? && !b.verdict.EngineError? ==> i == j)
  {
    if i < j { PhaseOrder(s, i, j); }
    if j < i { PhaseOrder(s, j, i); }
  }

  /**
   No phase is skipped. At the end of a stream that was not interrupted and whose engine is on, the
   response-body phase has been run, the request-body phase too if the response began, and in any case
   the transaction is logged and then closed.
   */
  lemma DoneCompletes(s: Stream, env: Answers)
    requires Reachable(s) && Enabled(s, Done(env)) && s.tx.Some?
    ensures var r := Step(s, Done(env));
            && r.tx.Some? && r.tx.value.trace.Then? && r.tx.value.trace.last == CloseTransaction
            && r.tx.value.trace.earlier.Then? && r.tx.value.trace.earlier.last == ProcessLogging
            && (r.interruptedAt == NoPhase && !r.tx.value.off ==>
                  && ResponseRan(r.tx.value.trace)
                  && (s.host.responseHeadersSeen ==> RequestRan(r.tx.value.trace)))
  {
    ReachableKeeps(s);
    var s1 := SeeEngine(s.(host := s.host.(done := true)), env);
    var r := Step(s, Done(env));
    if !s1.tx.value.off && s.interruptedAt == NoPhase && !s.processedResponseBody {
      var s2 := Record(s1.(processedResponseBody := true), ProcessResponseBody(env.body));
      assert r == Record(Record(s2, ProcessLogging), CloseTransaction);
    } else {
      assert r == Record(Record(s1, ProcessLogging), CloseTransaction);
    }
  }

  // ---- what the engine has seen ----

  /**
   Until the request phase closes, the engine holds exactly the body up to the read index, no gap and no
   repeat, for any chunking and repeated callbacks; bytes that were released because the engine was off do
   not disturb that. Only an error that "allow" let through can, see RequestShareIff in HttpAlignment.
   */
  lemma RequestChunksFaithful(s: Stream)
    requires Reachable(s) && s.tx.Some? && !s.processedRequestBody
    requires s.host.upstream == [] || NoneLetThrough(s)
    ensures s.bodyReadIndex <= |s.host.requestArrived|
    ensures RequestFed(s.tx.value.trace) == s.host.requestArrived[..s.bodyReadIndex]
  {
    ReachableKeeps(s);
    if s.host.upstream == [] {
      assert s.host.requestArrived == s.host.requestBuffer;
    } else {
      var h := ReachableEnds(s);
      BlockedErrorsKeepShares(h);
    }
  }

  // ---- the end of the request's body ----

  /** The request is being inspected: its phase is open, the engine is on and has access to bodies. */
  predicate Inspecting(s: Stream, env: Answers) {
    InspectsRequest(s, env) && s.host.upstream == []
  }

  /** What is left to read when the last data arrives. */
  function LeftToRead(s: Stream, data: seq<Byte>): int {
    |s.host.requestArrived + data| - s.bodyReadIndex
  }

  /** The last chunk is read, perhaps in part, and what was read is written in full. */
  predicate LastChunkTaken(left: int, env: Answers) {
    left > 0 ==> env.read.Some? && env.write.Wrote? && (env.write.n >= left || env.write.n >= env.read.value)
  }

  /** The read gives all that is left. */
  predicate ReadComplete(left: int, env: Answers) {
    left > 0 ==> env.read.Some? && env.read.value >= left
  }

  /**
   At the end of the stream the phase runs on everything the engine has been given. That is the whole body
   exactly if the last read was complete, the plugin only warns if it was not; and if the phase passes, the
   whole body is released.
   */
  lemma EndOfStreamSeesWholeBody(s: Stream, data: seq<Byte>, env: Answers)
    requires Reachable(s) && Enabled(s, RequestData(data, true, env)) && Inspecting(s, env)
    requires LastChunkTaken(LeftToRead(s, data), env)
    ensures var r := Step(s, RequestData(data, true, env));
            && r.tx.Some? && r.tx.value.trace.Then?
            && r.tx.value.trace.last == ProcessRequestBody(EndOfStream, env.body)
            && (RequestFed(r.tx.value.trace) == s.host.requestArrived + data <==> ReadComplete(LeftToRead(s, data), env))
            && (env.body.Clean? ==> r.host.upstream == s.host.requestArrived + data)
  {
    ReachableKeeps(s);
    ArriveRequestKeeps(s, data);
    var s1 := ArriveRequest(s, data);
    assert s1.host.requestBuffer == s.host.requestArrived + data;
    LastChunkRuns(s1, env);
    RequestDataStep(s, data, true, env);
  }

  lemma RequestDataStep(s: Stream, data: seq<Byte>, end: bool, env: Answers)
    requires Enabled(s, RequestData(data, end, env))
    ensures var s1 := ArriveRequest(s, data);
            var r := OnHttpRequestBody(s1, |s1.host.requestBuffer|, end, env);
            Step(s, RequestData(data, end, env)) == ReleaseRequest(r) && ReleaseRequest(r).tx == r.0.tx
  {}

  /** The callback at the end of the stream, on a stream whose data has arrived. */
  lemma LastChunkRuns(s: Stream, env: Answers)
    requires Inspecting(s, env) && RequestFaithful(s)
    requires LastChunkTaken(|s.host.requestBuffer| - s.bodyReadIndex, env)
    ensures var r := OnHttpRequestBody(s, |s.host.requestBuffer|, true, env);
            && r.0.tx.Some? && r.0.tx.value.trace.Then?
            && r.0.tx.value.trace.last == ProcessRequestBody(EndOfStream, env.body)
            && (RequestFed(r.0.tx.value.trace) == s.host.requestBuffer <==>
                  ReadComplete(|s.host.requestBuffer| - s.bodyReadIndex, env))
            && (env.body.Clean? ==> r.1 == Continue && r.0.host == s.host)
  {
    var s1 := SeeEngine(s, env);
    FeedLast(s1, env);
    var f := FeedRequestBody(s1, |s.host.requestBuffer|, env);
    var s2 := f.s.(bodyReadIndex := 0);
    EndTrace(s2, env);
    assert OnHttpRequestBody(s, |s.host.requestBuffer|, true, env) == RunRequestBody(s2, EndOfStream, RequestBodyPhase, env);
  }

  lemma FeedLast(s: Stream, env: Answers)
    requires s.tx.Some? && !s.processedRequestBody && s.host.upstream == [] && RequestFaithful(s)
    requires LastChunkTaken(|s.host.requestBuffer| - s.bodyReadIndex, env)
    ensures var f := FeedRequestBody(s, |s.host.requestBuffer|, env);
            && f.Proceed? && f.s.host == s.host && f.s.tx.Some?
            && (RequestFed(f.s.tx.value.trace) == s.host.requestBuffer <==>
                  ReadComplete(|s.host.requestBuffer| - s.bodyReadIndex, env))
  {
    var body, i := s.host.requestBuffer, s.bodyReadIndex;
    if i < |body| {
      var chunk := ReadBuffer(body, i, |body| - i, env.read.value);
      ReadExtendsPrefix(body, i, |body| - i, env.read.value);
      assert FeedRequestBody(s, |body|, env) == WriteRequestChunk(s, chunk, env);
      assert i + |chunk| == |body| <==> env.read.value >= |body| - i;
      assert body[..i + |chunk|] == body <==> i + |chunk| == |body|;
    } else {
      assert body[..i] == body;
    }
  }

  lemma EndTrace(s: Stream, env: Answers)
    requires s.tx.Some?
    ensures var r := RunRequestBody(s, EndOfStream, RequestBodyPhase, env);
            && r.0.tx.Some? && r.0.tx.value.trace == Then(s.tx.value.trace, ProcessRequestBody(EndOfStream, env.body))
            && (env.body.Clean? ==> r.1 == Continue && r.0.host == s.host)
  {}

  /**
   Trailers end a stream without another read: the phase then runs on the body up to the read index, which
   is the whole body exactly if nothing in the buffer is unread; if the phase passes, all of it is released.
   */
  lemma TrailersSeeWholeBody(s: Stream, env: Answers)
    requires Reachable(s) && Enabled(s, RequestTrailers(env)) && Inspecting(s, env)
    ensures var r := Step(s, RequestTrailers(env));
            && r.tx.Some? && r.tx.value.trace.Then?
            && r.tx.value.trace.last == ProcessRequestBody(EndOfStream, env.body)
            && s.bodyReadIndex <= |s.host.requestArrived|
            && RequestFed(r.tx.value.trace) == s.host.requestArrived[..s.bodyReadIndex]
            && (RequestFed(r.tx.value.trace) == s.host.requestArrived <==> s.bodyReadIndex == |s.host.requestBuffer|)
            && (env.body.Clean? ==> r.host.upstream == s.host.requestArrived)
  {
    ReachableKeeps(s);
    var s1 := SeeEngine(s, env);
    assert FeedRequestBody(s1, s.bodyReadIndex, env) == Proceed(s1);
    var s2 := s1.(bodyReadIndex := 0);
    EndTrace(s2, env);
    var r := RunRequestBody(s2, EndOfStream, RequestBodyPhase, env);
    assert OnHttpRequestBody(s, s.bodyReadIndex, true, env) == r;
    assert Step(s, RequestTrailers(env)) == ReleaseRequest(r);
    var body := s.host.requestArrived;
    assert body == s.host.requestBuffer;
    assert body[..s.bodyReadIndex] == body <==> s.bodyReadIndex == |body|;
  }

  // ---- the response ----

  /**
   On the response side the engine holds the body from the entry index on. The index it shares with
   the request is 0 there exactly when the request ended at its end of stream or no non-empty chunk of
   it was fully accepted; only then has the engine seen the response from its first byte.
   */
  lemma ResponseChunksFromEntry(s: Stream)
    requires Reachable(s) && s.tx.Some? && !s.processedResponseBody && s.interruptedAt == NoPhase
    requires s.host.downstream == [] || NoneLetThrough(s)
    ensures var t, e := s.tx.value.trace, EntryIndex(s.tx.value.trace);
            && s.bodyReadIndex == e + |ResponseFed(t)|
            && (ResponseFed(t) != [] ==>
                  s.bodyReadIndex <= |s.host.responseArrived| && ResponseFed(t) == s.host.responseArrived[e..s.bodyReadIndex])
            && (e == 0 <==> EndSeen(t) || RequestFed(t) == [])
            && (|ResponseFed(t)| == s.bodyReadIndex <==> EndSeen(t) || RequestFed(t) == [])
  {
    ReachableKeeps(s);
    if s.host.downstream == [] {
      BufferHoldsArrived(s);
    } else {
      var h := ReachableEnds(s);
      BlockedErrorsKeepShares(h);
    }
  }

  lemma BufferHoldsArrived(s: Stream)
    requires Conserved(s) && s.interruptedAt == NoPhase && s.host.downstream == []
    ensures Content(s.host.responseBuffer) == s.host.responseArrived
  {
    hide Lift, Content;
    var b := s.host.responseBuffer;
    assert [] + b == b;
    LiftedContent(s.host.responseArrived);
  }

  // ---- the end of the response's body ----

  /** What is left to read when the last data of a response arrives. */
  function LeftToReadBack(s: Stream, data: seq<Byte>): int {
    |s.host.responseArrived + data| - s.bodyReadIndex
  }

  /** `share` is the body from the entry index on. */
  predicate HoldsRest(share: seq<Byte>, body: seq<Byte>, entry: nat) {
    if entry <= |body| then share == body[entry..] else share == []
  }

  /** The response is being inspected and nothing of it has left. */
  predicate InspectingBack(s: Stream, env: Answers) {
    InspectsResponse(s, env) && s.host.downstream == []
  }

  lemma ReadOfRest(body: seq<Byte>, share: seq<Byte>, entry: nat, index: nat, chunk: seq<Byte>)
    requires index == entry + |share| && index + |chunk| <= |body| && chunk == body[index..index + |chunk|]
    requires share != [] ==> share == body[entry..index]
    ensures HoldsRest(share + chunk, body, entry) <==> index + |chunk| == |body|
  {
    if share == [] {
      assert share + chunk == chunk;
    } else {
      assert share + chunk == body[entry..index + |chunk|];
    }
  }

  lemma NothingLeftToRead(body: seq<Byte>, share: seq<Byte>, entry: nat, index: nat)
    requires index == entry + |share| && (share != [] ==> index <= |body| && share == body[entry..index])
    ensures HoldsRest(share, body, entry) <==> index >= |body|
  {}

  lemma ChunkBack(octets: seq<Octet>, i: nat, size: nat, atMost: nat)
    requires i + size == |octets|
    ensures var chunk := Content(ReadBuffer(octets, i, size, atMost));
            |chunk| == (if size <= atMost then size else atMost) && chunk == Content(octets)[i..i + |chunk|]
  {}

  /** The last chunk of a response, on a stream whose data has arrived. */
  lemma FeedLastBack(s: Stream, env: Answers)
    requires s.tx.Some? && !s.processedResponseBody && s.interruptedAt == NoPhase && s.host.downstream == [] && ResponseFaithful(s)
    requires LastChunkTaken(|s.host.responseBuffer| - s.bodyReadIndex, env)
    ensures var f := FeedResponseBody(s, |s.host.responseBuffer|, env);
            && f.Proceed? && f.s.host == s.host && f.s.tx.Some?
            && EntryIndex(f.s.tx.value.trace) == EntryIndex(s.tx.value.trace)
            && (HoldsRest(ResponseFed(f.s.tx.value.trace), Content(s.host.responseBuffer), EntryIndex(s.tx.value.trace)) <==>
                  ReadComplete(|s.host.responseBuffer| - s.bodyReadIndex, env))
  {
    var body, i, t := Content(s.host.responseBuffer), s.bodyReadIndex, s.tx.value.trace;
    if i < |body| {
      var chunk := Content(ReadBuffer(s.host.responseBuffer, i, |body| - i, env.read.value));
      ChunkBack(s.host.responseBuffer, i, |body| - i, env.read.value);
      ReadOfRest(body, ResponseFed(t), EntryIndex(t), i, chunk);
      assert FeedResponseBody(s, |body|, env) == WriteResponseChunk(s, chunk, env);
    } else {
      NothingLeftToRead(body, ResponseFed(t), EntryIndex(t), i);
    }
  }

  lemma EndTraceBack(s: Stream, env: Answers)
    requires s.tx.Some?
    ensures var r := RunResponseBody(s, env);
            && r.0.tx.Some? && r.0.tx.value.trace == Then(s.tx.value.trace, ProcessResponseBody(env.body))
            && (env.body.Clean? ==> r.1 == Continue && r.0.host == s.host)
  {}

  /** How a response that has come to its end was inspected. */
  predicate EndInspected(s: Stream, r: Stream, body: seq<Byte>, complete: bool, env: Answers) {
    && s.tx.Some? && r.tx.Some? && r.tx.value.trace.Then? && r.tx.value.trace.last == ProcessResponseBody(env.body)
    && EntryIndex(r.tx.value.trace) == EntryIndex(s.tx.value.trace)
    && (HoldsRest(ResponseFed(r.tx.value.trace), body, EntryIndex(s.tx.value.trace)) <==> complete)
    && (env.body.Clean? ==> r.host.downstream == Lift(body))
  }

  /**
   At the end of a response the phase runs on the body from the entry index on, exactly if the last read was
   complete, which the plugin only warns about; and if the phase passes, the whole body is released.
   */
  lemma EndOfResponseSeesRest(s: Stream, data: seq<Byte>, env: Answers)
    requires Reachable(s) && Enabled(s, ResponseData(data, true, env)) && InspectingBack(s, env)
    requires LastChunkTaken(LeftToReadBack(s, data), env)
    ensures EndInspected(s, Step(s, ResponseData(data, true, env)), s.host.responseArrived + data,
                         ReadComplete(LeftToReadBack(s, data), env), env)
  {
    ReachableKeeps(s);
    ArriveResponseKeeps(s, data);
    var a := ArriveResponse(s, data);
    BufferHoldsArrived(a);
    var s1 := SeeEngine(a, env);
    var size := |a.host.responseBuffer|;
    FeedLastBack(s1, env);
    var f := FeedResponseBody(s1, size, env);
    EndTraceBack(f.s, env);
    var r := RunResponseBody(f.s, env);
    assert OnHttpResponseBody(a, size, true, env) == r;
    assert Step(s, ResponseData(data, true, env)) == ReleaseResponse(r);
    assert [] + a.host.responseBuffer == a.host.responseBuffer;
  }

  /** Trailers end a response without another read, so the phase runs on all of that exactly if nothing is unread. */
  lemma ResponseTrailersSeeRest(s: Stream, env: Answers)
    requires Reachable(s) && Enabled(s, ResponseTrailers(env)) && InspectingBack(s, env)
    ensures EndInspected(s, Step(s, ResponseTrailers(env)), s.host.responseArrived,
                         s.bodyReadIndex >= |s.host.responseBuffer|, env)
  {
    ReachableKeeps(s);
    BufferHoldsArrived(s);
    var s1 := SeeEngine(s, env);
    assert FeedResponseBody(s1, s.bodyReadIndex, env) == Proceed(s1);
    EndTraceBack(s1, env);
    var r := RunResponseBody(s1, env);
    assert OnHttpResponseBody(s, s.bodyReadIndex, true, env) == r;
    assert Step(s, ResponseTrailers(env)) == ReleaseResponse(r);
    NothingLeftToRead(s.host.responseArrived, ResponseFed(s.tx.value.trace), EntryIndex(s.tx.value.trace), s.bodyReadIndex);
    assert [] + s.host.responseBuffer == s.host.responseBuffer;
  }

  // ---- interruptions, local responses and crashes ----

  /**
   The engine's interruption is answered once: counted once, and sent to the client unless the body has
   begun. The failure policy sends 403 only, at most once for each error, and nothing under "allow".
   */
  lemma InterruptionAnsweredOnce(s: Stream)
    requires Reachable(s) && s.panic.None?
    ensures s.interruptedAt != NoPhase ==> s.tx.Some? && Stopped(s.tx.value.trace).Some?
    ensures s.host.denials ==
              if BeforeBody(s.interruptedAt) then
                var it := Stopped(s.tx.value.trace).value; [if it.status == 0 then 403 else it.status % 0x1_0000_0000]
              else []
    ensures (forall code :: code in s.host.refusals ==> code == 403) && |s.host.refusals| <= s.host.errors
    ensures s.failurePolicy == Allow ==>
              |s.host.denials| + |s.host.refusals| == if BeforeBody(s.interruptedAt) then 1 else 0
  {
    ReachableKeeps(s);
  }

  /** The counters a stream increments: one transaction, and one interruption if it was interrupted. */
  lemma MeteredExactly(s: Stream)
    requires Reachable(s)
    ensures s.interruptedAt != NoPhase ==> s.tx.Some? && Stopped(s.tx.value.trace).Some? && s.host.requestHeadersSeen
    ensures s.metered ==
              (if s.host.requestHeadersSeen then [TransactionCounted] else []) +
              (if s.interruptedAt == NoPhase then []
               else [InterruptionCounted(s.interruptedAt, Stopped(s.tx.value.trace).value.ruleID, s.labels)])
  {
    ReachableKeeps(s);
  }

  predicate IsTrailers(ev: Event) {
    ev.RequestTrailers? || ev.ResponseTrailers?
  }

  /** Without a transaction only a trailers callback touches the logger. */
  lemma WithoutTransaction(s: Stream, ev: Event)
    requires s.tx.None? && s.interruptedAt == NoPhase && Enabled(s, ev) && !ev.RequestHeaders?
    ensures Step(s, ev).panic == if IsTrailers(ev) then Some(NilLogger) else None
  {
    match ev
    case RequestData(data, end, env) =>
      var s1 := ArriveRequest(s, data);
      assert OnHttpRequestBody(s1, |s1.host.requestBuffer|, end, env) == (s1, Continue);
    case ResponseData(data, end, env) =>
      var s1 := ArriveResponse(s, data);
      assert OnHttpResponseBody(s1, |s1.host.responseBuffer|, end, env) == (s1, Continue);
    case _ =>
  }

  /**
   The panic for an interruption handled twice cannot be reached. A nil logger is met exactly when
   trailers arrive on a stream without a transaction, that is without a resolved engine. A failing
   local response crashes exactly the callback that must send one for an interruption.
   */
  lemma CrashesCharacterised(s: Stream, ev: Event)
    requires Reachable(s) && Enabled(s, ev)
    ensures var r := Step(s, ev);
            && r.panic != Some(AlreadyHandled)
            && (r.panic == Some(NilLogger) <==> IsTrailers(ev) && s.tx.None?)
            && (r.panic == Some(SendFailed) <==>
                  s.interruptedAt == NoPhase && BeforeBody(r.interruptedAt) && !ev.env.sendOk)
  {
    ReachableKeeps(s);
    StepKeeps(s, ev);
    StepEvolves(s, ev);
    if s.tx.None? && !ev.RequestHeaders? {
      WithoutTransaction(s, ev);
    }
    if s.tx.None? && ev.RequestHeaders? {
      HeadersNeedNoLogger(s.(host := s.host.(requestHeadersSeen := true)), ev.env);
    }
  }

  lemma HeadersNeedNoLogger(s: Stream, env: Answers)
    requires s.panic.None? && s.interruptedAt == NoPhase
    ensures OnHttpRequestHeaders(s, env).0.panic != Some(NilLogger)
  {}

  // ---- the failure policy ----

  /**
   A body callback that logs an error without interrupting ends as the failure policy says: under
   "allow" everything buffered goes on, under any other policy nothing does.
   */
  lemma FailurePolicyDecides(s: Stream, ev: Event)
    requires Reachable(s) && Enabled(s, ev) && (IsRequestBody(ev) || IsResponseBody(ev))
    requires var r := Step(s, ev); r.host.errors > s.host.errors && r.interruptedAt == NoPhase
    ensures var r := Step(s, ev);
            if s.failurePolicy == Allow then
              if IsRequestBody(ev) then r.host.upstream == r.host.requestArrived
              else r.host.downstream == Lift(r.host.responseArrived)
            else r.host.upstream == s.host.upstream && r.host.downstream == s.host.downstream
  {
    ReachableKeeps(s);
    StepReachable(s, ev);
    ReachableKeeps(Step(s, ev));
    if IsRequestBody(ev) {
      RequestPolicy(s, ev);
    } else {
      ResponsePolicy(s, ev);
    }
  }

  predicate IsRequestBody(ev: Event) {
    ev.RequestData? || ev.RequestTrailers?
  }

  predicate IsResponseBody(ev: Event) {
    ev.ResponseData? || ev.ResponseTrailers?
  }

  /** What a callback that logged an error without interrupting leads to. */
  lemma PolicyReleases(s: Stream, r: (Stream, Action))
    requires Conserved(s) && KeepsBuffers(s, r.0) && PolicyRule(s, r.0, r.1)
    requires r.0.host.errors > s.host.errors && r.0.interruptedAt == NoPhase && s.interruptedAt == NoPhase
    ensures ReleaseRequest(r).host.upstream == if s.failurePolicy == Allow then s.host.requestArrived else s.host.upstream
    ensures ReleaseResponse(r).host.downstream == if s.failurePolicy == Allow then Lift(s.host.responseArrived) else s.host.downstream
    ensures ReleaseRequest(r).host.downstream == s.host.downstream && ReleaseResponse(r).host.upstream == s.host.upstream
    ensures ReleaseRequest(r).host.requestArrived == s.host.requestArrived
    ensures ReleaseResponse(r).host.responseArrived == s.host.responseArrived
  {}

  lemma RequestPolicy(s: Stream, ev: Event)
    requires StreamInv(s) && Enabled(s, ev) && IsRequestBody(ev)
    requires var r := Step(s, ev); r.host.errors > s.host.errors && r.interruptedAt == NoPhase
    ensures var r := Step(s, ev);
            && r.host.downstream == s.host.downstream
            && r.host.upstream == if s.failurePolicy == Allow then r.host.requestArrived else s.host.upstream
  {
    hide OnHttpRequestBody, KeepsBuffers, PolicyRule, CrashRule, FlowInv, FaithInv, SafeInv, HeldInv;
    StepEvolves(s, ev);
    if ev.RequestData? {
      var s1 := ArriveRequest(s, ev.data);
      RequestBodyEffect(s1, |s1.host.requestBuffer|, ev.end, ev.env);
      ArrivalConserves(s, ev.data);
      PolicyReleases(s1, OnHttpRequestBody(s1, |s1.host.requestBuffer|, ev.end, ev.env));
    } else if s.tx.Some? {
      RequestBodyEffect(s, s.bodyReadIndex, true, ev.env);
      PolicyReleases(s, OnHttpRequestBody(s, s.bodyReadIndex, true, ev.env));
    }
  }

  lemma ArrivalConserves(s: Stream, data: seq<Byte>)
    requires StreamInv(s)
    ensures Conserved(ArriveRequest(s, data)) && Conserved(ArriveResponse(s, data))
  {
    ArriveRequestKeeps(s, data);
    ArriveResponseKeeps(s, data);
  }

  lemma ResponsePolicy(s: Stream, ev: Event)
    requires StreamInv(s) && Enabled(s, ev) && IsResponseBody(ev)
    requires var r := Step(s, ev); r.host.errors > s.host.errors && r.interruptedAt == NoPhase
    ensures var r := Step(s, ev);
            && r.host.upstream == s.host.upstream
            && r.host.downstream == if s.failurePolicy == Allow then Lift(r.host.responseArrived) else s.host.downstream
  {
    hide OnHttpResponseBody, KeepsBuffers, PolicyRule, CrashRule, FlowInv, FaithInv, SafeInv, HeldInv;
    StepEvolves(s, ev);
    if ev.ResponseData? {
      var s1 := ArriveResponse(s, ev.data);
      ResponseBodyEffect(s1, |s1.host.responseBuffer|, ev.end, ev.env);
      ArrivalConserves(s, ev.data);
      PolicyReleases(s1, OnHttpResponseBody(s1, |s1.host.responseBuffer|, ev.end, ev.env));
    } else if s.tx.Some? {
      ResponseBodyEffect(s, s.bodyReadIndex, true, ev.env);
      PolicyReleases(s, OnHttpResponseBody(s, s.bodyReadIndex, true, ev.env));
    }
  }

  // ---- which engine a stream uses ----

  /** Event `i` of the run gave the stream its engine: that of its own authority in the table of its creation. */
  predicate ResolvedBy(wafs: WafMap, policy: FailurePolicy, labels: seq<string>, events: seq<Event>, i: nat, s: Stream)
    requires i < |events| && s.tx.Some?
  {
    && events[i].RequestHeaders? && Enabled(Run(NewStream(wafs, policy, labels), events[..i]), events[i])
    && events[i].env.authority.Some?
    && GetWAFOrDefault(wafs, events[i].env.authority.value) == Resolved(s.tx.value.waf, s.labels.authority.None?)
    && (s.labels.authority.Some? ==> s.labels.authority == events[i].env.authority)
  }

  /**
   A stream resolves its engine once, for the authority of its own request headers, in the routing table it
   was created with, and keeps both for good: nothing that happens later changes the engine of its
   transaction or the authority its counters carry.
   */
  lemma {:induction false} EngineFromSnapshot(wafs: WafMap, policy: FailurePolicy, labels: seq<string>, events: seq<Event>)
    ensures var s := Run(NewStream(wafs, policy, labels), events);
            && s.wafs == wafs && s.failurePolicy == policy && s.labels.configured == labels
            && (s.tx.Some? ==> exists i :: 0 <= i < |events| && ResolvedBy(wafs, policy, labels, events, i, s))
  {
    if events != [] {
      var front, n := events[..|events| - 1], |events| - 1;
      var ev := events[n];
      EngineFromSnapshot(wafs, policy, labels, front);
      RunKeeps(wafs, policy, labels, front);
      var s, r := Run(NewStream(wafs, policy, labels), front), Run(NewStream(wafs, policy, labels), events);
      if Enabled(s, ev) {
        StepEvolves(s, ev);
        if s.tx.None? {
          FreshLabels(wafs, policy, labels, front);
          ResolutionStep(s, ev);
        }
      }
      if s.tx.Some? {
        var i :| 0 <= i < |front| && ResolvedBy(wafs, policy, labels, front, i, s);
        ResolvedStays(wafs, policy, labels, events, i, s, r);
      } else if r.tx.Some? {
        assert ResolvedBy(wafs, policy, labels, events, n, r);
      }
    }
  }

  lemma ResolvedStays(wafs: WafMap, policy: FailurePolicy, labels: seq<string>, events: seq<Event>, i: nat, s: Stream, r: Stream)
    requires i < |events| - 1 && s.tx.Some? && ResolvedBy(wafs, policy, labels, events[..|events| - 1], i, s)
    requires r.tx.Some? && r.tx.value.waf == s.tx.value.waf && r.labels == s.labels
    ensures ResolvedBy(wafs, policy, labels, events, i, r)
  {
    assert events[..|events| - 1][..i] == events[..i];
  }

  lemma {:induction false} FreshLabels(wafs: WafMap, policy: FailurePolicy, labels: seq<string>, events: seq<Event>)
    ensures var s := Run(NewStream(wafs, policy, labels), events); s.tx.None? ==> s.labels.authority == None
  {
    if events != [] {
      var front, ev := events[..|events| - 1], events[|events| - 1];
      FreshLabels(wafs, policy, labels, front);
      RunKeeps(wafs, policy, labels, front);
      var s := Run(NewStream(wafs, policy, labels), front);
      if Enabled(s, ev) {
        StepEvolves(s, ev);
        if s.tx.None? { ResolutionStep(s, ev); }
      }
    }
  }

  /** Only the request-headers callback can give a stream its transaction. */
  lemma ResolutionStep(s: Stream, ev: Event)
    requires StreamInv(s) && Enabled(s, ev) && s.tx.None? && s.labels.authority == None
    ensures var r := Step(s, ev);
            if r.tx.Some? then
              ev.RequestHeaders? && ev.env.authority.Some? &&
              GetWAFOrDefault(s.wafs, ev.env.authority.value) == Resolved(r.tx.value.waf, r.labels.authority.None?) &&
              (r.labels.authority.Some? ==> r.labels.authority == ev.env.authority)
            else r.labels == s.labels
    ensures Step(s, ev).labels.configured == s.labels.configured
  {
    if ev.RequestHeaders? {
      HeadersResolve(s.(host := s.host.(requestHeadersSeen := true)), ev.env);
    } else {
      match ev
      case RequestData(data, end, env) =>
        var s1 := ArriveRequest(s, data);
        assert OnHttpRequestBody(s1, |s1.host.requestBuffer|, end, env) == (s1, Continue);
      case ResponseData(data, end, env) =>
        var s1 := ArriveResponse(s, data);
        assert OnHttpResponseBody(s1, |s1.host.responseBuffer|, end, env) == (s1, Continue);
      case _ =>
    }
  }

  lemma HeadersResolve(s: Stream, env: Answers)
    requires s.tx.None? && s.labels.authority == None
    ensures var r := OnHttpRequestHeaders(s, env).0;
            if r.tx.Some? then
              env.authority.Some? &&
              GetWAFOrDefault(s.wafs, env.authority.value) == Resolved(r.tx.value.waf, r.labels.authority.None?) &&
              (r.labels.authority.Some? ==> r.labels.authority == env.authority)
            else r.labels == s.labels
    ensures OnHttpRequestHeaders(s, env).0.labels.configured == s.labels.configured
  {
    hide HandleInterruption, ApplyFailurePolicy;
    OutcomesKeepEngine(s.(metered := s.metered + [TransactionCounted]), Interruption(0, 0), env);
    if env.authority.Some? && GetWAFOrDefault(s.wafs, env.authority.value).Resolved? {
      var w := GetWAFOrDefault(s.wafs, env.authority.value);
      var s1 := s.(metered := s.metered + [TransactionCounted], tx := Some(Tx(w.waf, env.engineOff, Empty)),
                   labels := if w.isDefault then s.labels else s.labels.(authority := env.authority));
      OutcomesKeepEngine(s1, Interruption(0, 0), env);
      OutcomesKeepEngine(Record(s1, ProcessRequestHeaders(env.headersVerdict)),
                         if env.headersVerdict.Some? then env.headersVerdict.value else Interruption(0, 0), env);
    }
  }

  lemma OutcomesKeepEngine(s: Stream, it: Interruption, env: Answers)
    ensures var r := ApplyFailurePolicy(s, env).0; r.tx == s.tx && r.labels == s.labels
    ensures var r := HandleInterruption(s, RequestHeadersPhase, it, env).0; r.tx == s.tx && r.labels == s.labels
  {}
}
