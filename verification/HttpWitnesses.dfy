/** Runs that show where the guarantees of HttpGuarantees stop. */
module HttpWitnesses {
  import opened Prelude
  import opened Wafs
  import opened HttpStream
  import opened HttpTrace
  import opened HttpSafety
  import opened HttpGuarantees
  import opened HttpCallbacks
  import opened HttpSealing
  import opened HttpPolicy

  const ONE_WAF := WafMap(map[], Some(Waf("", map[])))

  /** Everything succeeds, the engine finds nothing, and `n` bytes are read and written. */
  function Takes(n: nat): Answers {
    Answers(Some(""), false, true, true, None, true, true, Some(n), Wrote(n), Clean, true, true)
  }

  const PASS := Takes(0)

  /** How a stream moves on when all that is new in the request is read and accepted. */
  lemma ChunkAccepted(s: Stream, data: seq<Byte>, n: nat)
    requires Enabled(s, RequestData(data, false, Takes(n))) && s.tx.Some? && !s.tx.value.off
    requires s.interruptedAt == NoPhase && !s.processedRequestBody
    requires s.bodyReadIndex < |s.host.requestBuffer + data| == s.bodyReadIndex + n
    ensures var body := s.host.requestBuffer + data;
            Step(s, RequestData(data, false, Takes(n))) ==
              Record(ArriveRequest(s, data), WriteRequestBody(body[s.bodyReadIndex..], Wrote(n))).(bodyReadIndex := |body|)
  {
    var a, env := ArriveRequest(s, data), Takes(n);
    var body := s.host.requestBuffer + data;
    assert SeeEngine(a, env) == a;
    assert ReadBuffer(body, s.bodyReadIndex, |body| - s.bodyReadIndex, n) == body[s.bodyReadIndex..];
    var w := WriteRequestChunk(a, body[s.bodyReadIndex..], env);
    assert FeedRequestBody(a, |body|, env) == w;
    assert OnHttpRequestBody(a, |body|, false, env) == (w.s, Pause);
    RequestDataStep(s, data, false, env);
  }

  const OPENED := Tx(Waf("", map[]), false, Then(Empty, ProcessRequestHeaders(None)))

  /** The state after the request's headers. */
  function Opened(): Stream {
    NewStream(ONE_WAF, Allow, []).(tx := Some(OPENED), metered := [TransactionCounted],
                                   host := NEW_HOST.(requestHeadersSeen := true))
  }

  lemma OpenedReachable()
    ensures Reachable(Opened())
  {
    var s0 := NewStream(ONE_WAF, Allow, []);
    assert s0 == Run(s0, []);
    StepReachable(s0, RequestHeaders(PASS));
    assert Step(s0, RequestHeaders(PASS)) == Opened();
  }

  /** The state after one paused chunk `[7]` of the request. */
  function OneChunk(): Stream {
    var s := ArriveRequest(Opened(), [7]);
    Record(s, WriteRequestBody([7], Wrote(1))).(bodyReadIndex := 1)
  }

  lemma OneChunkReachable()
    ensures Reachable(OneChunk())
    ensures RequestFed(OneChunk().tx.value.trace) == [7]
  {
    OpenedReachable();
    ChunkAccepted(Opened(), [7], 1);
    assert ([] + [7])[0..] == [7];
    StepReachable(Opened(), RequestData([7], false, Takes(1)));
    assert [] + [7] == [7];
  }

  // ---- an error that is let through ----

  /** The state after an error that the policy "allow" let pass: the buffer is gone, the index stays. */
  function AfterAllowedError(): Stream {
    var s := OneChunk();
    s.(host := s.host.(requestArrived := [7, 8], upstream := [7, 8], requestBuffer := [], errors := 1))
  }

  lemma AfterAllowedErrorReachable()
    ensures Reachable(AfterAllowedError())
  {
    OneChunkReachable();
    var s := OneChunk();
    var failing := PASS.(read := None);
    StepReachable(s, RequestData([8], false, failing));
    RequestDataStep(s, [8], false, failing);
    var a := ArriveRequest(s, [8]);
    assert OnHttpRequestBody(a, 2, false, failing) == ApplyFailurePolicy(a, failing);
    assert ReleaseRequest(ApplyFailurePolicy(a, failing)) == AfterAllowedError();
  }

  /**
   Under the policy "allow" the next chunk after such an error is read from its middle: what the
   engine holds is no longer a prefix of the body.
   */
  lemma AllowedErrorMisalignsIndex()
    ensures exists s ::
              && Reachable(s) && s.tx.Some? && !s.processedRequestBody && s.interruptedAt == NoPhase
              && s.bodyReadIndex <= |s.host.requestArrived|
              && RequestFed(s.tx.value.trace) != s.host.requestArrived[..s.bodyReadIndex]
  {
    hide Step;
    AfterAllowedErrorReachable();
    OneChunkReachable();
    var s := AfterAllowedError();
    ChunkAccepted(s, [9, 10], 1);
    StepReachable(s, RequestData([9, 10], false, Takes(1)));
    var r := Step(s, RequestData([9, 10], false, Takes(1)));
    assert ([] + [9, 10])[1..] == [10];
    assert RequestFed(r.tx.value.trace) == [7] + [10];
    assert r.host.requestArrived == [7, 8] + [9, 10];
    assert r.host.requestArrived[..2] == [7, 8];
  }

  // ---- a short read at the end of the request ----

  /** Two bytes have arrived, the read gives the first, and the phase runs. */
  function ShortRead(a: Stream): Stream
    requires a.tx.Some?
  {
    Record(Record(a, WriteRequestBody([7], Wrote(1))).(processedRequestBody := true), ProcessRequestBody(EndOfStream, Clean))
  }

  lemma FirstByteRead(a: Stream)
    requires a == ArriveRequest(Opened(), [7, 8])
    ensures OnHttpRequestBody(a, 2, true, Takes(1)) == (ShortRead(a), Continue)
  {
    var env := Takes(1);
    assert SeeEngine(a, env) == a;
    assert ReadBuffer(a.host.requestBuffer, 0, 2, 1) == [7];
    var w := Record(a, WriteRequestBody([7], Wrote(1))).(bodyReadIndex := 1);
    assert WriteRequestChunk(a, [7], env) == Proceed(w);
    assert FeedRequestBody(a, 2, env) == Proceed(w);
    assert RunRequestBody(w.(bodyReadIndex := 0), EndOfStream, RequestBodyPhase, env) == (ShortRead(a), Continue);
  }

  /** The phase passes without an error, and a byte is released that the engine never held. */
  lemma ShortReadReleasesUnseen()
    ensures exists s ::
              && Reachable(s) && Healthy(s) && RequestCleared(s.tx.value.trace)
              && s.host.upstream == [7, 8] && RequestFed(s.tx.value.trace) == [7]
  {
    hide OnHttpRequestBody, Step;
    OpenedReachable();
    var a := ArriveRequest(Opened(), [7, 8]);
    FirstByteRead(a);
    var ev := RequestData([7, 8], true, Takes(1));
    StepReachable(Opened(), ev);
    RequestDataStep(Opened(), [7, 8], true, Takes(1));
    assert a.host.requestBuffer == [7, 8];
    var r := ReleaseRequest((ShortRead(a), Continue));
    assert Step(Opened(), ev) == r;
    assert r.host.upstream == [7, 8];
    assert RequestFed(r.tx.value.trace) == [] + [7];
  }

  // ---- a response that starts before the request has ended ----

  /** The state after the response's headers overtook the rest of the request. */
  function Overtaken(): Stream {
    var s := OneChunk();
    Record(Record(s, ProcessRequestBody(BeforeResponse, Clean)), ProcessResponseHeaders(None))
    .(processedRequestBody := true, host := s.host.(responseHeadersSeen := true))
  }

  lemma OvertakenReachable()
    ensures Reachable(Overtaken())
  {
    OneChunkReachable();
    StepReachable(OneChunk(), ResponseHeaders(PASS));
    assert Step(OneChunk(), ResponseHeaders(PASS)) == Overtaken();
  }

  /** The rest of the request then goes upstream unread, although every read was complete and nothing failed. */
  lemma OvertakenReleasesUnseen()
    ensures exists s ::
              && Reachable(s) && Healthy(s) && RequestCleared(s.tx.value.trace)
              && s.host.upstream == [7, 8] && RequestFed(s.tx.value.trace) == [7]
  {
    hide OnHttpResponseHeaders, OnHttpRequestHeaders;
    OvertakenReachable();
    OneChunkReachable();
    var s := Overtaken();
    StepReachable(s, RequestData([8], true, PASS));
    RequestDataStep(s, [8], true, PASS);
    var a := ArriveRequest(s, [8]);
    assert OnHttpRequestBody(a, 2, true, PASS) == (a, Continue);
    var r := Step(s, RequestData([8], true, PASS));
    assert r.host.upstream == [] + ([7] + [8]) == [7, 8];
  }

  function SecondByte(a: Stream): Stream
    requires a.tx.Some?
  {
    Record(a, WriteResponseBody([2], Wrote(1))).(bodyReadIndex := 2)
  }

  /** Two bytes of the response arrive, and the callback reads from the second one on. */
  lemma SecondByteRead(a: Stream)
    requires a == ArriveResponse(Overtaken(), [1, 2])
    ensures OnHttpResponseBody(a, 2, false, Takes(1)) == (SecondByte(a), Pause)
  {
    assert SeeEngine(a, Takes(1)) == a;
    assert a.host.responseBuffer == [FromServer(1), FromServer(2)];
    assert ReadBuffer(a.host.responseBuffer, 1, 1, 1) == [FromServer(2)];
    assert Content([FromServer(2)]) == [2];
    assert FeedResponseBody(a, 2, Takes(1)) == WriteResponseChunk(a, [2], Takes(1));
  }

  /**
   When the response starts before the request has ended, the engine misses as many bytes of the
   response as it had accepted of the request.
   */
  lemma EarlyResponseSkipsBytes()
    ensures exists s ::
              && Reachable(s) && Healthy(s) && s.interruptedAt == NoPhase
              && s.host.responseArrived == [1, 2] && ResponseFed(s.tx.value.trace) == [2] && s.bodyReadIndex == 2
  {
    hide OnHttpResponseBody;
    OvertakenReachable();
    var s := Overtaken();
    var a := ArriveResponse(s, [1, 2]);
    SecondByteRead(a);
    StepReachable(s, ResponseData([1, 2], false, Takes(1)));
    assert |a.host.responseBuffer| == 2;
    assert Step(s, ResponseData([1, 2], false, Takes(1))) == ReleaseResponse((SecondByte(a), Pause)) == SecondByte(a);
    SecondByteHeld(a);
  }

  lemma SecondByteHeld(a: Stream)
    requires a == ArriveResponse(Overtaken(), [1, 2])
    ensures var r := SecondByte(a);
            && Healthy(r) && r.interruptedAt == NoPhase && r.bodyReadIndex == 2
            && r.host.responseArrived == [1, 2] && ResponseFed(r.tx.value.trace) == [2]
  {
    assert ResponseFed(SecondByte(a).tx.value.trace) == [] + [2];
    assert [] + [1, 2] == [1, 2];
  }

  // ---- trailers on a stream without an engine ----

  /** No engine is found for the request, the policy answers, and the trailers meet a nil logger. */
  lemma TrailersMeetNilLogger(policy: FailurePolicy)
    ensures exists s ::
              && Reachable(s) && s.tx.None? && s.failurePolicy == policy && Enabled(s, RequestTrailers(PASS))
              && Step(s, RequestTrailers(PASS)).panic == Some(NilLogger)
  {
    var s0 := NewStream(WafMap(map[], None), policy, []);
    assert s0 == Run(s0, []);
    StepReachable(s0, RequestHeaders(PASS));
    var s := Step(s0, RequestHeaders(PASS));
    assert s.tx.None? && s.panic.None? && !s.host.done && s.host.requestHeadersSeen;
  }

  /**
   Without an engine every policy but "allow" answers 403 to the headers and holds the request; but the body
   callback finds no transaction and lets the request go.
   */
  lemma UnresolvedRequestGoesOn(name: string)
    ensures exists s, ev ::
              && Reachable(s) && s.tx.None? && s.failurePolicy == OtherPolicy(name) && s.host.refusals == [403]
              && s.host.upstream == [] && Step(s, ev).host.upstream == [7]
  {
    var s0 := NewStream(WafMap(map[], None), OtherPolicy(name), []);
    assert s0 == Run(s0, []);
    StepReachable(s0, RequestHeaders(PASS));
    var s := Step(s0, RequestHeaders(PASS));
    assert s.tx.None? && s.host.refusals == [] + [403] && s.interruptedAt == NoPhase && s.host.upstream == [];
    var ev := RequestData([7], false, PASS);
    RequestDataStep(s, [7], false, PASS);
    WithoutEngineDo(ArriveRequest(s, [7]), 1, false, PASS);
    assert ArriveRequest(s, [7]).host.requestBuffer == [7];
    assert Step(s, ev).host.upstream == [] + [7];
  }

  // ---- a replacement that the host refuses ----

  const DENIES := PASS.(headersVerdict := Some(Interruption(1, 403)))

  /** A stream that a rule on the request's headers has interrupted, with the response about to come. */
  lemma DeniedReachable() returns (s: Stream)
    ensures Reachable(s) && s.interruptedAt == RequestHeadersPhase && Enabled(s, ResponseData([5], true, PASS))
    ensures s.host.responseBuffer == [] && s.host.downstream == []
  {
    var s0 := NewStream(ONE_WAF, Allow, []);
    assert s0 == Run(s0, []);
    StepReachable(s0, RequestHeaders(DENIES));
    var s1 := Step(s0, RequestHeaders(DENIES));
    assert s1.interruptedAt == RequestHeadersPhase && s1.panic.None? && !s1.host.done;
    assert s1.host.responseBuffer == [] && s1.host.downstream == [] && !s1.host.responseHeadersSeen && s1.tx.Some?;
    StepReachable(s1, ResponseHeaders(PASS));
    s := Step(s1, ResponseHeaders(PASS));
    assert s == s1.(host := s1.host.(responseHeadersSeen := true));
  }

  /** After an interruption a byte of the server's body reaches the client. */
  lemma RefusedReplacementLeaks()
    ensures exists s :: Reachable(s) && s.interruptedAt != NoPhase && !AllNull(s.host.downstream)
  {
    var s := DeniedReachable();
    var ev := ResponseData([5], true, PASS.(replaceOk := false));
    InterruptionSeals(s, ev);
    assert Lift([5]) == [FromServer(5)] && [] + [FromServer(5)] == [FromServer(5)];
    assert LetOut(s, ev) == [FromServer(5)];
    assert FromServer(5) in Step(s, ev).host.downstream;
  }

  /** The state after the headers of both directions, when the request has no body. */
  function Answered(): Stream {
    var s := Opened();
    Record(Record(s, ProcessRequestBody(BeforeResponse, Clean)), ProcessResponseHeaders(None))
    .(processedRequestBody := true, host := s.host.(responseHeadersSeen := true))
  }

  lemma AnsweredReachable()
    ensures Reachable(Answered())
  {
    OpenedReachable();
    StepReachable(Opened(), ResponseHeaders(PASS));
    assert Step(Opened(), ResponseHeaders(PASS)) == Answered();
  }

  /** The verdict on the response's body comes, and the host refuses to replace it. */
  const STOPS_AND_REFUSES := Takes(1).(body := Stop(Interruption(1, 403)), replaceOk := false)

  lemma StopsTheBody(a: Stream)
    requires a == ArriveResponse(Answered(), [5])
    ensures OnHttpResponseBody(a, 1, true, STOPS_AND_REFUSES).0.interruptedAt == ResponseBodyPhase
  {
    var env := STOPS_AND_REFUSES;
    assert SeeEngine(a, env) == a;
    assert a.host.responseBuffer == [FromServer(5)];
    assert ReadBuffer(a.host.responseBuffer, 0, 1, 1) == [FromServer(5)];
    assert Content([FromServer(5)]) == [5];
    var w := Record(a, WriteResponseBody([5], Wrote(1))).(bodyReadIndex := 1);
    assert WriteResponseChunk(a, [5], env) == Proceed(w);
    assert FeedResponseBody(a, 1, env) == Proceed(w);
    assert OnHttpResponseBody(a, 1, true, env) == RunResponseBody(w, env);
  }

  /** The event that interrupts the response body is itself the one that leaks it. */
  lemma InterruptingEventLeaks()
    ensures exists s, ev ::
              && Reachable(s) && Healthy(s) && s.interruptedAt == NoPhase && s.host.downstream == [] && Leaks(s, ev)
              && Step(s, ev).interruptedAt == ResponseBodyPhase && Step(s, ev).host.downstream == [FromServer(5)]
  {
    hide OnHttpResponseBody;
    AnsweredReachable();
    var s := Answered();
    var ev := ResponseData([5], true, STOPS_AND_REFUSES);
    var a := ArriveResponse(s, [5]);
    StopsTheBody(a);
    assert Waiting(s, ev) == [FromServer(5)];
    assert |a.host.responseBuffer| == 1;
    assert Step(s, ev) == ReleaseResponse(OnHttpResponseBody(a, 1, true, STOPS_AND_REFUSES));
    SealedStep(s, ev);
    assert FromServer(5) in Waiting(s, ev);
    assert [] + [FromServer(5)] == [FromServer(5)];
  }

  // ---- a failure that the policy blocks ----

  const PHASE_FAILS := Takes(1).(body := EngineError)

  /** The request's headers have passed under a policy other than "allow". */
  function OpenedUnder(name: string): Stream {
    Opened().(failurePolicy := OtherPolicy(name))
  }

  /** The phase has failed on the body `[7]`: the client was sent 403, and the body is held. */
  function Refused(name: string): Stream {
    var s := ArriveRequest(OpenedUnder(name), [7]);
    var t := Record(Record(s, WriteRequestBody([7], Wrote(1))), ProcessRequestBody(EndOfStream, EngineError));
    t.(processedRequestBody := true, host := t.host.(errors := 1, refusals := [403]))
  }

  lemma RefusedReachable(name: string)
    ensures Reachable(Refused(name))
  {
    var s0 := NewStream(ONE_WAF, OtherPolicy(name), []);
    assert s0 == Run(s0, []);
    StepReachable(s0, RequestHeaders(PASS));
    var s := OpenedUnder(name);
    assert Step(s0, RequestHeaders(PASS)) == s;
    var a := ArriveRequest(s, [7]);
    StepReachable(s, RequestData([7], true, PHASE_FAILS));
    RequestDataStep(s, [7], true, PHASE_FAILS);
    PhaseFails(a, name);
    assert a.host.requestBuffer == [7];
  }

  lemma PhaseFails(a: Stream, name: string)
    requires a == ArriveRequest(OpenedUnder(name), [7])
    ensures OnHttpRequestBody(a, 1, true, PHASE_FAILS) == (Refused(name), Pause)
  {
    var env := PHASE_FAILS;
    assert SeeEngine(a, env) == a;
    assert a.host.requestBuffer == [7];
    assert ReadBuffer(a.host.requestBuffer, 0, 1, 1) == [7];
    var w := Record(a, WriteRequestBody([7], Wrote(1))).(bodyReadIndex := 1);
    assert WriteRequestChunk(a, [7], env) == Proceed(w);
    assert FeedRequestBody(a, 1, env) == Proceed(w);
    assert w.host.refusals + [403] == [403];
    assert RunRequestBody(w.(bodyReadIndex := 0), EndOfStream, RequestBodyPhase, env) == (Refused(name), Pause);
  }

  /** Under every policy but "allow": the next callback releases the body whose phase failed. */
  lemma BlockedFailureReleases(name: string)
    ensures exists s ::
              && Reachable(s) && s.failurePolicy == OtherPolicy(name) && s.host.refusals == [403]
              && s.tx.Some? && !RequestCleared(s.tx.value.trace) && s.host.upstream == [7, 8]
  {
    RefusedReachable(name);
    var s := Refused(name);
    var ev := RequestData([8], true, PASS);
    ReachableKeeps(s);
    FailedPhaseReleases(s, ev);
    StepReachable(s, ev);
    RequestDataStep(s, [8], true, PASS);
    assert OnHttpRequestBody(ArriveRequest(s, [8]), 2, true, PASS) == (ArriveRequest(s, [8]), Continue);
    assert Step(s, ev).host.upstream == [] + ([7] + [8]) == [7, 8];
  }
}
