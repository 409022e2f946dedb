/**
 Which part of a body the engine holds. The chunks it takes are slices of the host's buffer, read at an
 index that counts what it took before; they continue each other exactly while nothing has been released.
 */
module HttpFeeding {
  import opened Prelude
  import opened Wafs
  import opened HttpStream
  import opened HttpTrace
  import opened HttpRuns

  /** The request bytes that the stream's engine has taken in. */
  function Share(s: Stream): seq<Byte> {
    if s.tx.None? then [] else RequestFed(s.tx.value.trace)
  }

  function ShareBack(s: Stream): seq<Byte> {
    if s.tx.None? then [] else ResponseFed(s.tx.value.trace)
  }

  /** Where in the response the engine's share begins. */
  function Entry(s: Stream): nat {
    if s.tx.None? then 0 else EntryIndex(s.tx.value.trace)
  }

  // ---- what one callback hands over ----

  function Written(chunk: seq<Byte>, env: Answers): seq<Byte> {
    if env.write.Wrote? && env.write.n >= |chunk| then chunk else []
  }

  predicate InspectsRequest(s: Stream, env: Answers) {
    s.tx.Some? && s.interruptedAt == NoPhase && !s.processedRequestBody && !s.tx.value.off && !env.engineOff && env.bodyAccess
  }

  predicate InspectsResponse(s: Stream, env: Answers) {
    && s.tx.Some? && s.interruptedAt == NoPhase && !s.processedResponseBody && !s.tx.value.off && !env.engineOff
    && env.bodyAccess && env.bodyProcessable
  }

  /** How many bytes a read gives when `left` are there. */
  function Got(left: nat, atMost: nat): nat {
    if left <= atMost then left else atMost
  }

  /** The chunk that a request-body callback reads. */
  function RequestChunk(s: Stream, bodySize: nat, env: Answers): seq<Byte> {
    if !InspectsRequest(s, env) || bodySize <= s.bodyReadIndex || env.read.None? then []
    else ReadBuffer(s.host.requestBuffer, s.bodyReadIndex, bodySize - s.bodyReadIndex, env.read.value)
  }

  function ResponseChunk(s: Stream, bodySize: nat, env: Answers): seq<Byte> {
    if !InspectsResponse(s, env) || bodySize <= s.bodyReadIndex || env.read.None? then []
    else Content(ReadBuffer(s.host.responseBuffer, s.bodyReadIndex, bodySize - s.bodyReadIndex, env.read.value))
  }

  /** A callback that is told the whole buffer reads from the index on, as far as the read goes. */
  lemma ChunksRead(s: Stream, env: Answers)
    ensures var size := |s.host.requestBuffer|;
            InspectsRequest(s, env) && size > s.bodyReadIndex && env.read.Some? ==>
              RequestChunk(s, size, env)
              == s.host.requestBuffer[s.bodyReadIndex..s.bodyReadIndex + Got(size - s.bodyReadIndex, env.read.value)]
    ensures var size := |s.host.responseBuffer|;
            InspectsResponse(s, env) && size > s.bodyReadIndex && env.read.Some? ==>
              var i, n := s.bodyReadIndex, Got(size - s.bodyReadIndex, env.read.value);
              ResponseChunk(s, size, env) == Content(s.host.responseBuffer[i..i + n]) && |ResponseChunk(s, size, env)| == n
  {}

  /** What two states of one stream have in common when no chunk was taken in between. */
  predicate SameShare(s: Stream, r: Stream) {
    Share(r) == Share(s) && ShareBack(r) == ShareBack(s)
  }

  lemma OutcomesKeepTx(s: Stream, phase: Phase, it: Interruption, env: Answers)
    ensures ApplyFailurePolicy(s, env).0.tx == s.tx && HandleInterruption(s, phase, it, env).0.tx == s.tx
  {}

  lemma OtherCallShares(s: Stream, c: Call)
    requires s.tx.Some? && !IsWrite(c)
    ensures SameShare(s, Record(s, c)) && (!c.ProcessRequestBody? ==> Entry(Record(s, c)) == Entry(s))
  {}

  lemma RunRequestBodyShares(s: Stream, site: Site, phase: Phase, env: Answers)
    requires s.tx.Some?
    ensures SameShare(s, RunRequestBody(s, site, phase, env).0)
  {
    var s1 := Record(s.(processedRequestBody := true), ProcessRequestBody(site, env.body));
    OutcomesKeepTx(s1, phase, if env.body.Stop? then env.body.it else Interruption(0, 0), env);
    assert RunRequestBody(s, site, phase, env).0.tx == s1.tx;
  }

  lemma WriteRequestFeeds(s: Stream, chunk: seq<Byte>, env: Answers)
    requires s.tx.Some?
    ensures var r := WriteRequestChunk(s, chunk, env).s; Share(r) == Share(s) + Written(chunk, env) && ShareBack(r) == ShareBack(s)
  {
    var s1 := Record(s, WriteRequestBody(chunk, env.write));
    OutcomesKeepTx(s1, RequestBodyPhase, if env.write.WriteStop? then env.write.it else Interruption(0, 0), env);
    assert WriteRequestChunk(s, chunk, env).s.tx == s1.tx;
  }

  lemma FeedRequestFeeds(s: Stream, bodySize: nat, env: Answers)
    requires InspectsRequest(s, env)
    ensures var r := FeedRequestBody(s, bodySize, env).s;
            Share(r) == Share(s) + Written(RequestChunk(s, bodySize, env), env) && ShareBack(r) == ShareBack(s)
  {
    if bodySize <= s.bodyReadIndex {
      assert FeedRequestBody(s, bodySize, env).s == s;
    } else if env.read.None? {
      OutcomesKeepTx(s, RequestBodyPhase, Interruption(0, 0), env);
      assert FeedRequestBody(s, bodySize, env).s == ApplyFailurePolicy(s, env).0;
    } else {
      var chunk := RequestChunk(s, bodySize, env);
      assert FeedRequestBody(s, bodySize, env) == WriteRequestChunk(s, chunk, env);
      WriteRequestFeeds(s, chunk, env);
    }
  }

  /** A request-body callback gives the engine its chunk, if that is written in full, and nothing else. */
  lemma RequestBodyFeeds(s: Stream, bodySize: nat, end: bool, env: Answers)
    ensures var r := OnHttpRequestBody(s, bodySize, end, env).0;
            Share(r) == Share(s) + Written(RequestChunk(s, bodySize, env), env) && ShareBack(r) == ShareBack(s)
  {
    var r := OnHttpRequestBody(s, bodySize, end, env);
    if s.interruptedAt == NoPhase && !s.processedRequestBody && s.tx.Some? {
      var s1 := SeeEngine(s, env);
      if s1.tx.value.off {
        assert r == (s1, Continue);
      } else if !env.bodyAccess {
        assert r == RunRequestBody(s1, NoBodyAccess, RequestBodyPhase, env);
        RunRequestBodyShares(s1, NoBodyAccess, RequestBodyPhase, env);
      } else {
        FeedRequestFeeds(s1, bodySize, env);
        assert RequestChunk(s1, bodySize, env) == RequestChunk(s, bodySize, env);
        var f := FeedRequestBody(s1, bodySize, env);
        if f.Leave? {
          assert r.0 == f.s;
        } else if end {
          assert r == RunRequestBody(f.s.(bodyReadIndex := 0), EndOfStream, RequestBodyPhase, env);
          RunRequestBodyShares(f.s.(bodyReadIndex := 0), EndOfStream, RequestBodyPhase, env);
        } else {
          assert r.0 == f.s;
        }
      }
    } else {
      assert r.0.tx == s.tx;
    }
  }

  /** The response side keeps the entry index as well. */
  predicate SameRequestShare(s: Stream, r: Stream) {
    Share(r) == Share(s) && Entry(r) == Entry(s)
  }

  lemma WriteResponseFeeds(s: Stream, chunk: seq<Byte>, env: Answers)
    requires s.tx.Some?
    ensures var r := WriteResponseChunk(s, chunk, env).s; ShareBack(r) == ShareBack(s) + Written(chunk, env) && SameRequestShare(s, r)
  {
    var s1 := Record(s, WriteResponseBody(chunk, env.write));
    var s2 := s1.(bodyReadIndex := s.bodyReadIndex + |chunk|);
    var it := if env.write.WriteStop? then env.write.it else Interruption(0, 0);
    OutcomesKeepTx(s1, ResponseBodyPhase, it, env);
    OutcomesKeepTx(s2, ResponseBodyPhase, it, env);
    assert WriteResponseChunk(s, chunk, env).s.tx == s1.tx;
  }

  lemma FeedResponseFeeds(s: Stream, bodySize: nat, env: Answers)
    requires InspectsResponse(s, env)
    ensures var r := FeedResponseBody(s, bodySize, env).s;
            ShareBack(r) == ShareBack(s) + Written(ResponseChunk(s, bodySize, env), env) && SameRequestShare(s, r)
  {
    if bodySize <= s.bodyReadIndex {
      assert FeedResponseBody(s, bodySize, env).s == s;
    } else if env.read.None? {
      OutcomesKeepTx(s, ResponseBodyPhase, Interruption(0, 0), env);
      assert FeedResponseBody(s, bodySize, env).s == ApplyFailurePolicy(s, env).0;
    } else {
      var chunk := ResponseChunk(s, bodySize, env);
      assert FeedResponseBody(s, bodySize, env) == WriteResponseChunk(s, chunk, env);
      WriteResponseFeeds(s, chunk, env);
    }
  }

  lemma RunResponseBodyShares(s: Stream, env: Answers)
    requires s.tx.Some?
    ensures SameShare(s, RunResponseBody(s, env).0) && Entry(RunResponseBody(s, env).0) == Entry(s)
  {
    var s1 := Record(s.(processedResponseBody := true), ProcessResponseBody(env.body));
    OutcomesKeepTx(s1, ResponseBodyPhase, if env.body.Stop? then env.body.it else Interruption(0, 0), env);
    assert RunResponseBody(s, env).0.tx == s1.tx;
  }

  lemma SkipInspectionShares(s: Stream, bodySize: nat, env: Answers)
    requires s.tx.Some?
    ensures SameShare(s, SkipResponseInspection(s, bodySize, env).0) && Entry(SkipResponseInspection(s, bodySize, env).0) == Entry(s)
  {
    var s1 := Record(s, ProcessResponseBody(env.body));
    var it := if env.body.Stop? then env.body.it else Interruption(0, 0);
    OutcomesKeepTx(s1, ResponseBodyPhase, it, env);
    OutcomesKeepTx(s1.(processedResponseBody := true, bodyReadIndex := bodySize), ResponseBodyPhase, it, env);
    assert SkipResponseInspection(s, bodySize, env).0.tx == s1.tx;
  }

  lemma ResponseBodyFeeds(s: Stream, bodySize: nat, end: bool, env: Answers)
    ensures var r := OnHttpResponseBody(s, bodySize, end, env).0;
            ShareBack(r) == ShareBack(s) + Written(ResponseChunk(s, bodySize, env), env) && SameRequestShare(s, r)
  {
    var r := OnHttpResponseBody(s, bodySize, end, env);
    if s.interruptedAt == NoPhase && !s.processedResponseBody && s.tx.Some? {
      var s1 := SeeEngine(s, env);
      if s1.tx.value.off {
        assert r == (s1, Continue);
      } else if !env.bodyAccess || !env.bodyProcessable {
        assert r == SkipResponseInspection(s1, bodySize, env);
        SkipInspectionShares(s1, bodySize, env);
      } else {
        FeedResponseFeeds(s1, bodySize, env);
        assert ResponseChunk(s1, bodySize, env) == ResponseChunk(s, bodySize, env);
        var f := FeedResponseBody(s1, bodySize, env);
        if f.Leave? {
          assert r.0 == f.s;
        } else if end {
          assert r == RunResponseBody(f.s, env);
          RunResponseBodyShares(f.s, env);
        } else {
          assert r.0 == f.s;
        }
      }
    } else {
      assert r.0.tx == s.tx;
    }
  }

  lemma RequestHeadersShare(s: Stream, env: Answers)
    requires s.tx.None?
    ensures SameShare(s, OnHttpRequestHeaders(s, env).0)
  {
    hide HandleInterruption, ApplyFailurePolicy;
    var s1 := s.(metered := s.metered + [TransactionCounted]);
    OutcomesKeepTx(s1, RequestHeadersPhase, Interruption(0, 0), env);
    if env.authority.Some? && GetWAFOrDefault(s.wafs, env.authority.value).Resolved? {
      var w := GetWAFOrDefault(s.wafs, env.authority.value);
      var s2 := s1.(tx := Some(Tx(w.waf, env.engineOff, Empty)),
                    labels := if w.isDefault then s.labels else s.labels.(authority := env.authority));
      var s3 := Record(s2, ProcessRequestHeaders(env.headersVerdict));
      OutcomesKeepTx(s2, RequestHeadersPhase, Interruption(0, 0), env);
      OutcomesKeepTx(s3, RequestHeadersPhase, if env.headersVerdict.Some? then env.headersVerdict.value else Interruption(0, 0), env);
      OtherCallShares(s2, ProcessRequestHeaders(env.headersVerdict));
      var r := RunRequestHeaders(s2, env).0;
      assert OnHttpRequestHeaders(s, env).0 == r;
      assert r.tx == s2.tx || r.tx == s3.tx;
    }
  }

  lemma RunResponseHeadersShares(s: Stream, env: Answers)
    requires s.tx.Some?
    ensures var r := RunResponseHeaders(s, env).0; SameShare(s, r) && Entry(r) == Entry(s)
  {
    OutcomesKeepTx(s, ResponseHeadersPhase, Interruption(0, 0), env);
    var s1 := Record(s, ProcessResponseHeaders(env.headersVerdict));
    OutcomesKeepTx(s1, ResponseHeadersPhase, if env.headersVerdict.Some? then env.headersVerdict.value else Interruption(0, 0), env);
    assert RunResponseHeaders(s, env).0.tx == if env.headers then s1.tx else s.tx;
  }

  lemma ResponseHeadersShare(s: Stream, env: Answers)
    ensures var r := OnHttpResponseHeaders(s, env).0; SameShare(s, r) && (s.processedRequestBody ==> Entry(r) == Entry(s))
  {
    var r := OnHttpResponseHeaders(s, env).0;
    if s.interruptedAt == NoPhase && s.tx.Some? {
      var s1 := SeeEngine(s, env);
      if s1.tx.value.off {
        assert r == s1;
      } else if s1.processedRequestBody {
        assert r == RunResponseHeaders(s1, env).0;
        RunResponseHeadersShares(s1, env);
      } else {
        RunRequestBodyShares(s1, BeforeResponse, ResponseHeadersPhase, env);
        var s2 := RunRequestBody(s1, BeforeResponse, ResponseHeadersPhase, env).0;
        if env.body.Clean? {
          assert r == RunResponseHeaders(s2, env).0;
          RunResponseHeadersShares(s2, env);
        } else {
          assert r == s2;
        }
      }
    } else {
      assert r.tx == s.tx;
    }
  }

  lemma DoneShares(s: Stream, env: Answers)
    ensures var r := OnHttpStreamDone(s, env); SameShare(s, r) && Entry(r) == Entry(s)
  {
    if s.tx.Some? {
      var s1 := SeeEngine(s, env);
      var s2 :=
        if !s1.tx.value.off && s.interruptedAt == NoPhase && !s.processedResponseBody
        then Record(s1.(processedResponseBody := true), ProcessResponseBody(env.body))
        else s1;
      OtherCallShares(s1, ProcessResponseBody(env.body));
      assert SameShare(s, s2) && Entry(s2) == Entry(s);
      OtherCallShares(s2, ProcessLogging);
      OtherCallShares(Record(s2, ProcessLogging), CloseTransaction);
      assert OnHttpStreamDone(s, env) == Record(Record(s2, ProcessLogging), CloseTransaction);
    }
  }

  // ---- what one event hands over ----

  /** The request bytes the engine takes in during an event. */
  function Taken(s: Stream, ev: Event): seq<Byte> {
    if !Enabled(s, ev) || !ev.RequestData? then []
    else
      var s1 := ArriveRequest(s, ev.data);
      Written(RequestChunk(s1, |s1.host.requestBuffer|, ev.env), ev.env)
  }

  function TakenBack(s: Stream, ev: Event): seq<Byte> {
    if !Enabled(s, ev) || !ev.ResponseData? then []
    else
      var s1 := ArriveResponse(s, ev.data);
      Written(ResponseChunk(s1, |s1.host.responseBuffer|, ev.env), ev.env)
  }

  lemma ReleaseShares(r: (Stream, Action))
    ensures ReleaseRequest(r).tx == r.0.tx && ReleaseResponse(r).tx == r.0.tx
  {}

  lemma RequestStepFeeds(s: Stream, ev: Event)
    requires Enabled(s, ev) && (ev.RequestData? || ev.RequestTrailers?)
    ensures var r := Step(s, ev); Share(r) == Share(s) + Taken(s, ev) && ShareBack(r) == ShareBack(s)
  {
    if ev.RequestData? {
      var s1 := ArriveRequest(s, ev.data);
      var size := |s1.host.requestBuffer|;
      RequestBodyFeeds(s1, size, ev.end, ev.env);
      assert Step(s, ev) == ReleaseRequest(OnHttpRequestBody(s1, size, ev.end, ev.env));
      ReleaseShares(OnHttpRequestBody(s1, size, ev.end, ev.env));
    } else if s.tx.Some? {
      RequestBodyFeeds(s, s.bodyReadIndex, true, ev.env);
      assert Step(s, ev) == ReleaseRequest(OnHttpRequestBody(s, s.bodyReadIndex, true, ev.env));
      ReleaseShares(OnHttpRequestBody(s, s.bodyReadIndex, true, ev.env));
    }
  }

  lemma ResponseStepFeeds(s: Stream, ev: Event)
    requires Enabled(s, ev) && (ev.ResponseData? || ev.ResponseTrailers?)
    ensures var r := Step(s, ev); ShareBack(r) == ShareBack(s) + TakenBack(s, ev) && SameRequestShare(s, r)
  {
    if ev.ResponseData? {
      var s1 := ArriveResponse(s, ev.data);
      var size := |s1.host.responseBuffer|;
      ResponseBodyFeeds(s1, size, ev.end, ev.env);
      assert Step(s, ev) == ReleaseResponse(OnHttpResponseBody(s1, size, ev.end, ev.env));
      ReleaseShares(OnHttpResponseBody(s1, size, ev.end, ev.env));
    } else if s.tx.Some? {
      ResponseBodyFeeds(s, s.bodyReadIndex, true, ev.env);
      assert Step(s, ev) == ReleaseResponse(OnHttpResponseBody(s, s.bodyReadIndex, true, ev.env));
      ReleaseShares(OnHttpResponseBody(s, s.bodyReadIndex, true, ev.env));
    }
  }

  lemma HeadersStepShares(s: Stream, ev: Event)
    requires StreamInv(s) && Enabled(s, ev) && (ev.RequestHeaders? || ev.ResponseHeaders? || ev.Done?)
    ensures SameShare(s, Step(s, ev))
  {
    match ev
    case RequestHeaders(env) =>
      var s1 := s.(host := s.host.(requestHeadersSeen := true));
      RequestHeadersShare(s1, env);
      assert Step(s, ev) == OnHttpRequestHeaders(s1, env).0;
    case ResponseHeaders(env) =>
      var s1 := s.(host := s.host.(responseHeadersSeen := true));
      ResponseHeadersShare(s1, env);
      assert Step(s, ev) == OnHttpResponseHeaders(s1, env).0;
    case Done(env) =>
      var s1 := s.(host := s.host.(done := true));
      DoneShares(s1, env);
      assert Step(s, ev) == OnHttpStreamDone(s1, env);
  }

  /** An event adds to the engine's share what it hands over, at the end. */
  lemma StepFeeds(s: Stream, ev: Event)
    requires StreamInv(s)
    ensures var r := Step(s, ev); Share(r) == Share(s) + Taken(s, ev) && ShareBack(r) == ShareBack(s) + TakenBack(s, ev)
  {
    if Enabled(s, ev) {
      if ev.RequestData? || ev.RequestTrailers? {
        RequestStepFeeds(s, ev);
      } else if ev.ResponseData? || ev.ResponseTrailers? {
        ResponseStepFeeds(s, ev);
      } else {
        HeadersStepShares(s, ev);
      }
    }
  }
}
