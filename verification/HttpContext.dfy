/**
 The `httpContext` of wasmplugin/plugin.go as an object that its callbacks update, together with the
 transaction and the host it talks to. Every callback is proved to do exactly what the state machine
 of HttpStream says, and to increment exactly the counters it names.
 */
module HttpContexts {
  import opened Prelude
  import opened Wafs
  import opened HttpStream
  import opened Metrics

  class Transaction {
    const waf: Waf
    var off: bool
    var trace: Trace

    constructor (waf: Waf, env: Answers)
      ensures this.waf == waf && off == env.engineOff && trace == Empty
    {
      this.waf, off, trace := waf, env.engineOff, Empty;
    }

    ghost function Value(): Tx
      reads this
    {
      Tx(waf, off, trace)
    }

    method IsRuleEngineOff(env: Answers) returns (r: bool)
      modifies this`off
      ensures off == (old(off) || env.engineOff) && r == off
    {
      off := off || env.engineOff;
      r := off;
    }

    method Ask(c: Call)
      modifies this`trace
      ensures trace == Then(old(trace), c)
    {
      trace := Then(trace, c);
    }
  }

  /** The host's side of one stream. */
  class StreamHost {
    var h: Host

    constructor ()
      ensures h == NEW_HOST
    {
      h := NEW_HOST;
    }

    method GetHttpRequestBody(start: nat, size: nat, env: Answers) returns (r: Option<seq<Byte>>)
      ensures r == if env.read.None? then None else Some(ReadBuffer(h.requestBuffer, start, size, env.read.value))
    {
      r := if env.read.None? then None else Some(ReadBuffer(h.requestBuffer, start, size, env.read.value));
    }

    method GetHttpResponseBody(start: nat, size: nat, env: Answers) returns (r: Option<seq<Byte>>)
      ensures r == if env.read.None? then None else Some(Content(ReadBuffer(h.responseBuffer, start, size, env.read.value)))
    {
      r := if env.read.None? then None else Some(Content(ReadBuffer(h.responseBuffer, start, size, env.read.value)));
    }

    method ReplaceHttpResponseBody(body: seq<Octet>, env: Answers) returns (ok: bool)
      modifies this
      ensures ok == env.replaceOk && h == if ok then old(h).(responseBuffer := body) else old(h)
    {
      ok := env.replaceOk;
      if ok { h := h.(responseBuffer := body); }
    }

    method SendDenial(status: int, env: Answers) returns (ok: bool)
      modifies this
      ensures ok == env.sendOk && h == if ok then old(h).(denials := old(h).denials + [status]) else old(h)
    {
      ok := env.sendOk;
      if ok { h := h.(denials := h.denials + [status]); }
    }

    method SendRefusal(status: int, env: Answers) returns (ok: bool)
      modifies this
      ensures ok == env.sendOk && h == if ok then old(h).(refusals := old(h).refusals + [status]) else old(h)
    {
      ok := env.sendOk;
      if ok { h := h.(refusals := h.refusals + [status]); }
    }

    // ---- what the host does around the callbacks ----

    method MarkRequestHeaders()
      modifies this
      ensures h == old(h).(requestHeadersSeen := true)
    {
      h := h.(requestHeadersSeen := true);
    }

    method MarkResponseHeaders()
      modifies this
      ensures h == old(h).(responseHeadersSeen := true)
    {
      h := h.(responseHeadersSeen := true);
    }

    method MarkDone()
      modifies this
      ensures h == old(h).(done := true)
    {
      h := h.(done := true);
    }

    method BufferRequest(data: seq<Byte>)
      modifies this
      ensures h == old(h).(requestArrived := old(h).requestArrived + data, requestBuffer := old(h).requestBuffer + data)
    {
      h := h.(requestArrived := h.requestArrived + data, requestBuffer := h.requestBuffer + data);
    }

    method BufferResponse(data: seq<Byte>)
      modifies this
      ensures h == old(h).(responseArrived := old(h).responseArrived + data, responseBuffer := old(h).responseBuffer + Lift(data))
    {
      h := h.(responseArrived := h.responseArrived + data, responseBuffer := h.responseBuffer + Lift(data));
    }

    method SendUpstream(a: Action)
      modifies this
      ensures h == if a.Pause? then old(h)
                   else old(h).(upstream := old(h).upstream + old(h).requestBuffer, requestBuffer := [])
    {
      if a.Continue? {
        h := h.(upstream := h.upstream + h.requestBuffer, requestBuffer := []);
      }
    }

    method SendDownstream(a: Action)
      modifies this
      ensures h == if a.Pause? then old(h)
                   else old(h).(downstream := old(h).downstream + old(h).responseBuffer, responseBuffer := [])
    {
      if a.Continue? {
        h := h.(downstream := h.downstream + h.responseBuffer, responseBuffer := []);
      }
    }

    method LogError()
      modifies this
      ensures h == old(h).(errors := old(h).errors + 1)
    {
      h := h.(errors := h.errors + 1);
    }
  }

  class HttpContext {
    const perAuthorityWAFs: WafTable   // a copy of the plugin's, sharing its routes
    const failurePolicy: FailurePolicy
    const metrics: WafMetrics
    const host: StreamHost
    var metricLabels: Labels
    var tx: Transaction?
    var processedRequestBody: bool
    var processedResponseBody: bool
    var bodyReadIndex: nat
    var interruptedAt: Phase
    var panic: Option<Panic>
    ghost var metered: seq<Metered>   // what this stream has added to the shared counters

    ghost function State(): Stream
      reads this, tx, host, perAuthorityWAFs, perAuthorityWAFs.routes
    {
      Stream(perAuthorityWAFs.Value(), failurePolicy, metricLabels, if tx == null then None else Some(tx.Value()),
             processedRequestBody, processedResponseBody, bodyReadIndex, interruptedAt, metered, panic, host.h)
    }

    ghost predicate Valid()
      reads this, metrics, metrics.host
    {
      metrics.Valid() && |metricLabels.configured| % 2 == 0
    }

    /** The counters after this stream's metering went from `before` to what it is now. */
    ghost predicate Metering(before: Store, already: seq<Metered>)
      reads this, metrics, metrics.host
    {
      && |before.names| == |before.values|
      && already <= metered
      && metrics.Value() == BumpAll(before, NamesOf(metered[|already|..]))
    }

    constructor (wafs: WafTable, policy: FailurePolicy, labels: seq<string>, metrics: WafMetrics)
      requires metrics.Valid() && |labels| % 2 == 0
      ensures Valid() && State() == NewStream(wafs.Value(), policy, labels) && this.metrics == metrics && fresh(host)
      ensures perAuthorityWAFs == wafs && tx == null
    {
      perAuthorityWAFs, failurePolicy, this.metrics := wafs, policy, metrics;
      metricLabels, tx := Labels(labels, None), null;
      processedRequestBody, processedResponseBody, bodyReadIndex := false, false, 0;
      interruptedAt, panic, metered := NoPhase, None, [];
      host := new StreamHost();
    }

    method HandleInternalEngineFailurePolicy(env: Answers) returns (a: Action)
      requires Valid()
      modifies host
      ensures (State(), a) == ApplyFailurePolicy(old(State()), env)
    {
      host.LogError();
      if failurePolicy != Allow {
        var _ := host.SendRefusal(403, env);
        return Pause;
      }
      return Continue;
    }

    method ReplaceResponseBodyWhenInterrupted(bodySize: nat, env: Answers) returns (a: Action)
      modifies host
      ensures (State(), a) == ReplaceResponseBody(old(State()), bodySize, env)
    {
      var ok := host.ReplaceHttpResponseBody(Nulls(bodySize), env);
      if !ok {
        host.LogError();
      }
      return Continue;
    }

    /** Counts one increment of this stream in the shared counters. */
    method CountInterruption(phase: Phase, it: Interruption)
      requires Valid()
      modifies this`metered, metrics, metrics.host
      ensures Valid() && metered == old(metered) + [InterruptionCounted(phase, it.ruleID, metricLabels)]
      ensures Metering(old(metrics.Value()), old(metered))
    {
      metrics.CountTXInterruption(PhaseName(phase), it.ruleID, LabelList(metricLabels));
      MeterOne(old(metrics.Value()), metered, InterruptionCounted(phase, it.ruleID, metricLabels));
      metered := metered + [InterruptionCounted(phase, it.ruleID, metricLabels)];
    }

    method AnswerInterruptionAt(phase: Phase, it: Interruption, env: Answers) returns (a: Action)
      modifies this`interruptedAt, this`panic, host
      ensures (State(), a) == AnswerInterruption(old(State()), phase, it, env)
    {
      interruptedAt := phase;
      if phase == ResponseBodyPhase {
        a := ReplaceResponseBodyWhenInterrupted(bodyReadIndex, env);
        return;
      }
      var statusCode := it.status;
      if statusCode == 0 {
        statusCode := 403;
      }
      var ok := host.SendDenial(Uint32(statusCode), env);
      if !ok {
        panic := Some(SendFailed);
      }
      return Pause;
    }

    method HandleInterruptionAt(phase: Phase, it: Interruption, env: Answers) returns (a: Action)
      requires Valid()
      modifies this`interruptedAt, this`panic, this`metered, host, metrics, metrics.host
      ensures Valid()
      ensures (State(), a) == HandleInterruption(old(State()), phase, it, env)
      ensures Metering(old(metrics.Value()), old(metered))
    {
      hide AnswerInterruption, BumpAll, NamesOf;
      if interruptedAt != NoPhase {
        MeterNone(metrics.Value(), metered);
        panic := Some(AlreadyHandled);
        return Pause;
      }
      CountInterruption(phase, it);
      assert State() == old(State()).(metered := old(metered) + [InterruptionCounted(phase, it.ruleID, metricLabels)]);
      a := AnswerInterruptionAt(phase, it, env);
    }

    method CountTransaction()
      requires Valid()
      modifies this`metered, metrics, metrics.host
      ensures Valid() && metered == old(metered) + [TransactionCounted]
      ensures Metering(old(metrics.Value()), old(metered))
    {
      metrics.CountTX();
      MeterOne(old(metrics.Value()), metered, TransactionCounted);
      metered := metered + [TransactionCounted];
    }

    method OnRequestHeaders(env: Answers) returns (a: Action)
      requires Valid() && tx == null
      modifies this, host, metrics, metrics.host
      ensures Valid() && (tx == null || fresh(tx))
      ensures (State(), a) == OnHttpRequestHeaders(old(State()), env)
      ensures Metering(old(metrics.Value()), old(metered))
    {
      hide ResolveAndInspect;
      CountTransaction();
      ghost var before, already := metrics.Value(), metered;
      a := Resolve(env);
      MeterChain(old(metrics.Value()), old(metered), before, already, metered);
    }

    method Resolve(env: Answers) returns (a: Action)
      requires Valid() && tx == null
      modifies this, host, metrics, metrics.host
      ensures Valid() && (tx == null || fresh(tx))
      ensures (State(), a) == ResolveAndInspect(old(State()), env)
      ensures Metering(old(metrics.Value()), old(metered))
    {
      hide RunRequestHeaders, ApplyFailurePolicy, BumpAll, NamesOf;
      MeterNone(metrics.Value(), metered);
      if env.authority.None? {
        a := HandleInternalEngineFailurePolicy(env);
        return;
      }
      var resolution := perAuthorityWAFs.Resolve(env.authority.value);
      if resolution.NoDefaultWAF? {
        a := HandleInternalEngineFailurePolicy(env);
        return;
      }
      tx := new Transaction(resolution.waf, env);
      if !resolution.isDefault {
        metricLabels := metricLabels.(authority := env.authority);
      }
      a := InspectRequestHeaders(env);
    }

    method InspectRequestHeaders(env: Answers) returns (a: Action)
      requires Valid() && tx != null
      modifies this`interruptedAt, this`panic, this`metered, host, tx, metrics, metrics.host
      ensures Valid()
      ensures (State(), a) == RunRequestHeaders(old(State()), env)
      ensures Metering(old(metrics.Value()), old(metered))
    {
      hide HandleInterruption, ApplyFailurePolicy, BumpAll, NamesOf;
      MeterNone(metrics.Value(), metered);
      if tx.off {
        return Continue;
      }
      if !env.requestLine || !env.headers {
        a := HandleInternalEngineFailurePolicy(env);
        return;
      }
      tx.Ask(ProcessRequestHeaders(env.headersVerdict));
      if env.headersVerdict.Some? {
        a := HandleInterruptionAt(RequestHeadersPhase, env.headersVerdict.value, env);
        return;
      }
      return Continue;
    }

    method RunRequestBodyPhase(site: Site, phase: Phase, env: Answers) returns (a: Action)
      requires Valid() && tx != null
      modifies this`processedRequestBody, this`interruptedAt, this`panic, this`metered, host, tx, metrics, metrics.host
      ensures Valid()
      ensures (State(), a) == RunRequestBody(old(State()), site, phase, env)
      ensures Metering(old(metrics.Value()), old(metered))
    {
      hide HandleInterruption, ApplyFailurePolicy, BumpAll, NamesOf;
      MeterNone(metrics.Value(), metered);
      processedRequestBody := true;
      tx.Ask(ProcessRequestBody(site, env.body));
      match env.body {
        case EngineError => a := HandleInternalEngineFailurePolicy(env);
        case Stop(it) => a := HandleInterruptionAt(phase, it, env);
        case Clean => a := Continue;
      }
    }

    method WriteRequest(chunk: seq<Byte>, env: Answers) returns (left: bool, a: Action)
      requires Valid() && tx != null
      modifies this, host, tx, metrics, metrics.host
      ensures Valid() && tx == old(tx)
      ensures WriteRequestChunk(old(State()), chunk, env) == if left then Leave(State(), a) else Proceed(State())
      ensures Metering(old(metrics.Value()), old(metered))
    {
      hide HandleInterruption, ApplyFailurePolicy, BumpAll, NamesOf;
      MeterNone(metrics.Value(), metered);
      left, a := true, Continue;
      tx.Ask(WriteRequestBody(chunk, env.write));
      match env.write {
        case WriteError => a := HandleInternalEngineFailurePolicy(env);
        case WriteStop(it) => a := HandleInterruptionAt(RequestBodyPhase, it, env);
        case Wrote(writtenBytes) =>
          if writtenBytes < |chunk| {
            processedRequestBody := true;
          } else {
            bodyReadIndex := bodyReadIndex + |chunk|;
            left := false;
          }
      }
    }

    method FeedRequest(bodySize: nat, env: Answers) returns (left: bool, a: Action)
      requires Valid() && tx != null
      modifies this, host, tx, metrics, metrics.host
      ensures Valid() && tx == old(tx)
      ensures FeedRequestBody(old(State()), bodySize, env) == if left then Leave(State(), a) else Proceed(State())
      ensures Metering(old(metrics.Value()), old(metered))
    {
      hide ApplyFailurePolicy, WriteRequestChunk, BumpAll, NamesOf;
      MeterNone(metrics.Value(), metered);
      left, a := false, Continue;
      var chunkSize := bodySize - bodyReadIndex;
      if chunkSize > 0 {
        var bodyChunk := host.GetHttpRequestBody(bodyReadIndex, chunkSize, env);
        if bodyChunk.None? {
          left := true;
          a := HandleInternalEngineFailurePolicy(env);
        } else {
          left, a := WriteRequest(bodyChunk.value, env);
        }
      }
    }

    method OnRequestBody(bodySize: nat, endOfStream: bool, env: Answers) returns (a: Action)
      requires Valid()
      modifies this, host, tx, metrics, metrics.host
      ensures Valid() && tx == old(tx)
      ensures (State(), a) == OnHttpRequestBody(old(State()), bodySize, endOfStream, env)
      ensures Metering(old(metrics.Value()), old(metered))
    {
      hide FeedRequestBody, RunRequestBody, BumpAll, NamesOf;
      MeterNone(metrics.Value(), metered);
      if interruptedAt != NoPhase {
        if tx == null { panic := Some(NilLogger); }
        return Pause;
      }
      if processedRequestBody || tx == null {
        return Continue;
      }
      var off := tx.IsRuleEngineOff(env);
      assert State() == SeeEngine(old(State()), env);
      if off {
        return Continue;
      }
      if !env.bodyAccess {
        a := RunRequestBodyPhase(NoBodyAccess, RequestBodyPhase, env);
        return;
      }
      var left;
      left, a := FeedRequest(bodySize, env);
      if left {
        return;
      }
      if endOfStream {
        ghost var fed := State();
        bodyReadIndex := 0;
        assert State() == fed.(bodyReadIndex := 0);
        ghost var before, already := metrics.Value(), metered;
        a := RunRequestBodyPhase(EndOfStream, RequestBodyPhase, env);
        MeterChain(old(metrics.Value()), old(metered), before, already, metered);
        return;
      }
      return Pause;
    }

    method OnRequestTrailers(env: Answers) returns (a: Action)
      requires Valid()
      modifies this, host, tx, metrics, metrics.host
      ensures Valid() && tx == old(tx)
      ensures (State(), a) == OnHttpRequestTrailers(old(State()), env)
      ensures Metering(old(metrics.Value()), old(metered))
    {
      if tx == null {
        MeterNone(metrics.Value(), metered);
        panic := Some(NilLogger);
        return Pause;
      }
      a := OnRequestBody(bodyReadIndex, true, env);
    }

    method InspectResponseHeaders(env: Answers) returns (a: Action)
      requires Valid() && tx != null
      modifies this`interruptedAt, this`panic, this`metered, host, tx, metrics, metrics.host
      ensures Valid()
      ensures (State(), a) == RunResponseHeaders(old(State()), env)
      ensures Metering(old(metrics.Value()), old(metered))
    {
      hide HandleInterruption, ApplyFailurePolicy, BumpAll, NamesOf;
      MeterNone(metrics.Value(), metered);
      if !env.headers {
        a := HandleInternalEngineFailurePolicy(env);
        return;
      }
      tx.Ask(ProcessResponseHeaders(env.headersVerdict));
      if env.headersVerdict.Some? {
        a := HandleInterruptionAt(ResponseHeadersPhase, env.headersVerdict.value, env);
        return;
      }
      return Continue;
    }

    method OnResponseHeaders(env: Answers) returns (a: Action)
      requires Valid()
      modifies this, host, tx, metrics, metrics.host
      ensures Valid() && tx == old(tx)
      ensures (State(), a) == OnHttpResponseHeaders(old(State()), env)
      ensures Metering(old(metrics.Value()), old(metered))
    {
      hide RunRequestBody, RunResponseHeaders, BumpAll, NamesOf;
      MeterNone(metrics.Value(), metered);
      if interruptedAt != NoPhase {
        if tx == null {
          panic := Some(NilLogger);
          return Pause;
        }
        return Continue;
      }
      if tx == null {
        return Continue;
      }
      var off := tx.IsRuleEngineOff(env);
      if off {
        return Continue;
      }
      if !processedRequestBody {
        a := RunRequestBodyPhase(BeforeResponse, ResponseHeadersPhase, env);
        if !env.body.Clean? {
          return;
        }
      }
      ghost var before, already := metrics.Value(), metered;
      a := InspectResponseHeaders(env);
      MeterChain(old(metrics.Value()), old(metered), before, already, metered);
    }

    method SkipResponse(bodySize: nat, env: Answers) returns (a: Action)
      requires Valid() && tx != null
      modifies this, host, tx, metrics, metrics.host
      ensures Valid() && tx == old(tx)
      ensures (State(), a) == SkipResponseInspection(old(State()), bodySize, env)
      ensures Metering(old(metrics.Value()), old(metered))
    {
      hide HandleInterruption, ApplyFailurePolicy, BumpAll, NamesOf;
      MeterNone(metrics.Value(), metered);
      tx.Ask(ProcessResponseBody(env.body));
      match env.body {
        case EngineError => a := HandleInternalEngineFailurePolicy(env);
        case Stop(it) =>
          processedResponseBody := true;
          bodyReadIndex := bodySize;
          a := HandleInterruptionAt(ResponseBodyPhase, it, env);
        case Clean =>
          processedResponseBody := true;
          a := Continue;
      }
    }

    method WriteResponse(chunk: seq<Byte>, env: Answers) returns (left: bool, a: Action)
      requires Valid() && tx != null
      modifies this, host, tx, metrics, metrics.host
      ensures Valid() && tx == old(tx)
      ensures WriteResponseChunk(old(State()), chunk, env) == if left then Leave(State(), a) else Proceed(State())
      ensures Metering(old(metrics.Value()), old(metered))
    {
      hide HandleInterruption, ApplyFailurePolicy, BumpAll, NamesOf;
      MeterNone(metrics.Value(), metered);
      left, a := true, Continue;
      tx.Ask(WriteResponseBody(chunk, env.write));
      match env.write {
        case WriteError => a := HandleInternalEngineFailurePolicy(env);
        case WriteStop(it) =>
          bodyReadIndex := bodyReadIndex + |chunk|;
          a := HandleInterruptionAt(ResponseBodyPhase, it, env);
        case Wrote(writtenBytes) =>
          bodyReadIndex := bodyReadIndex + |chunk|;
          if writtenBytes < |chunk| {
            processedResponseBody := true;
          } else {
            left := false;
          }
      }
    }

    method FeedResponse(bodySize: nat, env: Answers) returns (left: bool, a: Action)
      requires Valid() && tx != null
      modifies this, host, tx, metrics, metrics.host
      ensures Valid() && tx == old(tx)
      ensures FeedResponseBody(old(State()), bodySize, env) == if left then Leave(State(), a) else Proceed(State())
      ensures Metering(old(metrics.Value()), old(metered))
    {
      hide ApplyFailurePolicy, WriteResponseChunk, BumpAll, NamesOf;
      MeterNone(metrics.Value(), metered);
      left, a := false, Continue;
      var chunkSize := bodySize - bodyReadIndex;
      if chunkSize > 0 {
        var bodyChunk := host.GetHttpResponseBody(bodyReadIndex, chunkSize, env);
        if bodyChunk.None? {
          left := true;
          a := HandleInternalEngineFailurePolicy(env);
        } else {
          left, a := WriteResponse(bodyChunk.value, env);
        }
      }
    }

    method RunResponseBodyPhase(env: Answers) returns (a: Action)
      requires Valid() && tx != null
      modifies this, host, tx, metrics, metrics.host
      ensures Valid() && tx == old(tx)
      ensures (State(), a) == RunResponseBody(old(State()), env)
      ensures Metering(old(metrics.Value()), old(metered))
    {
      hide HandleInterruption, ApplyFailurePolicy, BumpAll, NamesOf;
      MeterNone(metrics.Value(), metered);
      processedResponseBody := true;
      tx.Ask(ProcessResponseBody(env.body));
      match env.body {
        case EngineError => a := HandleInternalEngineFailurePolicy(env);
        case Stop(it) => a := HandleInterruptionAt(ResponseBodyPhase, it, env);
        case Clean => a := Continue;
      }
    }

    method OnResponseBody(bodySize: nat, endOfStream: bool, env: Answers) returns (a: Action)
      requires Valid()
      modifies this, host, tx, metrics, metrics.host
      ensures Valid() && tx == old(tx)
      ensures (State(), a) == OnHttpResponseBody(old(State()), bodySize, endOfStream, env)
      ensures Metering(old(metrics.Value()), old(metered))
    {
      hide FeedResponseBody, RunResponseBody, SkipResponseInspection, ReplaceResponseBody, BumpAll, NamesOf;
      MeterNone(metrics.Value(), metered);
      if interruptedAt != NoPhase {
        if tx == null {
          panic := Some(NilLogger);
          return Pause;
        }
        a := ReplaceResponseBodyWhenInterrupted(bodySize, env);
        return;
      }
      if processedResponseBody || tx == null {
        return Continue;
      }
      var off := tx.IsRuleEngineOff(env);
      if off {
        return Continue;
      }
      if !env.bodyAccess || !env.bodyProcessable {
        a := SkipResponse(bodySize, env);
        return;
      }
      var left;
      left, a := FeedResponse(bodySize, env);
      if left {
        return;
      }
      if endOfStream {
        ghost var before, already := metrics.Value(), metered;
        a := RunResponseBodyPhase(env);
        MeterChain(old(metrics.Value()), old(metered), before, already, metered);
        return;
      }
      return Pause;
    }

    method OnResponseTrailers(env: Answers) returns (a: Action)
      requires Valid()
      modifies this, host, tx, metrics, metrics.host
      ensures Valid() && tx == old(tx)
      ensures (State(), a) == OnHttpResponseTrailers(old(State()), env)
      ensures Metering(old(metrics.Value()), old(metered))
    {
      if tx == null {
        MeterNone(metrics.Value(), metered);
        panic := Some(NilLogger);
        return Pause;
      }
      a := OnResponseBody(bodyReadIndex, true, env);
    }

    method OnStreamDone(env: Answers)
      modifies this`processedResponseBody, tx
      ensures State() == OnHttpStreamDone(old(State()), env)
    {
      if tx != null {
        var off := tx.IsRuleEngineOff(env);
        if !off && interruptedAt == NoPhase && !processedResponseBody {
          processedResponseBody := true;
          tx.Ask(ProcessResponseBody(env.body));
        }
        tx.Ask(ProcessLogging);
        tx.Ask(CloseTransaction);
      }
    }
  }

  lemma MeterOne(st: Store, ms: seq<Metered>, m: Metered)
    requires |st.names| == |st.values|
    ensures BumpAll(st, NamesOf((ms + [m])[|ms|..])) == Bump(st, NameOf(m))
  {
    assert (ms + [m])[|ms|..] == [m];
    assert NamesOf([m]) == [NameOf(m)];
    assert [NameOf(m)][..0] == [];
    assert BumpAll(st, []) == st;
  }

  lemma MeterNone(st: Store, ms: seq<Metered>)
    requires |st.names| == |st.values|
    ensures BumpAll(st, NamesOf(ms[|ms|..])) == st
  {}

  lemma {:induction false} BumpAllConcat(st: Store, a: seq<string>, b: seq<string>)
    requires |st.names| == |st.values|
    ensures BumpAll(st, a + b) == BumpAll(BumpAll(st, a), b)
  {
    if b == [] {
      assert a + b == a;
    } else {
      var front := b[..|b| - 1];
      assert (a + b)[..|a + b| - 1] == a + front;
      BumpAllConcat(st, a, front);
    }
  }

  lemma StretchesJoin(m0: seq<Metered>, m1: seq<Metered>, m2: seq<Metered>)
    requires m0 <= m1 <= m2
    ensures m2[|m0|..] == m1[|m0|..] + m2[|m1|..]
  {
    assert m1 == m2[..|m1|];
  }

  /** Metering in two stretches is metering in one. */
  lemma MeterChain(st: Store, m0: seq<Metered>, mid: Store, m1: seq<Metered>, m2: seq<Metered>)
    requires |st.names| == |st.values| && m0 <= m1 <= m2
    requires mid == BumpAll(st, NamesOf(m1[|m0|..]))
    ensures BumpAll(mid, NamesOf(m2[|m1|..])) == BumpAll(st, NamesOf(m2[|m0|..]))
  {
    BumpAllConcat(st, NamesOf(m1[|m0|..]), NamesOf(m2[|m1|..]));
    StretchesJoin(m0, m1, m2);
    NamesJoin(m1[|m0|..], m2[|m1|..]);
  }
}
