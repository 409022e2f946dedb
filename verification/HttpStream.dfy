/**
 The life of one HTTP stream in wasmplugin/plugin.go, as a state machine.

 Every callback is a function from the stream's state and the answers that the engine and the
 host give during that callback. The answers are arbitrary, so a statement about all runs is a
 statement about every engine, every rule set and every host.
 */
module HttpStream {
  import opened Prelude
  import opened Wafs

  // ---- what the engine may answer, and the record it keeps of what it was asked ----

  datatype Interruption = Interruption(ruleID: int, status: int)

  /** Outcome of processing a body phase; an error hides a possible interruption. */
  datatype Verdict = Clean | Stop(it: Interruption) | EngineError

  /** Outcome of writing a chunk: how many bytes were written, an interruption or an error. */
  datatype WriteVerdict = Wrote(n: int) | WriteStop(it: Interruption) | WriteError

  /** Which of the three exits of the plugin asked for the request-body phase. */
  datatype Site = NoBodyAccess | EndOfStream | BeforeResponse

  datatype Call =
    | ProcessRequestHeaders(stop: Option<Interruption>)
    | WriteRequestBody(chunk: seq<Byte>, written: WriteVerdict)
    | ProcessRequestBody(site: Site, verdict: Verdict)
    | ProcessResponseHeaders(stop: Option<Interruption>)
    | WriteResponseBody(chunk: seq<Byte>, written: WriteVerdict)
    | ProcessResponseBody(verdict: Verdict)
    | ProcessLogging
    | CloseTransaction

  /** The calls made to a transaction, latest last. */
  datatype Trace = Empty | Then(earlier: Trace, last: Call)

  /** A transaction; once a rule has turned its engine off, the engine stays off. */
  datatype Tx = Tx(waf: Waf, off: bool, trace: Trace)

  // ---- the host ----

  /** A byte on its way to the client: either sent by the server or a null byte put there by the plugin. */
  datatype Octet = FromServer(b: Byte) | Null

  function Lift(bytes: seq<Byte>): (r: seq<Octet>)
    ensures |r| == |bytes| && forall i :: 0 <= i < |r| ==> r[i] == FromServer(bytes[i])
  {
    seq(|bytes|, i requires 0 <= i < |bytes| => FromServer(bytes[i]))
  }

  function Content(octets: seq<Octet>): (r: seq<Byte>)
    ensures |r| == |octets|
    ensures forall i :: 0 <= i < |r| ==> r[i] == if octets[i].Null? then 0 else octets[i].b
  {
    seq(|octets|, i requires 0 <= i < |octets| => if octets[i].Null? then 0 else octets[i].b)
  }

  function Nulls(n: nat): (r: seq<Octet>)
    ensures |r| == n && forall i :: 0 <= i < n ==> r[i] == Null
  {
    seq(n, _ => Null)
  }

  datatype Host = Host(
    requestArrived: seq<Byte>,    // everything the client sent so far
    requestBuffer: seq<Byte>,     // the part held back by the filter
    upstream: seq<Byte>,          // the part released to the server
    responseArrived: seq<Byte>,
    responseBuffer: seq<Octet>,
    downstream: seq<Octet>,       // what the client received
    denials: seq<int>,            // status codes of the local responses sent for an interruption
    refusals: seq<int>,           // and of those sent by the failure policy
    errors: nat,                  // errors the plugin logged: failure-policy calls and failed replacements
    requestHeadersSeen: bool,
    responseHeadersSeen: bool,
    done: bool)

  /** The answers met during one callback; a callback consults only those it needs. */
  datatype Answers = Answers(
    authority: Option<string>,    // `:authority` or the host property, if any can be read
    engineOff: bool,
    requestLine: bool,            // method and path can be read
    headers: bool,                // headers (and the response status) can be read
    headersVerdict: Option<Interruption>,
    bodyAccess: bool,
    bodyProcessable: bool,
    read: Option<nat>,            // None: reading the buffer fails; Some(k): at most k bytes come back
    write: WriteVerdict,
    body: Verdict,
    sendOk: bool,                 // the host accepts a local response
    replaceOk: bool)              // the host accepts a replaced body

  // ---- the plugin's own state ----

  datatype Phase = NoPhase | RequestHeadersPhase | RequestBodyPhase | ResponseHeadersPhase | ResponseBodyPhase

  datatype Action = Continue | Pause

  datatype Panic = AlreadyHandled | NilLogger | SendFailed

  /** The configured policy is any string; only "allow" lets traffic pass after an error. */
  datatype FailurePolicy = Allow | OtherPolicy(name: string)

  /** The labels of a stream's counters: the configured pairs, then the authority if it has its own engine. */
  datatype Labels = Labels(configured: seq<string>, authority: Option<string>)

  /** One increment of one counter. */
  datatype Metered = TransactionCounted | InterruptionCounted(phase: Phase, ruleID: int, labels: Labels)

  datatype Stream = Stream(
    wafs: WafMap,
    failurePolicy: FailurePolicy,
    labels: Labels,
    tx: Option<Tx>,               // the logger is set together with the transaction
    processedRequestBody: bool,
    processedResponseBody: bool,
    bodyReadIndex: nat,
    interruptedAt: Phase,
    metered: seq<Metered>,        // the counters this stream has incremented, in order
    panic: Option<Panic>,
    host: Host)

  const NEW_HOST := Host([], [], [], [], [], [], [], [], 0, false, false, false)

  /** `corazaPlugin.NewHttpContext` */
  function NewStream(wafs: WafMap, failurePolicy: FailurePolicy, configured: seq<string>): Stream {
    Stream(wafs, failurePolicy, Labels(configured, None), None, false, false, 0, NoPhase, [], None, NEW_HOST)
  }

  // ---- effects ----

  function Record(s: Stream, c: Call): Stream
    requires s.tx.Some?
  {
    s.(tx := Some(s.tx.value.(trace := Then(s.tx.value.trace, c))))
  }

  function LogError(s: Stream): Stream {
    s.(host := s.host.(errors := s.host.errors + 1))
  }

  function Crash(s: Stream, p: Panic): (Stream, Action) {
    (s.(panic := Some(p)), Pause)
  }

  /** `handleInternalEngineFailurePolicy`: every policy but "allow" answers 403 and pauses. */
  function ApplyFailurePolicy(s: Stream, env: Answers): (Stream, Action) {
    var s1 := LogError(s);
    if s.failurePolicy == Allow then (s1, Continue)
    else if env.sendOk then (s1.(host := s1.host.(refusals := s1.host.refusals + [403])), Pause)
    else (s1, Pause)
  }

  /** `replaceResponseBodyWhenInterrupted`: the whole buffer becomes `size` null bytes. */
  function ReplaceResponseBody(s: Stream, size: nat, env: Answers): (Stream, Action) {
    if env.replaceOk then (s.(host := s.host.(responseBuffer := Nulls(size))), Continue)
    else (LogError(s), Continue)
  }

  /** The status code sent for an interruption: its own, or 403 if it names none. */
  function DenialStatus(it: Interruption): int {
    Uint32(if it.status == 0 then 403 else it.status)
  }

  /** Tells the client about an interruption: a local response, or null bytes once the body has begun. */
  function AnswerInterruption(s: Stream, phase: Phase, it: Interruption, env: Answers): (Stream, Action) {
    var s1 := s.(interruptedAt := phase);
    if phase == ResponseBodyPhase then ReplaceResponseBody(s1, s1.bodyReadIndex, env)
    else if !env.sendOk then Crash(s1, SendFailed)
    else (s1.(host := s1.host.(denials := s1.host.denials + [DenialStatus(it)])), Pause)
  }

  /** `handleInterruption` */
  function HandleInterruption(s: Stream, phase: Phase, it: Interruption, env: Answers): (Stream, Action) {
    if s.interruptedAt != NoPhase then Crash(s, AlreadyHandled)
    else
      var s1 := s.(metered := s.metered + [InterruptionCounted(phase, it.ruleID, s.labels)]);
      AnswerInterruption(s1, phase, it, env)
  }

  /** `tx.IsRuleEngineOff` */
  function SeeEngine(s: Stream, env: Answers): (r: Stream)
    requires s.tx.Some?
    ensures r.tx.Some?
  {
    s.(tx := Some(s.tx.value.(off := s.tx.value.off || env.engineOff)))
  }

  /** Reading `size` bytes at `start` from a host buffer gives what is there, possibly cut short. */
  function ReadBuffer<T>(buffer: seq<T>, start: nat, size: nat, atMost: nat): (r: seq<T>)
    ensures |r| <= size
    ensures start + |r| <= |buffer| || r == []
  {
    if start >= |buffer| then []
    else
      var available := if start + size <= |buffer| then size else |buffer| - start;
      buffer[start..start + (if available <= atMost then available else atMost)]
  }

  // ---- the callbacks ----

  function OnHttpRequestHeaders(s: Stream, env: Answers): (Stream, Action) {
    ResolveAndInspect(s.(metered := s.metered + [TransactionCounted]), env)
  }

  /** Finds the engine for the request's authority and opens a transaction on it. */
  function ResolveAndInspect(s: Stream, env: Answers): (Stream, Action) {
    if env.authority.None? then ApplyFailurePolicy(s, env)
    else
      match GetWAFOrDefault(s.wafs, env.authority.value)
      case NoDefaultWAF => ApplyFailurePolicy(s, env)
      case Resolved(waf, isDefault) =>
        var s := s.(tx := Some(Tx(waf, env.engineOff, Empty)),
                    labels := if isDefault then s.labels else s.labels.(authority := env.authority));
        RunRequestHeaders(s, env)
  }

  function RunRequestHeaders(s: Stream, env: Answers): (Stream, Action)
    requires s.tx.Some?
  {
    if s.tx.value.off then (s, Continue)
    else if !env.requestLine || !env.headers then ApplyFailurePolicy(s, env)
    else
      var s := Record(s, ProcessRequestHeaders(env.headersVerdict));
      if env.headersVerdict.Some? then HandleInterruption(s, RequestHeadersPhase, env.headersVerdict.value, env)
      else (s, Continue)
  }

  /** Runs the request-body phase; the flag is set before the engine is asked. */
  function RunRequestBody(s: Stream, site: Site, phase: Phase, env: Answers): (Stream, Action)
    requires s.tx.Some?
  {
    var s := Record(s.(processedRequestBody := true), ProcessRequestBody(site, env.body));
    match env.body
    case EngineError => ApplyFailurePolicy(s, env)
    case Stop(it) => HandleInterruption(s, phase, it, env)
    case Clean => (s, Continue)
  }

  /** Outcome of handing the new part of a body to the engine: go on, or leave the callback. */
  datatype Fed = Proceed(s: Stream) | Leave(s: Stream, action: Action)

  function FeedRequestBody(s: Stream, bodySize: nat, env: Answers): (r: Fed)
    requires s.tx.Some?
    ensures r.Proceed? ==> r.s.tx.Some?
  {
    var chunkSize := bodySize - s.bodyReadIndex;
    if chunkSize <= 0 then Proceed(s)
    else if env.read.None? then
      var (s, a) := ApplyFailurePolicy(s, env); Leave(s, a)
    else
      WriteRequestChunk(s, ReadBuffer(s.host.requestBuffer, s.bodyReadIndex, chunkSize, env.read.value), env)
  }

  /** A partial write means that the engine reached its limit; the index then keeps its value. */
  function WriteRequestChunk(s: Stream, chunk: seq<Byte>, env: Answers): (r: Fed)
    requires s.tx.Some?
    ensures r.Proceed? ==> r.s.tx.Some?
  {
    var s := Record(s, WriteRequestBody(chunk, env.write));
    match env.write
    case WriteError => (var (s, a) := ApplyFailurePolicy(s, env); Leave(s, a))
    case WriteStop(it) => (var (s, a) := HandleInterruption(s, RequestBodyPhase, it, env); Leave(s, a))
    case Wrote(n) =>
      if n < |chunk| then Leave(s.(processedRequestBody := true), Continue)
      else Proceed(s.(bodyReadIndex := s.bodyReadIndex + |chunk|))
  }

  function OnHttpRequestBody(s: Stream, bodySize: nat, endOfStream: bool, env: Answers): (Stream, Action) {
    if s.interruptedAt != NoPhase then
      if s.tx.None? then Crash(s, NilLogger) else (s, Pause)
    else if s.processedRequestBody || s.tx.None? then (s, Continue)
    else
      var s := SeeEngine(s, env);
      if s.tx.value.off then (s, Continue)
      else if !env.bodyAccess then RunRequestBody(s, NoBodyAccess, RequestBodyPhase, env)
      else
        match FeedRequestBody(s, bodySize, env)
        case Leave(s, a) => (s, a)
        case Proceed(s) =>
          if endOfStream then RunRequestBody(s.(bodyReadIndex := 0), EndOfStream, RequestBodyPhase, env)
          else (s, Pause)
  }

  function OnHttpRequestTrailers(s: Stream, env: Answers): (Stream, Action) {
    if s.tx.None? then Crash(s, NilLogger)
    else OnHttpRequestBody(s, s.bodyReadIndex, true, env)
  }

  function OnHttpResponseHeaders(s: Stream, env: Answers): (Stream, Action) {
    if s.interruptedAt != NoPhase then
      if s.tx.None? then Crash(s, NilLogger) else (s, Continue)
    else if s.tx.None? then (s, Continue)
    else
      var s := SeeEngine(s, env);
      if s.tx.value.off then (s, Continue)
      else if s.processedRequestBody then RunResponseHeaders(s, env)
      else
        var (s', a) := RunRequestBody(s, BeforeResponse, ResponseHeadersPhase, env);
        if env.body.Clean? then RunResponseHeaders(s', env) else (s', a)
  }

  function RunResponseHeaders(s: Stream, env: Answers): (Stream, Action)
    requires s.tx.Some?
  {
    if !env.headers then ApplyFailurePolicy(s, env)
    else
      var s := Record(s, ProcessResponseHeaders(env.headersVerdict));
      if env.headersVerdict.Some? then HandleInterruption(s, ResponseHeadersPhase, env.headersVerdict.value, env)
      else (s, Continue)
  }

  /** The path taken when the response body is not inspected: the flag is set only after an error-free call. */
  function SkipResponseInspection(s: Stream, bodySize: nat, env: Answers): (Stream, Action)
    requires s.tx.Some?
  {
    var s := Record(s, ProcessResponseBody(env.body));
    match env.body
    case EngineError => ApplyFailurePolicy(s, env)
    case Stop(it) =>
      HandleInterruption(s.(processedResponseBody := true, bodyReadIndex := bodySize), ResponseBodyPhase, it, env)
    case Clean => (s.(processedResponseBody := true), Continue)
  }

  function FeedResponseBody(s: Stream, bodySize: nat, env: Answers): (r: Fed)
    requires s.tx.Some?
    ensures r.Proceed? ==> r.s.tx.Some?
  {
    var chunkSize := bodySize - s.bodyReadIndex;
    if chunkSize <= 0 then Proceed(s)
    else if env.read.None? then
      var (s, a) := ApplyFailurePolicy(s, env); Leave(s, a)
    else
      WriteResponseChunk(s, Content(ReadBuffer(s.host.responseBuffer, s.bodyReadIndex, chunkSize, env.read.value)), env)
  }

  /** Unlike for requests, the index moves on before an interruption or a partial write is looked at. */
  function WriteResponseChunk(s: Stream, chunk: seq<Byte>, env: Answers): (r: Fed)
    requires s.tx.Some?
    ensures r.Proceed? ==> r.s.tx.Some?
  {
    var s := Record(s, WriteResponseBody(chunk, env.write));
    match env.write
    case WriteError => (var (s, a) := ApplyFailurePolicy(s, env); Leave(s, a))
    case WriteStop(it) =>
      var s := s.(bodyReadIndex := s.bodyReadIndex + |chunk|);
      (var (s, a) := HandleInterruption(s, ResponseBodyPhase, it, env); Leave(s, a))
    case Wrote(n) =>
      var s := s.(bodyReadIndex := s.bodyReadIndex + |chunk|);
      if n < |chunk| then Leave(s.(processedResponseBody := true), Continue) else Proceed(s)
  }

  function RunResponseBody(s: Stream, env: Answers): (Stream, Action)
    requires s.tx.Some?
  {
    var s := Record(s.(processedResponseBody := true), ProcessResponseBody(env.body));
    match env.body
    case EngineError => ApplyFailurePolicy(s, env)
    case Stop(it) => HandleInterruption(s, ResponseBodyPhase, it, env)
    case Clean => (s, Continue)
  }

  function OnHttpResponseBody(s: Stream, bodySize: nat, endOfStream: bool, env: Answers): (Stream, Action) {
    if s.interruptedAt != NoPhase then
      if s.tx.None? then Crash(s, NilLogger) else ReplaceResponseBody(s, bodySize, env)
    else if s.processedResponseBody || s.tx.None? then (s, Continue)
    else
      var s := SeeEngine(s, env);
      if s.tx.value.off then (s, Continue)
      else if !env.bodyAccess || !env.bodyProcessable then SkipResponseInspection(s, bodySize, env)
      else
        match FeedResponseBody(s, bodySize, env)
        case Leave(s, a) => (s, a)
        case Proceed(s) => if endOfStream then RunResponseBody(s, env) else (s, Pause)
  }

  function OnHttpResponseTrailers(s: Stream, env: Answers): (Stream, Action) {
    if s.tx.None? then Crash(s, NilLogger)
    else OnHttpResponseBody(s, s.bodyReadIndex, true, env)
  }

  function OnHttpStreamDone(s: Stream, env: Answers): Stream {
    if s.tx.None? then s
    else
      var s := SeeEngine(s, env);
      var s :=
        if !s.tx.value.off && s.interruptedAt == NoPhase && !s.processedResponseBody
        then Record(s.(processedResponseBody := true), ProcessResponseBody(env.body))
        else s;
      Record(Record(s, ProcessLogging), CloseTransaction)
  }

  // ---- the host drives the callbacks ----

  datatype Event =
    | RequestHeaders(env: Answers)
    | RequestData(data: seq<Byte>, end: bool, env: Answers)
    | RequestTrailers(env: Answers)
    | ResponseHeaders(env: Answers)
    | ResponseData(data: seq<Byte>, end: bool, env: Answers)
    | ResponseTrailers(env: Answers)
    | Done(env: Answers)

  /**
   The only order assumed of the host: headers come at most once and first in their direction, the
   request's headers are not delivered after the response's, and nothing follows the done callback.
   A crashed plugin receives nothing.
   */
  predicate Enabled(s: Stream, ev: Event) {
    && s.panic.None?
    && !s.host.done
    && match ev
       case RequestHeaders(_) => !s.host.requestHeadersSeen && !s.host.responseHeadersSeen
       case RequestData(_, _, _) => s.host.requestHeadersSeen
       case RequestTrailers(_) => s.host.requestHeadersSeen
       case ResponseHeaders(_) => !s.host.responseHeadersSeen
       case ResponseData(_, _, _) => s.host.responseHeadersSeen
       case ResponseTrailers(_) => s.host.responseHeadersSeen
       case Done(_) => true
  }

  /** Continue releases what is buffered; Pause and a crash keep it. */
  function ReleaseRequest(r: (Stream, Action)): Stream {
    if r.1.Pause? then r.0
    else r.0.(host := r.0.host.(upstream := r.0.host.upstream + r.0.host.requestBuffer, requestBuffer := []))
  }

  function ReleaseResponse(r: (Stream, Action)): Stream {
    if r.1.Pause? then r.0
    else r.0.(host := r.0.host.(downstream := r.0.host.downstream + r.0.host.responseBuffer, responseBuffer := []))
  }

  function ArriveRequest(s: Stream, data: seq<Byte>): Stream {
    s.(host := s.host.(requestArrived := s.host.requestArrived + data, requestBuffer := s.host.requestBuffer + data))
  }

  function ArriveResponse(s: Stream, data: seq<Byte>): Stream {
    s.(host := s.host.(responseArrived := s.host.responseArrived + data,
                       responseBuffer := s.host.responseBuffer + Lift(data)))
  }

  /** One event; an event the host may not deliver in this state is dropped. */
  function Step(s: Stream, ev: Event): Stream {
    if !Enabled(s, ev) then s
    else
      match ev
      case RequestHeaders(env) =>
        OnHttpRequestHeaders(s.(host := s.host.(requestHeadersSeen := true)), env).0
      case RequestData(data, end, env) =>
        var s := ArriveRequest(s, data);
        ReleaseRequest(OnHttpRequestBody(s, |s.host.requestBuffer|, end, env))
      case RequestTrailers(env) => ReleaseRequest(OnHttpRequestTrailers(s, env))
      case ResponseHeaders(env) =>
        OnHttpResponseHeaders(s.(host := s.host.(responseHeadersSeen := true)), env).0
      case ResponseData(data, end, env) =>
        var s := ArriveResponse(s, data);
        ReleaseResponse(OnHttpResponseBody(s, |s.host.responseBuffer|, end, env))
      case ResponseTrailers(env) => ReleaseResponse(OnHttpResponseTrailers(s, env))
      case Done(env) => OnHttpStreamDone(s.(host := s.host.(done := true)), env)
  }

  function Run(s: Stream, events: seq<Event>): Stream {
    if events == [] then s else Step(Run(s, events[..|events| - 1]), events[|events| - 1])
  }
}
