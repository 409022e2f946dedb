/** What a trace of engine calls says: its order, its interruption and the verdicts it reached. */
module HttpTrace {
  import opened Prelude
  import opened HttpStream

  function Rank(c: Call): nat {
    match c
    case ProcessRequestHeaders(_) => 1
    case WriteRequestBody(_, _) => 2
    case ProcessRequestBody(_, _) => 3
    case ProcessResponseHeaders(_) => 4
    case WriteResponseBody(_, _) => 5
    case ProcessResponseBody(_) => 6
    case ProcessLogging => 7
    case CloseTransaction => 8
  }

  /** The interruption a call came back with, if any. */
  function StopOf(c: Call): Option<Interruption> {
    match c
    case ProcessRequestHeaders(stop) => stop
    case WriteRequestBody(_, w) => if w.WriteStop? then Some(w.it) else None
    case ProcessRequestBody(_, v) => if v.Stop? then Some(v.it) else None
    case ProcessResponseHeaders(stop) => stop
    case WriteResponseBody(_, w) => if w.WriteStop? then Some(w.it) else None
    case ProcessResponseBody(v) => if v.Stop? then Some(v.it) else None
    case _ => None
  }

  predicate IsWrite(c: Call) {
    c.WriteRequestBody? || c.WriteResponseBody?
  }

  /** The engine took only part of the chunk: it reached its body limit and ran the body phase by itself. */
  predicate LimitReached(c: Call) {
    IsWrite(c) && c.written.Wrote? && c.written.n < |c.chunk|
  }

  predicate FullyAccepted(c: Call) {
    IsWrite(c) && c.written.Wrote? && c.written.n >= |c.chunk|
  }

  /**
   The lowest rank that may follow a call. An interruption leaves only logging; reaching the body
   limit uses up the body phase; chunks may repeat; a response-body phase that failed may be tried
   again. Every other call must be followed by a later one.
   */
  function Floor(c: Call): nat {
    if StopOf(c).Some? then 7
    else if LimitReached(c) then Rank(c) + 2
    else if IsWrite(c) then Rank(c)
    else if c == ProcessResponseBody(EngineError) then 5
    else Rank(c) + 1
  }

  function Max(a: nat, b: nat): nat { if a < b then b else a }

  /** The highest floor of a trace. */
  function FloorOf(t: Trace): nat {
    if t.Empty? then 0 else Max(FloorOf(t.earlier), Floor(t.last))
  }

  /** Every call respects the floor left by all calls before it. */
  predicate Ordered(t: Trace) {
    t.Then? ==> Ordered(t.earlier) && FloorOf(t.earlier) <= Rank(t.last)
  }

  /** The latest interruption of a trace. */
  function Stopped(t: Trace): Option<Interruption> {
    if t.Empty? then None
    else if StopOf(t.last).Some? then StopOf(t.last)
    else Stopped(t.earlier)
  }

  /** The request-body phase has run without an interruption: on demand, or by reaching the body limit. */
  predicate RequestCleared(t: Trace) {
    t.Then? && (|| RequestCleared(t.earlier)
                || (t.last.ProcessRequestBody? && t.last.verdict.Clean?)
                || (t.last.WriteRequestBody? && LimitReached(t.last)))
  }

  predicate ResponseCleared(t: Trace) {
    t.Then? && (|| ResponseCleared(t.earlier)
                || (t.last.ProcessResponseBody? && t.last.verdict.Clean?)
                || (t.last.WriteResponseBody? && LimitReached(t.last)))
  }

  /** The request-body phase was run, with whatever outcome. */
  predicate RequestRan(t: Trace) {
    t.Then? && (|| RequestRan(t.earlier)
                || t.last.ProcessRequestBody?
                || (t.last.WriteRequestBody? && LimitReached(t.last)))
  }

  predicate ResponseRan(t: Trace) {
    t.Then? && (|| ResponseRan(t.earlier)
                || t.last.ProcessResponseBody?
                || (t.last.WriteResponseBody? && LimitReached(t.last)))
  }

  /** The request bytes the engine took in, over all fully accepted chunks. */
  function RequestFed(t: Trace): seq<Byte> {
    if t.Empty? then []
    else if t.last.WriteRequestBody? && FullyAccepted(t.last) then RequestFed(t.earlier) + t.last.chunk
    else RequestFed(t.earlier)
  }

  function ResponseFed(t: Trace): seq<Byte> {
    if t.Empty? then []
    else if t.last.WriteResponseBody? && FullyAccepted(t.last) then ResponseFed(t.earlier) + t.last.chunk
    else ResponseFed(t.earlier)
  }

  /** The request-body phase was run because the request's body had ended. */
  predicate EndSeen(t: Trace) {
    t.Then? && (EndSeen(t.earlier) || (t.last.ProcessRequestBody? && t.last.site == EndOfStream))
  }

  /** What the shared read index holds when the response starts. */
  function EntryIndex(t: Trace): nat {
    if EndSeen(t) then 0 else |RequestFed(t)|
  }
}
