/**
 When the engine's share of a body is a gapless piece of it: exactly while every chunk is handed over
 before anything has been released.
 */
module HttpAlignment {
  import opened Prelude
  import opened Wafs
  import opened HttpStream
  import opened HttpBodies
  import opened HttpSafety
  import opened HttpRuns
  import opened HttpFeeding

  function NewData(ev: Event): seq<Byte> {
    if ev.RequestData? then ev.data else []
  }

  function NewDataBack(ev: Event): seq<Byte> {
    if ev.ResponseData? then ev.data else []
  }

  /** What an event does to the bytes of a stream: new ones arrive, and old ones may be released. */
  predicate Moves(s: Stream, r: Stream, data: seq<Byte>, back: seq<Byte>) {
    && r.host.requestArrived == s.host.requestArrived + data && r.host.responseArrived == s.host.responseArrived + back
    && s.host.upstream <= r.host.upstream && s.host.downstream <= r.host.downstream
  }

  predicate Stays(s: Stream, r: Stream) {
    && r.host.requestArrived == s.host.requestArrived && r.host.responseArrived == s.host.responseArrived
    && r.host.upstream == s.host.upstream && r.host.downstream == s.host.downstream
  }

  lemma ReleasesMove(s: Stream, r: (Stream, Action))
    requires Stays(s, r.0)
    ensures Moves(s, ReleaseRequest(r), [], []) && Moves(s, ReleaseResponse(r), [], [])
  {}

  lemma ArrivalsMove(s: Stream, data: seq<Byte>, r: Stream)
    ensures Moves(ArriveRequest(s, data), r, [], []) ==> Moves(s, r, data, [])
    ensures Moves(ArriveResponse(s, data), r, [], []) ==> Moves(s, r, [], data)
  {
    var q, p := s.host.requestArrived, s.host.responseArrived;
    assert q + data + [] == q + data && p + [] == p && p + data + [] == p + data && q + [] == q;
  }

  lemma RequestStepMoves(s: Stream, ev: Event)
    requires StreamInv(s) && Enabled(s, ev) && (ev.RequestData? || ev.RequestTrailers?)
    ensures Moves(s, Step(s, ev), NewData(ev), NewDataBack(ev))
  {
    var s1 := if ev.RequestData? then ArriveRequest(s, ev.data) else s;
    var size := if ev.RequestData? then |s1.host.requestBuffer| else s.bodyReadIndex;
    var r := OnHttpRequestBody(s1, size, ev.RequestTrailers? || ev.end, ev.env);
    RequestBodyEffect(s1, size, ev.RequestTrailers? || ev.end, ev.env);
    ReleasesMove(s1, r);
    if ev.RequestData? {
      assert Step(s, ev) == ReleaseRequest(r);
      ArrivalsMove(s, ev.data, Step(s, ev));
    } else if s.tx.Some? {
      assert Step(s, ev) == ReleaseRequest(r);
    }
  }

  lemma ResponseStepMoves(s: Stream, ev: Event)
    requires StreamInv(s) && Enabled(s, ev) && (ev.ResponseData? || ev.ResponseTrailers?)
    ensures Moves(s, Step(s, ev), NewData(ev), NewDataBack(ev))
  {
    var s1 := if ev.ResponseData? then ArriveResponse(s, ev.data) else s;
    var size := if ev.ResponseData? then |s1.host.responseBuffer| else s.bodyReadIndex;
    var r := OnHttpResponseBody(s1, size, ev.ResponseTrailers? || ev.end, ev.env);
    ResponseBodyEffect(s1, size, ev.ResponseTrailers? || ev.end, ev.env);
    ReleasesMove(s1, r);
    if ev.ResponseData? {
      assert Step(s, ev) == ReleaseResponse(r);
      ArrivalsMove(s, ev.data, Step(s, ev));
    } else if s.tx.Some? {
      assert Step(s, ev) == ReleaseResponse(r);
    }
  }

  lemma StepMoves(s: Stream, ev: Event)
    requires StreamInv(s) && Enabled(s, ev)
    ensures Moves(s, Step(s, ev), NewData(ev), NewDataBack(ev))
  {
    match ev
    case RequestHeaders(env) =>
      var s1 := s.(host := s.host.(requestHeadersSeen := true));
      RequestHeadersEffect(s1, env);
      assert Step(s, ev) == OnHttpRequestHeaders(s1, env).0;
    case ResponseHeaders(env) =>
      var s1 := s.(host := s.host.(responseHeadersSeen := true));
      ResponseHeadersEffect(s1, env);
      assert Step(s, ev) == OnHttpResponseHeaders(s1, env).0;
    case Done(env) =>
      var s1 := s.(host := s.host.(done := true));
      DoneEffect(s1, env);
      assert Step(s, ev) == OnHttpStreamDone(s1, env);
    case RequestData(_, _, _) => RequestStepMoves(s, ev);
    case RequestTrailers(_) => RequestStepMoves(s, ev);
    case ResponseData(_, _, _) => ResponseStepMoves(s, ev);
    case ResponseTrailers(_) => ResponseStepMoves(s, ev);
  }

  // ---- where a chunk comes from ----

  /** `c` is what stands at `from` in `body`. */
  predicate At(c: seq<Byte>, body: seq<Byte>, from: nat) {
    from + |c| <= |body| && body[from..from + |c|] == c
  }

  lemma ReadAt(buffer: seq<Byte>, index: nat, size: nat, atMost: nat, released: seq<Byte>)
    ensures var c := ReadBuffer(buffer, index, size, atMost); c != [] ==> At(c, released + buffer, |released| + index)
  {
    var c := ReadBuffer(buffer, index, size, atMost);
    if c != [] {
      assert (released + buffer)[|released| + index..|released| + index + |c|] == buffer[index..index + |c|];
    }
  }

  /**
   The next chunk of a request starts as many bytes past the engine's share as have been released: it
   continues the share exactly if nothing has.
   */
  lemma TakenAt(s: Stream, ev: Event)
    requires StreamInv(s) && Taken(s, ev) != []
    ensures At(Taken(s, ev), s.host.requestArrived + NewData(ev), |s.host.upstream| + |Share(s)|)
    ensures s.bodyReadIndex == |Share(s)| && InspectsRequest(s, ev.env)
  {
    hide SafeInv, HeldInv, ResponseFaithful, ReadBuffer, At;
    var s1 := ArriveRequest(s, ev.data);
    var size := |s1.host.requestBuffer|;
    ReadAt(s1.host.requestBuffer, s.bodyReadIndex, size - s.bodyReadIndex, ev.env.read.value, s.host.upstream);
    assert s.host.upstream + (s.host.requestBuffer + ev.data) == s.host.requestArrived + ev.data;
  }

  lemma LiftedContent(bytes: seq<Byte>)
    ensures Content(Lift(bytes)) == bytes
  {}

  lemma BufferedBack(s: Stream, data: seq<Byte>)
    requires Conserved(s) && s.interruptedAt == NoPhase
    ensures Content(s.host.downstream) + Content(s.host.responseBuffer + Lift(data)) == s.host.responseArrived + data
  {
    var d, b := s.host.downstream, s.host.responseBuffer;
    ContentAppends(b, data);
    LiftedContent(s.host.responseArrived);
    assert Content(d + b) == Content(d) + Content(b);
    assert Content(d) + (Content(b) + data) == (Content(d) + Content(b)) + data;
  }

  lemma TakenBackAt(s: Stream, ev: Event)
    requires StreamInv(s) && TakenBack(s, ev) != []
    ensures At(TakenBack(s, ev), s.host.responseArrived + NewDataBack(ev), |s.host.downstream| + Entry(s) + |ShareBack(s)|)
    ensures s.bodyReadIndex == Entry(s) + |ShareBack(s)| && InspectsResponse(s, ev.env) && s.processedRequestBody
  {
    hide SafeInv, HeldInv, RequestFaithful, ReadBuffer, At;
    var s1 := ArriveResponse(s, ev.data);
    var size := |s1.host.responseBuffer|;
    ContentOfRead(s1.host.responseBuffer, s.bodyReadIndex, size - s.bodyReadIndex, ev.env.read.value);
    ReadAt(Content(s1.host.responseBuffer), s.bodyReadIndex, size - s.bodyReadIndex, ev.env.read.value, Content(s.host.downstream));
    BufferedBack(s, ev.data);
  }

  // ---- whole runs ----

  /** How a stream got where it is: its creation and the events since. */
  datatype History =
    | Fresh(wafs: WafMap, policy: FailurePolicy, labels: seq<string>)
    | After(earlier: History, ev: Event)

  function End(h: History): Stream {
    match h
    case Fresh(wafs, policy, labels) => NewStream(wafs, policy, labels)
    case After(earlier, ev) => Step(End(earlier), ev)
  }

  lemma {:induction false} EndKeeps(h: History)
    ensures StreamInv(End(h))
  {
    match h
    case Fresh(wafs, policy, labels) => assert NewStream(wafs, policy, labels) == Run(NewStream(wafs, policy, labels), []);
      RunKeeps(wafs, policy, labels, []);
    case After(earlier, ev) => EndKeeps(earlier); StepKeeps(End(earlier), ev);
  }

  /** One step of a run, as far as the request is concerned. */
  lemma RequestGrows(s: Stream, ev: Event)
    requires StreamInv(s)
    ensures Share(Step(s, ev)) == Share(s) + Taken(s, ev)
    ensures Step(s, ev).host.requestArrived == s.host.requestArrived + Arrived(s, ev)
    ensures Taken(s, ev) == [] || At(Taken(s, ev), s.host.requestArrived + Arrived(s, ev), |s.host.upstream| + |Share(s)|)
  {
    StepFeeds(s, ev);
    if Enabled(s, ev) {
      StepMoves(s, ev);
      if Taken(s, ev) != [] {
        TakenAt(s, ev);
      }
    } else {
      assert s.host.requestArrived + [] == s.host.requestArrived;
    }
  }

  // ---- the places in the body that the share consists of ----

  /** What one event adds: a chunk taken, the bytes released before it, and the data that arrived with it. */
  datatype Ledger = Blank | Entered(earlier: Ledger, taken: seq<Byte>, released: nat, data: seq<Byte>)

  function Whole(l: Ledger): seq<Byte> {
    if l.Blank? then [] else Whole(l.earlier) + l.data
  }

  function Total(l: Ledger): seq<Byte> {
    if l.Blank? then [] else Total(l.earlier) + l.taken
  }

  /** Each chunk was read in the body as many bytes past the earlier ones as had been released. */
  predicate Sound(l: Ledger, entry: nat) {
    l.Entered? ==>
      && Sound(l.earlier, entry)
      && (l.taken != [] ==> At(l.taken, Whole(l), l.released + entry + |Total(l.earlier)|))
  }

  function Span(from: nat, n: nat): (r: seq<nat>)
    ensures |r| == n && forall i :: 0 <= i < n ==> r[i] == from + i
  {
    seq(n, i requires 0 <= i < n => from + i)
  }

  /** The places in the body of the bytes taken, in the order they were taken. */
  function Places(l: Ledger, entry: nat): seq<nat> {
    if l.Blank? then [] else Places(l.earlier, entry) + Span(l.released + entry + |Total(l.earlier)|, |l.taken|)
  }

  /** Every byte taken is the byte of the body at its place. */
  predicate Tells(places: seq<nat>, share: seq<Byte>, body: seq<Byte>) {
    |places| == |share| && forall j :: 0 <= j < |share| ==> places[j] < |body| && share[j] == body[places[j]]
  }

  /** Every chunk was taken before anything had been released. */
  predicate Punctual(l: Ledger) {
    l.Entered? ==> Punctual(l.earlier) && (l.taken != [] ==> l.released == 0)
  }

  lemma TellsMore(places: seq<nat>, share: seq<Byte>, body: seq<Byte>, c: seq<Byte>, data: seq<Byte>, from: nat)
    requires Tells(places, share, body) && (c == [] || At(c, body + data, from))
    ensures Tells(places + Span(from, |c|), share + c, body + data)
  {
    forall j | |share| <= j < |share + c|
      ensures (places + Span(from, |c|))[j] < |body + data| && (share + c)[j] == (body + data)[(places + Span(from, |c|))[j]]
    {
      assert c[j - |share|] == (body + data)[from..from + |c|][j - |share|];
    }
  }

  /** Appending consecutive places to consecutive places. */
  lemma SpanContinues(places: seq<nat>, entry: nat, released: nat, n: nat)
    ensures places + Span(released + entry + |places|, n) == Span(entry, |places| + n) <==>
              places == Span(entry, |places|) && (n > 0 ==> released == 0)
  {
    var all := places + Span(released + entry + |places|, n);
    if all == Span(entry, |places| + n) {
      assert forall j :: 0 <= j < |places| ==> places[j] == all[j];
      if n > 0 {
        assert all[|places|] == released + entry + |places|;
      }
    }
  }

  /** One more chunk: it is read at its places, and the places stay consecutive exactly if it is punctual. */
  lemma PlacesNext(places: seq<nat>, share: seq<Byte>, body: seq<Byte>, c: seq<Byte>, data: seq<Byte>, released: nat, entry: nat)
    requires Tells(places, share, body) && (c == [] || At(c, body + data, released + entry + |share|))
    ensures Tells(places + Span(released + entry + |share|, |c|), share + c, body + data)
    ensures places + Span(released + entry + |share|, |c|) == Span(entry, |share + c|) <==>
              places == Span(entry, |share|) && (c != [] ==> released == 0)
  {
    TellsMore(places, share, body, c, data, released + entry + |share|);
    SpanContinues(places, entry, released, |c|);
  }

  /** A ledger one entry at a time. */
  lemma EntryOf(l: Ledger, entry: nat)
    requires l.Entered? && Sound(l, entry)
    ensures Sound(l.earlier, entry)
    ensures l.taken == [] || At(l.taken, Whole(l.earlier) + l.data, l.released + entry + |Total(l.earlier)|)
    ensures Places(l, entry) == Places(l.earlier, entry) + Span(l.released + entry + |Total(l.earlier)|, |l.taken|)
    ensures Total(l) == Total(l.earlier) + l.taken && Whole(l) == Whole(l.earlier) + l.data
    ensures Punctual(l) <==> Punctual(l.earlier) && (l.taken != [] ==> l.released == 0)
  {
    hide At, Span;
  }

  /** The bytes taken form one piece of the body, from the entry index on, exactly if every chunk was punctual. */
  lemma {:induction false} PlacesIff(l: Ledger, entry: nat)
    requires Sound(l, entry)
    ensures Tells(Places(l, entry), Total(l), Whole(l))
    ensures Places(l, entry) == Span(entry, |Total(l)|) <==> Punctual(l)
  {
    if l.Entered? {
      hide At, Tells, Span, Places, Total, Whole, Sound, Punctual;
      EntryOf(l, entry);
      PlacesIff(l.earlier, entry);
      PlacesNext(Places(l.earlier, entry), Total(l.earlier), Whole(l.earlier), l.taken, l.data, l.released, entry);
    }
  }

  lemma {:induction false} NothingTaken(l: Ledger, entry: nat)
    requires Total(l) == []
    ensures Sound(l, entry)
  {
    if l.Entered? {
      NothingTaken(l.earlier, entry);
    }
  }

  /** A ledger that tells how `share`, taken from `body`, came about. */
  predicate Explains(l: Ledger, entry: nat, share: seq<Byte>, body: seq<Byte>) {
    Sound(l, entry) && Total(l) == share && Whole(l) == body
  }

  lemma EntryExplains(l: Ledger, entry: nat, share: seq<Byte>, body: seq<Byte>, c: seq<Byte>, released: nat, data: seq<Byte>)
    requires Explains(l, entry, share, body)
    requires c == [] || At(c, body + data, released + entry + |share|)
    ensures Explains(Entered(l, c, released, data), entry, share + c, body + data)
  {}

  lemma NoShareExplains(l: Ledger, entry: nat, other: nat, body: seq<Byte>)
    requires Explains(l, entry, [], body)
    ensures Explains(l, other, [], body)
  {
    NothingTaken(l, other);
  }

  function Arrived(s: Stream, ev: Event): seq<Byte> {
    if Enabled(s, ev) then NewData(ev) else []
  }

  function ArrivedBack(s: Stream, ev: Event): seq<Byte> {
    if Enabled(s, ev) then NewDataBack(ev) else []
  }

  function RequestLedger(h: History): Ledger {
    if h.Fresh? then Blank
    else
      var s := End(h.earlier);
      Entered(RequestLedger(h.earlier), Taken(s, h.ev), |s.host.upstream|, Arrived(s, h.ev))
  }

  lemma RequestLedgerNext(h: History)
    requires h.After? && StreamInv(End(h.earlier))
    requires Explains(RequestLedger(h.earlier), 0, Share(End(h.earlier)), End(h.earlier).host.requestArrived)
    ensures Explains(RequestLedger(h), 0, Share(End(h)), End(h).host.requestArrived)
  {
    hide Step, Taken, Arrived, StreamInv, Explains, Share, At;
    var s := End(h.earlier);
    RequestGrows(s, h.ev);
    EntryExplains(RequestLedger(h.earlier), 0, Share(s), s.host.requestArrived, Taken(s, h.ev), |s.host.upstream|, Arrived(s, h.ev));
  }

  lemma {:induction false} RequestLedgerSound(h: History)
    ensures Explains(RequestLedger(h), 0, Share(End(h)), End(h).host.requestArrived)
  {
    if h.After? {
      RequestLedgerSound(h.earlier);
      EndKeeps(h.earlier);
      RequestLedgerNext(h);
    }
  }

  /**
   For every run and every body: the engine's share of the request consists of the bytes at certain places
   of the body, and these are 0, 1, 2, … exactly if every chunk was handed over before anything had been
   released.
   */
  lemma RequestShareIff(h: History)
    ensures var places := Places(RequestLedger(h), 0);
            && Tells(places, Share(End(h)), End(h).host.requestArrived)
            && (places == Span(0, |Share(End(h))|) <==> Punctual(RequestLedger(h)))
  {
    RequestLedgerSound(h);
    PlacesIff(RequestLedger(h), 0);
  }

  // ---- the response, from the entry index on ----

  /** Once the request phase is closed the entry index does not move. */
  lemma EntryStays(s: Stream, ev: Event)
    requires StreamInv(s) && s.processedRequestBody
    ensures Entry(Step(s, ev)) == Entry(s) && Step(s, ev).processedRequestBody
  {
    if Enabled(s, ev) {
      match ev
      case RequestData(data, end, env) =>
        var s1 := ArriveRequest(s, data);
        assert OnHttpRequestBody(s1, |s1.host.requestBuffer|, end, env).0 == s1;
      case ResponseHeaders(env) =>
        var s1 := s.(host := s.host.(responseHeadersSeen := true));
        ResponseHeadersShare(s1, env);
        ResponseHeadersEffect(s1, env);
        assert Step(s, ev) == OnHttpResponseHeaders(s1, env).0;
      case Done(env) =>
        var s1 := s.(host := s.host.(done := true));
        DoneShares(s1, env);
        DoneEffect(s1, env);
        assert Step(s, ev) == OnHttpStreamDone(s1, env);
      case ResponseData(_, _, _) => ResponseEntryStays(s, ev);
      case ResponseTrailers(_) => ResponseEntryStays(s, ev);
      case _ =>
    }
  }

  lemma ResponseEntryStays(s: Stream, ev: Event)
    requires StreamInv(s) && s.processedRequestBody && Enabled(s, ev) && (ev.ResponseData? || ev.ResponseTrailers?)
    ensures Entry(Step(s, ev)) == Entry(s) && Step(s, ev).processedRequestBody
  {
    ResponseStepFeeds(s, ev);
    var s1 := if ev.ResponseData? then ArriveResponse(s, ev.data) else s;
    var size := if ev.ResponseData? then |s1.host.responseBuffer| else s.bodyReadIndex;
    ResponseBodyEffect(s1, size, ev.ResponseTrailers? || ev.end, ev.env);
    assert Step(s, ev) == ReleaseResponse(OnHttpResponseBody(s1, size, ev.ResponseTrailers? || ev.end, ev.env));
  }

  /** One step of a run, as far as the response is concerned. */
  lemma ResponseGrows(s: Stream, ev: Event)
    requires StreamInv(s) && (ShareBack(s) != [] ==> s.processedRequestBody)
    ensures var r := Step(s, ev);
            && ShareBack(r) == ShareBack(s) + TakenBack(s, ev)
            && (ShareBack(r) != [] ==> r.processedRequestBody && Entry(r) == Entry(s))
            && r.host.responseArrived == s.host.responseArrived + ArrivedBack(s, ev)
    ensures TakenBack(s, ev) == [] ||
            At(TakenBack(s, ev), s.host.responseArrived + ArrivedBack(s, ev), |s.host.downstream| + Entry(s) + |ShareBack(s)|)
  {
    StepFeeds(s, ev);
    if TakenBack(s, ev) != [] {
      TakenBackAt(s, ev);
    }
    if s.processedRequestBody {
      EntryStays(s, ev);
    }
    if Enabled(s, ev) {
      StepMoves(s, ev);
      assert Step(s, ev).host.responseArrived == s.host.responseArrived + NewDataBack(ev);
    } else {
      assert s.host.responseArrived + [] == s.host.responseArrived;
    }
  }

  function ResponseLedger(h: History): Ledger {
    if h.Fresh? then Blank
    else
      var s := End(h.earlier);
      Entered(ResponseLedger(h.earlier), TakenBack(s, h.ev), |s.host.downstream|, ArrivedBack(s, h.ev))
  }

  lemma ResponseLedgerNext(h: History)
    requires h.After? && StreamInv(End(h.earlier))
    requires var s := End(h.earlier);
             && Explains(ResponseLedger(h.earlier), Entry(s), ShareBack(s), s.host.responseArrived)
             && (ShareBack(s) != [] ==> s.processedRequestBody)
    ensures Explains(ResponseLedger(h), Entry(End(h)), ShareBack(End(h)), End(h).host.responseArrived)
    ensures ShareBack(End(h)) != [] ==> End(h).processedRequestBody
  {
    hide Step, TakenBack, ArrivedBack, StreamInv, Explains, ShareBack, Entry, At;
    var s := End(h.earlier);
    ResponseGrows(s, h.ev);
    EntryExplains(ResponseLedger(h.earlier), Entry(s), ShareBack(s), s.host.responseArrived, TakenBack(s, h.ev),
                  |s.host.downstream|, ArrivedBack(s, h.ev));
    if ShareBack(End(h)) == [] {
      NoShareExplains(ResponseLedger(h), Entry(s), Entry(End(h)), End(h).host.responseArrived);
    }
  }

  lemma {:induction false} ResponseLedgerSound(h: History)
    ensures Explains(ResponseLedger(h), Entry(End(h)), ShareBack(End(h)), End(h).host.responseArrived)
    ensures ShareBack(End(h)) != [] ==> End(h).processedRequestBody
  {
    if h.After? {
      ResponseLedgerSound(h.earlier);
      EndKeeps(h.earlier);
      ResponseLedgerNext(h);
    }
  }

  /** The same for the response: its consecutive places begin at the entry index. */
  lemma ResponseShareIff(h: History)
    ensures var places, e := Places(ResponseLedger(h), Entry(End(h))), Entry(End(h));
            && Tells(places, ShareBack(End(h)), End(h).host.responseArrived)
            && (places == Span(e, |ShareBack(End(h))|) <==> Punctual(ResponseLedger(h)))
  {
    ResponseLedgerSound(h);
    PlacesIff(ResponseLedger(h), Entry(End(h)));
  }

  // ---- errors that are not let through ----

  lemma TrustedStep(s: Stream, ev: Event)
    requires StreamInv(s) && NoneLetThrough(s)
    ensures Taken(s, ev) != [] ==> s.host.upstream == []
    ensures TakenBack(s, ev) != [] ==> s.host.downstream == []
  {}

  lemma NoneEarlier(s: Stream, ev: Event)
    requires StreamInv(s) && NoneLetThrough(Step(s, ev))
    ensures NoneLetThrough(s)
  {
    if Enabled(s, ev) {
      StepEvolves(s, ev);
    }
  }

  /** As long as no error was let through, all chunks are punctual, in both directions. */
  lemma {:induction false} TrustedIsPunctual(h: History)
    requires NoneLetThrough(End(h))
    ensures Punctual(RequestLedger(h)) && Punctual(ResponseLedger(h))
  {
    if h.After? {
      EndKeeps(h.earlier);
      NoneEarlier(End(h.earlier), h.ev);
      TrustedIsPunctual(h.earlier);
      TrustedStep(End(h.earlier), h.ev);
    }
  }

  /** `share` is the piece of `body` from `entry` on. */
  lemma SpanIsPiece(places: seq<nat>, share: seq<Byte>, body: seq<Byte>, entry: nat)
    requires Tells(places, share, body) && places == Span(entry, |share|)
    ensures share != [] ==> At(share, body, entry)
  {
    if share != [] {
      assert places[|share| - 1] < |body|;
    }
  }

  /**
   If every error so far was blocked, the engine's shares are the beginning of the request and the piece of
   the response from the entry index on, whatever was released meanwhile.
   */
  lemma BlockedErrorsKeepShares(h: History)
    requires NoneLetThrough(End(h))
    ensures var s := End(h);
            && (Share(s) != [] ==> At(Share(s), s.host.requestArrived, 0))
            && (ShareBack(s) != [] ==> At(ShareBack(s), s.host.responseArrived, Entry(s)))
  {
    TrustedIsPunctual(h);
    RequestShareIff(h);
    ResponseShareIff(h);
    SpanIsPiece(Places(RequestLedger(h), 0), Share(End(h)), End(h).host.requestArrived, 0);
    SpanIsPiece(Places(ResponseLedger(h), Entry(End(h))), ShareBack(End(h)), End(h).host.responseArrived, Entry(End(h)));
  }

  /** The states that histories end in are those that runs lead to. */
  lemma {:induction false} RunsAreHistories(wafs: WafMap, policy: FailurePolicy, labels: seq<string>, events: seq<Event>) returns (h: History)
    ensures End(h) == Run(NewStream(wafs, policy, labels), events)
  {
    if events == [] {
      h := Fresh(wafs, policy, labels);
    } else {
      h := RunsAreHistories(wafs, policy, labels, events[..|events| - 1]);
      h := After(h, events[|events| - 1]);
    }
  }
}
