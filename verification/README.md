# A model of the Coraza proxy-wasm plugin

The plugin in `wasmplugin/` runs a web application firewall inside a proxy. The proxy drives it through
callbacks: headers, body chunks and trailers of a request and of its response, the end of a stream, ticks,
and answers to calls the plugin made. This project models that behaviour and proves what the plugin promises.

* **Streams.** `HttpStream` is the state machine of one `httpContext`: every callback is a function of the
  state and of the answers that the engine and the host give while it runs. The answers are arbitrary, so a
  theorem about all runs is about every rule set, engine verdict, chunking, callback order and host failure.
  The host holds buffers: Pause keeps what is in them, Continue releases it. `HttpTrace` reads the record of
  calls made to the engine. `HttpInvariant`, `HttpBodies`, `HttpSafety` and `HttpRuns` carry the invariants
  through every callback. `HttpFeeding` and `HttpAlignment` say which bytes of a body the engine holds.
  `HttpCallbacks` is a table of what each callback does on the answers it meets: how it ends, which calls it
  makes, where it leaves the flags and the index. `HttpGuarantees` holds the theorems, with `HttpHeaders` on the
  forwarding of a request's headers, `HttpSealing` on what follows an interruption, `HttpUnseen` and
  `HttpUnseenBack` on bytes released without the engine having held them, and `HttpPolicy` on the failure policy
  over whole runs; `HttpWitnesses` has runs that show where the theorems stop.
  `HttpContexts` is the same context as an object with fields that its callbacks update; every method is
  proved to take the step of the state machine and to increment the shared counters accordingly.
  `HttpProxy` drives that object as the proxy does, so that the theorems are about the object.
* **The plugin.** `System` lets any number of streams interleave with each other and with reloads.
  `Config` parses the decoded configuration, `Routing` builds the table from authorities to engines, `Reload`
  holds the reload handlers, `ReloadTiming` puts them in time, and `CorazaPlugins` is the plugin object.
  `Metrics` and `MetricNames` are the counters. `Port` decodes port attributes.
* **Anomaly scoring.** `Crs` is an interpreter for the part of the rule language that scoring uses, over
  arbitrary matches of the operators that look at the request. `CrsInit`, `CrsProtocolAttack` and
  `CrsBlocking` are the rules of three files of the Core Rule Set. `CrsGating` proves the layout of paranoia
  levels that most detection files have, `CrsRequest` takes a request through both phases with any detection
  files, and `CrsVerdict` says exactly when a request is denied with the sample file.

The code that updates fields or fills maps in loops is modelled as methods and classes proved against
functions; the statements over whole runs are lemmas about those functions.

## Where the code differs from what is written about it

* The failure policy answers with status 403 (`wasmplugin/plugin.go:856`); the comment above that line and
  `wasmplugin/plugin_test.go:59` say 500. The model follows the code.
* An empty configuration leaves the failure policy empty rather than "fail" (`wasmplugin/config.go:53-56`). All
  policies other than "allow" are treated alike, so the two do not differ.
* If no default is given, directives declared under the empty name act as the default ones, because the name
  of the default is then empty too (`wasmplugin/plugin.go:169`).
* The read index is shared by both directions and cleared on one of three ways out of the request body. A
  response that starts before the request's last chunk is read from the middle (`EarlyResponseSkipsBytes`).
* Under "allow", a body callback that fails releases the buffer but keeps the index, so the next chunk is
  read from its middle (`AllowedErrorMisalignsIndex`); `RequestShareIff` says exactly when chunks are in place.
* Bytes of a request can go upstream that the engine never held, without any error: after a short read of the
  last chunk, which is only warned about (`ShortReadReleasesUnseen`), and when the response's headers came before
  the end of the request (`OvertakenReleasesUnseen`). `SeenIff` says exactly when, for every run.
* If the host refuses to replace the body of an interrupted response, the original bytes are released, by the
  event that interrupts the response body (`InterruptingEventLeaks`) or by a later one
  (`RefusedReplacementLeaks`); `InterruptionIsFinal` says exactly when.
* The request-body phase is marked as processed before the engine is asked. So a policy that blocks a failure of
  that phase answers 403 and holds the body back, but the next callback releases it (`BlockedFailureReleases`);
  `UnclearedIff` says exactly when.
* Without an engine a policy that blocks answers 403 and holds the headers, but the body callback finds no
  transaction and lets the request go on (`UnresolvedRequestGoesOn`).
* A nil logger is met when trailers arrive on a stream without an engine (`CrashesCharacterised`).
* Labels are written into counter names without escaping. Within one plugin that is harmless
  (`SameCounterOfPlugin`); plugins with different configured labels can share a counter (`LabelsCanClash`).
* The tick interval wraps at 32 bits: it is honoured exactly from 5 to 4294967 seconds (`PeriodHonoured`).
* A rule set published with an empty UUID is never fetched by a tick while nothing is loaded, because the
  recorded UUID is empty too; `ReloadConvergence` therefore promises an engine for non-empty UUIDs only.

## What is assumed

* Headers arrive at most once and before anything else in their direction, the request's headers do not
  arrive after the response's, and nothing follows the end of the stream (`HttpStream.Enabled`). Everything
  else may interleave.
* A body callback is given the size of the buffer; trailers callbacks are given the read index, as in the code.
  Replacing the response body replaces the whole buffer.
* An engine that a rule has turned off stays off.
* Calls to the rule-set server are answered or time out within 2000 ms, ticks are at least a period apart,
  and the server's rule sets are published one after the other.
* Starts are modelled on a plugin object that has not been started before.
* In the rule language: the actions of a rule run once per match, a test of a variable that is not set
  matches nothing, a macro of one counts as 0, and `block` passes, as the default actions of the shipped setup say
  (`wasmplugin/rules/crs-setup.conf.example:97-98`). Settings are numbers.
* `EarlyBlockingOnlySooner` and `RequestDeniedIff` need anomaly weights that are not negative; with negative
  ones a second phase can lower the score, and `RequestDeniedExactly` says what then happens.

## Model

| member | source | states |
|---|---|---|
| `HttpGuarantees.ResponseSafety` | wasmplugin/plugin.go:572-678 | in every reachable state without errors and with the engine on, a byte of the server's body has reached the client only if the response-body phase has passed or its limit was reached, and nothing is interrupted |
| `HttpGuarantees.RequestSafety` | wasmplugin/plugin.go:400-499 | likewise a byte went upstream only after the request-body phase passed, for any chunking, repeated callbacks and streams ended by trailers; which released bytes the engine held is said by `SeenIff` |
| `HttpUnseen.SeenIff` | wasmplugin/plugin.go:400-499 | for every run, policy and engine: all bytes that went upstream were held by the engine if and only if no event released the body while part of it was unread: no engine, engine off, phase already processed, no body access, a partial write, a short or trailers-only end, or a failed read or write under "allow" |
| `HttpUnseenBack.SeenBackIff` | wasmplugin/plugin.go:572-678 | the same for the bytes of a response that the client received, for runs without an interruption whose errors were all blocked; a beginning that the entry index skips is never read |
| `HttpGuarantees.NothingLost` | wasmplugin/plugin.go:400-678 | released plus buffered bytes are exactly the bytes that arrived, in order, in both directions (responses: while nothing is interrupted) |
| `HttpHeaders.DeniedHeadersHeld` | wasmplugin/plugin.go:392-409 | in every run: a request that was interrupted because of its headers is never sent on, neither by the callback that denies it nor by a later one |
| `HttpCallbacks.RequestHeadersPause` | wasmplugin/plugin.go:291-398 | the request's headers are paused if and only if they were interrupted or a failure was not let through |
| `HttpCallbacks.ResponseHeadersPause` | wasmplugin/plugin.go:501-570 | the same for the response's headers of a stream that was not interrupted before |
| `HttpCallbacks.RequestHeadersDo` | wasmplugin/plugin.go:291-398 | for every answer: without an engine, or if the request cannot be read, the failure policy decides (one error; 403 under every policy but "allow"); with the engine on it is asked about the headers; an interruption is counted and answered with the rule's status, 403 if that is 0 |
| `HttpCallbacks.RequestBodyDoes` | wasmplugin/plugin.go:400-489 | for every answer: which of a chunk and the phase the engine is asked about, how the callback ends, and when the phase is marked as processed and the index moves or is cleared |
| `HttpCallbacks.ResponseHeadersDo` | wasmplugin/plugin.go:519-570 | the same: the request-body phase is made up for exactly if it was not run, and the headers are looked at unless it stopped or failed |
| `HttpCallbacks.ResponseBodyDoes` | wasmplugin/plugin.go:598-672 | the same for the response body: without inspection the phase counts as done unless the engine failed, and the index is the whole size after an interruption; it moves over every chunk written without an error |
| `HttpCallbacks.DoneDoes` | wasmplugin/plugin.go:680-712 | the response-body phase is made up for exactly if it was not done, the engine is on and nothing was interrupted; then logging and closing |
| `HttpCallbacks.InterruptedDo` | wasmplugin/plugin.go:403-588 | after an interruption nothing is asked: the request stays paused, the response's headers go on, its body is replaced |
| `HttpSealing.InterruptionSeals` | wasmplugin/plugin.go:575-588 | once interrupted, an event releases no request byte, and to the client exactly null bytes in place of what was waiting, or, if the host refuses the replacement, what was waiting |
| `HttpSealing.BodyInterruption` | wasmplugin/plugin.go:609-745 | the event that interrupts the response body itself releases null bytes in place of what was waiting, or, if the host refuses the replacement, what was waiting; without inspection there are as many null bytes as bytes waiting, with inspection as many as precede the entry index, are held by the engine and were read in this event; no other event interrupts that phase (`EarlyInterruption`) |
| `HttpSealing.UninspectedInFull` | wasmplugin/plugin.go:615-619 | an uninspected body that is interrupted is replaced byte for byte |
| `HttpSealing.CoveredInFull` | wasmplugin/plugin.go:624-645 | the replacement of an inspected body covers what was waiting if and only if the last read was complete |
| `HttpSealing.InterruptionIsFinal` | wasmplugin/plugin.go:717-839 | in every interrupted run one event interrupts, in its own phase, which never changes; from that event on, itself included, nothing more goes upstream, and the client receives null bytes only if and only if no replacement was refused while bytes of the server were waiting |
| `HttpGuarantees.PhaseOrder` | wasmplugin/plugin.go:392-710 | for any two engine calls of a run: phases come in increasing order, only chunks and a failed response-body phase repeat, after an interruption only logging follows, after a reached limit that body's phase is over |
| `HttpGuarantees.BodyPhasesRunOnce` | wasmplugin/plugin.go:430-432 | the request-body phase is asked for at most once, the response-body phase completes without error at most once |
| `HttpGuarantees.DoneCompletes` | wasmplugin/plugin.go:680-712 | no phase is skipped: a finished stream that was not interrupted, with its engine on, has run the response-body phase, and the request-body phase if its response began; every transaction ends with logging and closing |
| `HttpGuarantees.RequestChunksFaithful` | wasmplugin/plugin.go:441-472 | before the request phase closes, the engine holds exactly the body up to the read index, no gap and no repeat, as long as no error was let through by "allow" or nothing has been released |
| `HttpAlignment.RequestShareIff` | wasmplugin/plugin.go:441-472 | for every run and body: the engine holds the bytes at certain places of the request's body, and these are 0, 1, 2, … if and only if every chunk was handed over before anything had been released |
| `HttpAlignment.TakenAt` | wasmplugin/plugin.go:441-445 | a chunk starts exactly as many bytes past the engine's share as have been released |
| `HttpAlignment.ResponseShareIff` | wasmplugin/plugin.go:624-645 | the same for the response, whose places begin at the entry index |
| `HttpAlignment.TakenBackAt` | wasmplugin/plugin.go:624-630 | the same for a chunk of the response |
| `HttpAlignment.BlockedErrorsKeepShares` | wasmplugin/plugin.go:847-872 | if every error was blocked, the engine's shares are gapless in both directions at any time, whatever was released while the engine was off |
| `HttpFeeding.StepFeeds` | wasmplugin/plugin.go:441-472 | an event adds to the engine's share the chunk it hands over, if that is written in full, and nothing else |
| `HttpGuarantees.EndOfStreamSeesWholeBody` | wasmplugin/plugin.go:441-487 | at the end of the stream the request-body phase runs on the whole body if and only if the last read was complete (the code only warns), after any number of earlier chunks; if the phase passes, the whole body is released |
| `HttpGuarantees.TrailersSeeWholeBody` | wasmplugin/plugin.go:491-499 | trailers run the phase without another read, so on the whole body if and only if nothing in the buffer is unread; if it passes, all of it is released |
| `HttpGuarantees.ResponseChunksFromEntry` | wasmplugin/plugin.go:624-657 | the engine holds the response from the entry index on, under the same condition as for requests; it saw the response from its first byte if and only if the request ended at its end of stream or no chunk of it had been accepted |
| `HttpGuarantees.EndOfResponseSeesRest` | wasmplugin/plugin.go:624-672 | at the end of a response the phase runs on the body from the entry index on if and only if the last read was complete; if it passes, the whole body is released |
| `HttpGuarantees.ResponseTrailersSeeRest` | wasmplugin/plugin.go:674-678 | trailers run the phase on all of that if and only if nothing in the buffer is unread |
| `HttpGuarantees.InterruptionAnsweredOnce` | wasmplugin/plugin.go:731-744 | an interruption before the response body sends exactly one local response with its status; the failure policy sends 403 only, at most once per error, and nothing under "allow" |
| `HttpGuarantees.MeteredExactly` | wasmplugin/plugin.go:294-723 | a stream increments the transaction counter once if its headers came, and one interruption counter (rule, phase, labels) if and only if it was interrupted |
| `HttpGuarantees.CrashesCharacterised` | wasmplugin/plugin.go:717-740 | the "already handled" panic is unreachable; a nil logger is met if and only if trailers come without a transaction; a failed local response panics exactly where an interruption must be answered |
| `HttpGuarantees.WithoutTransaction` | wasmplugin/plugin.go:491-499 | without a transaction only trailers callbacks crash |
| `HttpGuarantees.FailurePolicyDecides` | wasmplugin/plugin.go:847-872 | a body or trailers callback that logs an error without interrupting releases everything under "allow" and nothing under any other policy |
| `HttpPolicy.UnclearedIff` | wasmplugin/plugin.go:478-482 | with the engine on and no error let through, an event releases bytes of a request that was not cleared if and only if the phase failed in an earlier callback and bytes are waiting |
| `HttpPolicy.ReleasedHasRun` | wasmplugin/plugin.go:400-499 | over whole runs, whatever the policy: with the engine on and no error let through, nothing goes upstream before the request-body phase was run |
| `HttpGuarantees.EngineFromSnapshot` | wasmplugin/plugin.go:234-322 | at any time of any run the stream has the table, policy and labels of its creation, its engine is the one that table gives for the authority of its own request headers, and its counters carry that authority if it has an engine of its own |
| `HttpRuns.StepEvolves` | wasmplugin/plugin.go:291-715 | no event undoes a flag, the interruption, the engine, the labels or a cleared phase |
| `HttpRuns.StepKeeps` | wasmplugin/plugin.go:291-715 | every event keeps the order of calls, the ledger of answers, faithfulness of the bytes fed, safety of the bytes released, and that bodies are held back while their phase is open |
| `HttpRuns.RunKeeps` | wasmplugin/plugin.go:291-715 | the same over whole runs from a new stream |
| `HttpInvariant.StepKeepsFlow` | wasmplugin/plugin.go:291-715 | every event keeps the control-flow invariant: order, interruption ledger, cleared phases |
| `HttpSafety.RequestBodyEffect` | wasmplugin/plugin.go:400-488 | the request-body callback lets the body go, with the engine on and no error, only with the phase done, and pauses on every interruption |
| `HttpSafety.ResponseBodyEffect` | wasmplugin/plugin.go:572-672 | likewise for the response, where an interruption leaves null bytes only |
| `HttpWitnesses.AllowedErrorMisalignsIndex` | wasmplugin/plugin.go:445-448 | a reachable state under "allow" in which what the engine holds is not a prefix of the body |
| `HttpWitnesses.ShortReadReleasesUnseen` | wasmplugin/plugin.go:450-453 | a reachable state without errors in which a byte went upstream that the engine never held |
| `HttpWitnesses.OvertakenReleasesUnseen` | wasmplugin/plugin.go:525-537 | a reachable state without errors or short reads in which the rest of a request went upstream unread, because the response had begun |
| `HttpWitnesses.BlockedFailureReleases` | wasmplugin/plugin.go:478-482 | for every policy but "allow", a reachable state in which a request whose phase failed was answered with 403 and then released |
| `HttpWitnesses.RefusedReplacementLeaks` | wasmplugin/plugin.go:833-837 | a reachable interrupted state in which a byte of the server's body reached the client |
| `HttpWitnesses.InterruptingEventLeaks` | wasmplugin/plugin.go:728-729 | a reachable state without errors and an event that interrupts its response body and releases it |
| `HttpWitnesses.TrailersMeetNilLogger` | wasmplugin/plugin.go:497 | for every policy, a reachable stream without an engine on which trailers crash |
| `HttpWitnesses.UnresolvedRequestGoesOn` | wasmplugin/plugin.go:415-417 | for every policy but "allow", a reachable stream without an engine whose request was answered with 403 and then goes upstream |
| `HttpWitnesses.EarlyResponseSkipsBytes` | wasmplugin/plugin.go:527-537 | a reachable state in which the engine missed the first byte of the response |
| `HttpContexts.HttpContext.constructor` | wasmplugin/plugin.go:234-242 | a new context is in the initial state of the state machine |
| `HttpProxy.Deliver` | wasmplugin/plugin.go:291-712 | driven by the proxy, the object takes the step of the state machine for every event and returns the action of its callback, arrival and release included, and stays reachable and safe |
| `HttpProxy.Serve` | wasmplugin/plugin.go:234-712 | a stream served from its creation ends in the state of the corresponding run, safe, with the shared counters incremented exactly by its own increments and its table unchanged; the request's headers are sent on exactly when a callback continues, so never after they were denied |
| `HttpContexts.HttpContext.OnRequestHeaders` | wasmplugin/plugin.go:291-398 | the object takes the step of the state machine, action included, and adds exactly its increments to the shared counters |
| `HttpContexts.HttpContext.OnRequestBody` | wasmplugin/plugin.go:400-489 | the same for request data |
| `HttpContexts.HttpContext.OnRequestTrailers` | wasmplugin/plugin.go:491-499 | the same for request trailers |
| `HttpContexts.HttpContext.OnResponseHeaders` | wasmplugin/plugin.go:501-570 | the same for response headers |
| `HttpContexts.HttpContext.OnResponseBody` | wasmplugin/plugin.go:572-672 | the same for response data |
| `HttpContexts.HttpContext.OnResponseTrailers` | wasmplugin/plugin.go:674-678 | the same for response trailers |
| `HttpContexts.HttpContext.OnStreamDone` | wasmplugin/plugin.go:680-712 | the same for the end of the stream |
| `HttpContexts.HttpContext.HandleInterruptionAt` | wasmplugin/plugin.go:717-745 | the same for the handling of an interruption |
| `HttpContexts.HttpContext.HandleInternalEngineFailurePolicy` | wasmplugin/plugin.go:847-872 | the same for the failure policy |
| `HttpContexts.HttpContext.ReplaceResponseBodyWhenInterrupted` | wasmplugin/plugin.go:829-839 | the same for replacing the response body |
| `System.HistoryKeeps` | wasmplugin/metrics.go:23-32 | for any interleaving of streams and reloads every counter equals the increments of all streams, and each name is defined once |
| `System.TotalCountsStreams` | wasmplugin/metrics.go:34-37 | the total counter is the number of streams whose request headers arrived |
| `System.InterruptionsCountStreams` | wasmplugin/metrics.go:39-52 | the interruption counters sum to the number of interrupted streams, hence to at most the total |
| `System.SnapshotIsolation` | wasmplugin/plugin.go:234-242 | whatever happens after a stream was opened, ticks and reloads included, it keeps its table, and its engine is the one that table gives for its own request |
| `System.ReloadReachesLaterStreams` | wasmplugin/plugin.go:1018-1082 | a rules answer leaves open streams alone; a stream opened next has its engine as the default if it could be loaded, and the previous default if not |
| `MetricNames.InterruptionNameInjective` | wasmplugin/metrics.go:43-48 | for one label list different (rule, phase) pairs have different counters |
| `MetricNames.ParseDecimal` | wasmplugin/metrics.go:44 | the written rule id can be read back, for every integer, and has no leading zeros |
| `MetricNames.InterruptionIsNotTotal` | wasmplugin/metrics.go:34-44 | no interruption counter is the total counter |
| `Metrics.SameCounterOfPlugin` | wasmplugin/metrics.go:43-48 | within one plugin two interruptions share a counter if and only if they agree in rule, phase and authority |
| `Metrics.SameCounterIff` | wasmplugin/metrics.go:43-48 | for any two label lists: one counter if and only if rule, phase and the written labels agree |
| `Metrics.WrittenNames` | wasmplugin/metrics.go:34-48 | the names of the counters, phases and labels as they are written |
| `MetricNames.LabelsCanClash` | wasmplugin/metrics.go:46-48 | two different label lists, of two configurations, with the same written form |
| `Metrics.BumpCounts` | wasmplugin/metrics.go:23-32 | an increment counts for its own name only and defines no name twice |
| `Metrics.WafMetrics.IncrementCounter` | wasmplugin/metrics.go:23-32 | the cached registration increments exactly the named counter and keeps the cache in step with the host |
| `Metrics.WafMetrics.CountTX` | wasmplugin/metrics.go:34-37 | increments the total |
| `Metrics.WafMetrics.AppendLabels` | wasmplugin/metrics.go:46-48 | the loop appends every label pair in order |
| `Metrics.WafMetrics.CountTXInterruption` | wasmplugin/metrics.go:39-52 | increments the counter of the rule, phase and labels |
| `Wafs.WafTable.Put` | wasmplugin/plugin.go:52-59 | stores an engine, and refuses the empty authority without a change |
| `Wafs.WafTable.SetDefaultWAF` | wasmplugin/plugin.go:61-66 | sets the default engine and nothing else |
| `Wafs.WafTable.Copy` | wasmplugin/plugin.go:234-242 | a copy has a default of its own and shares the routes |
| `Wafs.CopiesShareRoutes` | wasmplugin/plugin.go:41-66 | what is registered in a table reaches its copies, a new default does not |
| `Config.ParsePluginConfiguration` | wasmplugin/config.go:50-164 | accepts exactly blank documents and objects whose names are all declared; what it accepts is closed and means the object field by field |
| `Config.CollectFirst` | wasmplugin/config.go:64-78 | the first of several directives with one name counts |
| `Config.CollectLast` | wasmplugin/config.go:81-100 | the last of several entries with one key counts |
| `Config.FirstWinsDetermines` | wasmplugin/config.go:64-78 | the first-entry rule determines the map |
| `Config.LastWinsDetermines` | wasmplugin/config.go:97-100 | the last-entry rule determines the map |
| `Config.ReadDefault` | wasmplugin/config.go:86-94 | a default is refused if and only if it is given and not declared |
| `Config.ReadAuthorities` | wasmplugin/config.go:96-106 | refused if and only if some authority's last entry names undeclared directives |
| `Config.CheckAuthorities` | wasmplugin/config.go:102-106 | in any order, finds an undeclared name if there is one |
| `Config.ReadSettings` | wasmplugin/config.go:108-144 | the remaining settings with their defaults |
| `Routing.RoutingRefinement` | wasmplugin/plugin.go:68-78 | looking up the built table equals the simple form "authority, directives name, engine" for every authority, including those of the default directives, which are not stored |
| `Routing.LookupCompiles` | wasmplugin/plugin.go:180-191 | the engine of an authority is compiled from the directives it names, which are the lines of the compiled text, without data files |
| `Routing.InvertAuthorities` | wasmplugin/plugin.go:153-159 | the inverted table lists, per name, exactly the authorities that use it, for any order of the walk |
| `Routing.PutAll` | wasmplugin/plugin.go:204-210 | registers every authority, and fails exactly on an empty one |
| `Routing.BuildWAFs` | wasmplugin/plugin.go:153-225 | succeeds if and only if every referenced directive set compiles and the empty authority is not mapped to other than the default; the table is the same for every order of both maps; the exit for unknown directives is never taken |
| `Reload.ReloadConsistency` | wasmplugin/plugin.go:1018-1082 | under any interleaving, either nothing was loaded or the default engine is compiled from the rules and data files of an answer whose UUID is the recorded one |
| `Reload.HandlersDo` | wasmplugin/plugin.go:889-1082 | a tick asks for the latest version if reloading is on; only an answer whose first status is "200" and whose body is decoded counts; another UUID fetches the rules; rules that are not empty and compile with their data files become the default engine with their UUID; nothing else changes anything |
| `Reload.FailuresChangeNothing` | wasmplugin/plugin.go:973-1079 | a failing answer changes neither engine nor UUID, a loaded default stays loaded, and calls are dispatched only where they should be |
| `Reload.LastLoadDecides` | wasmplugin/plugin.go:1018-1082 | after any sequence of ticks and answers the default engine is compiled from the rules and data files of the last loadable answer, whose UUID is recorded, or all is as before if there was none |
| `Reload.FailingAnswersChangeNothing` | wasmplugin/plugin.go:973-1079 | while every answer fails, engine and UUID stay, however many answers and ticks there are |
| `Reload.DefaultNeverLost` | wasmplugin/plugin.go:1018-1082 | once there is a default engine there is one after any further inputs |
| `Reload.TickPeriodMs` | wasmplugin/plugin.go:138-141 | at least 5000 ms for every setting, wrap-around included |
| `Reload.PeriodExactly` | wasmplugin/plugin.go:138-141 | it is the product with 1000 modulo 2^32, or 5000 if that is less |
| `Reload.PeriodHonoured` | wasmplugin/plugin.go:138-141 | the interval is the configured one exactly from 5 to 4294967 seconds |
| `ReloadTiming.OneCallInFlight` | wasmplugin/plugin.go:139-141 | with such a period at most one call is in flight at any time |
| `ReloadTiming.VersionsNeverGoBack` | wasmplugin/plugin.go:973-1082 | the loaded versions never go backwards |
| `ReloadTiming.VersionsKept` | wasmplugin/plugin.go:1018-1082 | what runs is always the rule set loaded last |
| `ReloadTiming.ReloadConvergence` | wasmplugin/plugin.go:889-1015 | if from a tick on the server steadily serves one UUID and rules that compile, that tick's chain ends within two timeouts with the UUID recorded and the engine of a rule set published under it, after at most one fetch, and nothing is fetched later |
| `ReloadTiming.PlayConverges` | wasmplugin/plugin.go:1009-1014 | a steady server never makes the plugin fetch what it has |
| `ReloadTiming.ShortPeriodGoesBack` | wasmplugin/plugin.go:139-141 | with a period of two timeouts only, an older rule set can replace a newer one |
| `CorazaPlugins.CorazaPlugin.OnPluginStart` | wasmplugin/plugin.go:107-231 | the whole start: when it succeeds, how every authority is then routed, and with a server which call and tick period it sets up |
| `CorazaPlugins.CorazaPlugin.StartWithServer` | wasmplugin/plugin.go:125-151 | with a rule-set server: one fetch, an empty table, each label once, and for a positive interval a tick period that the host must accept |
| `CorazaPlugins.CorazaPlugin.NewHttpContext` | wasmplugin/plugin.go:234-242 | a stream starts with a copy of the table that shares the plugin's routes, the policy, the labels and the shared counters |
| `CorazaPlugins.CorazaPlugin.Tick` | wasmplugin/plugin.go:889-932 | takes the step of the reload functions, and leaves the table and every open stream as they were |
| `CorazaPlugins.CorazaPlugin.OnLatestAnswer` | wasmplugin/plugin.go:973-1015 | takes the step of the reload functions, and leaves the table and every open stream as they were |
| `CorazaPlugins.CorazaPlugin.OnRulesAnswer` | wasmplugin/plugin.go:1018-1082 | takes the step of the reload functions, writes none of the shared routes, and leaves every open stream, its table included, as it was |
| `CorazaPlugins.FindStatus` | wasmplugin/plugin.go:980-986 | the loop finds the first status header |
| `CorazaPlugins.ListLabels` | wasmplugin/plugin.go:226-228 | the label list holds each configured pair exactly once, in any order |
| `Port.PortRoundTrip` | wasmplugin/plugin.go:811-824 | decoding inverts eight-byte little-endian encoding up to 2^31 - 1 and refuses every larger number, whatever follows |
| `Port.ParsedIff` | wasmplugin/plugin.go:811-824 | an input decodes to a number if and only if it starts with its encoding; exactly the inputs of fewer than eight bytes are not found |
| `Port.ParsedBytes` | wasmplugin/plugin.go:811-824 | byte by byte: the number is that of the low four bytes, whose top bit and the bytes above must be clear |
| `Crs.Transaction.EvalPhase` | wasmplugin/rules/crs/REQUEST-949-BLOCKING-EVALUATION.conf:20-270 | evaluating the rules in order, with jumps to markers and a stop at the first denial, computes the run that all results below speak of |
| `CrsGating.GatingRefines` | wasmplugin/rules/crs/REQUEST-921-PROTOCOL-ATTACK.conf:17-603 | for any file gated this way, running it equals running the unlocked levels alone, and no jump is left over |
| `CrsGating.LockedNeverTried` | wasmplugin/rules/crs/REQUEST-921-PROTOCOL-ATTACK.conf:346-347 | a rule that is tried belongs to a level the detection level reaches |
| `CrsGating.UnlockedAllTried` | wasmplugin/rules/crs/REQUEST-921-PROTOCOL-ATTACK.conf:17-603 | if no rule jumps or denies, exactly the unlocked rules of the phase are tried, in order |
| `CrsGating.LockedScoresStay` | wasmplugin/rules/crs/REQUEST-921-PROTOCOL-ATTACK.conf:417-418 | the scores of levels above the detection level do not move |
| `CrsProtocolAttack.ProtocolAttackScores` | wasmplugin/rules/crs/REQUEST-921-PROTOCOL-ATTACK.conf:17-603 | the file raises each reached level's score by the critical score times that level's matches and no other level's, and the violation score by that times the matches that count as violations |
| `CrsProtocolAttack.LevelCounts` | wasmplugin/rules/crs/REQUEST-921-PROTOCOL-ATTACK.conf:34-596 | the rules of levels 1, 2 and 4 count as the file says, rule by rule: which scores in which phase at which level, and which count as violations |
| `CrsProtocolAttack.PollutedNames` | wasmplugin/rules/crs/REQUEST-921-PROTOCOL-ATTACK.conf:472-504 | the counting rule and the testing rule together match once for every parameter name that occurs more than once |
| `CrsBlocking.SumsAddUp` | wasmplugin/rules/crs/REQUEST-949-BLOCKING-EVALUATION.conf:20-98 | each sum grows by the scores up to its level |
| `CrsBlocking.PhaseOneJudges` | wasmplugin/rules/crs/REQUEST-949-BLOCKING-EVALUATION.conf:20-222 | after phase 1 both sums are exact, and the request is denied if and only if early blocking is on and the blocking sum reaches the threshold |
| `CrsBlocking.PhaseTwoJudges` | wasmplugin/rules/crs/REQUEST-949-BLOCKING-EVALUATION.conf:100-233 | after phase 2 both sums are exact whatever phase 1 left, and the request is denied if and only if the blocking sum reaches the threshold |
| `CrsInit.InitializationOutcome` | wasmplugin/rules/crs/REQUEST-901-INITIALIZATION.conf:54-472 | denied without a setup; otherwise the numeric settings, zeroed scores, sampling and the plausibility check come out as specified |
| `CrsInit.PreparedVars` | wasmplugin/rules/crs/REQUEST-901-INITIALIZATION.conf:76-318 | every setting is the configured one or its default, every score (sums, four levels in both directions, all attacks) is zero, everything else is untouched |
| `CrsInit.Samples` | wasmplugin/rules/crs/REQUEST-901-INITIALIZATION.conf:411-455 | a request is excused if and only if the percentage is not 100 and the number drawn is not below it |
| `CrsRequest.PhaseOneOutcome` | wasmplugin/rules/crs/REQUEST-949-BLOCKING-EVALUATION.conf:20-222 | no double counting in phase 1 of a whole request with any detection files, gated or not, and detection covers the blocking levels; an excused request is not judged |
| `CrsRequest.PhaseTwoOutcome` | wasmplugin/rules/crs/REQUEST-949-BLOCKING-EVALUATION.conf:102-233 | no double counting in phase 2 |
| `CrsRequest.ScoresOnlyGrow` | wasmplugin/rules/crs/REQUEST-921-PROTOCOL-ATTACK.conf:54-55 | no detection rule lowers a level's score |
| `CrsRequest.EarlyMeansFinal` | wasmplugin/rules/crs/REQUEST-949-BLOCKING-EVALUATION.conf:100-233 | a score that reaches the threshold in phase 1 is denied by phase 2 for all of its verdicts |
| `CrsRequest.EarlyBlockingOnlySooner` | wasmplugin/rules/crs/REQUEST-949-BLOCKING-EVALUATION.conf:211-233 | with early blocking on or off exactly the same requests are denied, only sooner, for any detection files, with or without gates, and all verdicts |
| `CrsVerdict.UngatedFilesDetect` | wasmplugin/rules/crs/REQUEST-922-MULTIPART-ATTACK.conf:27-121 | the sample file and the two files without gates are detection files in this sense |
| `CrsVerdict.MultipartScores` | wasmplugin/rules/crs/REQUEST-922-MULTIPART-ATTACK.conf:27-126 | in phase 2 each match of its four rules raises the score of level 1 by the critical score, and no violation is counted |
| `CrsVerdict.ExceptionsExcuse` | wasmplugin/rules/crs/REQUEST-905-COMMON-EXCEPTIONS.conf:17-57 | a request is excused from all further rules if and only if one of the two exceptions matches |
| `CrsVerdict.RequestDeniedExactly` | wasmplugin/rules/crs/REQUEST-949-BLOCKING-EVALUATION.conf:20-233 | exactly which requests are denied, in terms of the matches of both phases and the settings, for every weight |
| `CrsVerdict.RequestDeniedIff` | wasmplugin/rules/crs/REQUEST-949-BLOCKING-EVALUATION.conf:20-233 | with weights that are not negative: denied if and only if the matches up to the blocking level times the critical score reach the threshold |

## Left out

- CrsInit.InitializationOutcome: covers the numeric settings; text settings, collections and the choice of a body processor do not touch scores or levels.
- CrsRequest.PhaseOneOutcome: covers, like the other results on scoring, the two request phases; phases 3 to 5 and the response files of the rule set are not modelled.
- The Coraza engine: operators, transformations and multiphase evaluation are arbitrary verdicts.
- Header changes and their forwarding, connection and URI data, `retrieveAddressInfo`, `parseServerName`: straight-line code over the host's answers.
- The forwarding of the response's headers: their callback's action is stated, what the proxy does with it is not.
- JSON decoding and the building of headers, paths and tokens for the rule-set server.
- Logging, memory statistics and audit logs.
- `fs.go` and `ruledata_fs.go`: a rule set's data files are part of the identity of its engine, but files are not opened.
- Streams append their authority to a label slice they share. The model treats the list as a value; with spare capacity in the shared slice the code could let streams overwrite each other's label.
- `setDefaultWAF` panics on a nil engine; a compiled engine is never nil here.
- Widths of integers other than the tick interval, the status code and the port.
- Engines are compared by what they were compiled from; compiling has no other effect.
- The Core Rule Set rules that set texts, manage collections or choose body processors, and the patterns of all detection rules.
