# OtoDock: protocols and invariants in Dafny

OtoDock runs agents over phone lines, satellites, browsers and tool servers. Spread through that orchestration are small
stateful protocols whose comments promise something about whole runs. This project models them and proves what holds.

- **BootGuard**: the satellite's crash-loop detector and rollback, with any file operation failing and the process dying
  between any two of them.
- **PinStore**: the PIN gate's lockout windows, their size cap, the log of its calls and the restart replay.
- **Exchange**: the HTTP middleware's body cap, body deadline and single response. The codes are 408 (section 15.5.9 of
  RFC 9110) and 413 (section 15.5.14 of RFC 9110).
- **TwilioCalls**: an outbound call's life under media sockets, callbacks, the dial watchdog and originations.
- **DuplexQueue**: the duplex socket's outbound queue and its flush, and the microphone's bounded backlog.
- **CallControl**: the call tools' pending action and the settling of transfers by several tasks.
- **Admission**: the accept path's pending counters and the band reserved for the PBX.
- **GhFlags**: the generator that compresses flag tables and the lookup that must still mean the same.
- **FileReplace**: one file replaced through temps and renames by any number of starts at once.
- **Chunking**: a text cut into sentence chunks for speech.
- **ToolArgs**: near-miss enum strings folded along a schema (`enum` is section 6.1.2 of JSON Schema Validation 2020-12).
- **Sidecar**: the session index of a streaming tool server and its idle collector.
- **RateLimiter**: the window limiter of the call API.
- **Text**: the string facts they share (strip, lines, decimals). **Wrappers**: Option.

Where the source is asyncio, a step runs from one await to the next and is atomic; in FileReplace a step is one system
call, in BootGuard one file operation. Each protocol is a value-level machine with its run theorems. Where the source
changes state in place, the same module has a class (`Installation`, `PinFailureStore`, `BodyCap`, `Daemon`,
`DuplexConnection`, `CallPipeline`, `Listener`, `Folder`, `Sessions`, `RateLimiter`, `ToolArgs`) or a looping method whose
contract ties it to that machine, so the theorems are about the code. Clocks, random names, the network, the file
system's refusals, credential verdicts and everything other tasks do are inputs of the events, chosen freely.

## Where the code falls short of its documentation

Each of these is proved, with the exact condition under which the promise does hold.

- A rollback that fails may already have changed or removed the current tree; the docstring says it stays untouched. Every
  failing rollback leaves it so exactly when there is none (`BootGuard.CurrentIsKeptIff`), and a given one does by where it
  failed (`BootGuard.FailedRollback`). The old build survives every run exactly when the install is not exposed: the
  boot count is written in place, and a torn write can leave an older version as the target, one that did authenticate
  (`BootGuard.OldSurvivesIff`).
- A logged PIN call ahead of the clock puts its window out of order at the next failure, exactly as long as a replayed
  stamp of that key lies ahead (`PinStore.RouteOrderAfterReplayIff`, `PinStore.NumberOrderAfterReplayIff`). Eviction reads
  the last stamp only, so a locked caller can then be dropped, which the module says never happens; it can over the runs
  from here exactly as `PinStore.LockCanBeLostIff` says, and `PinStore.AheadCallLosesLock` is a log that does it.
- The replay takes a call for what the PIN gate did exactly as `PinStore.TakenAsItWasIff` says. A call that passed the gate
  and was hung up on or transferred cleared its caller then and does not in the replay; neither does any outbound call.
- A read after a cut is a disconnect, but one already pending goes on: the cut is final exactly when none is
  (`Exchange.CutIsFinalIff`), and a byte can still be handed over exactly as `Exchange.HandedAfterCutIff` says. An app that
  awaits two reads at once gets there (`Exchange.TwoReadsOutliveCut`); one that awaits one at a time never does
  (`Exchange.CutIsFinal`).
- A transfer attempt begun over an open one, then refused, leaves the call reading transferred (`CallControl.MisreadIff`).
- With three PBX addresses the reserved band can be full of the other two (`Admission.ReserveHoldsIff`).
- A reader of a file under concurrent replacement can find nothing where a file was: two starts that differ unlink each
  other's, and three starts alike do so through the gap between the open and the link count (`FileReplace.NameIsKeptIff`). The
  documentation promises the old file or the new one.
- Joining the chunks with spaces rebuilds a text exactly when it is one tight line with one space after each sentence end
  and at each soft cut (`Chunking.JoinRebuildsIff`); a text with a paragraph break never is.
- A session whose id changes leaves its old id behind (`Sidecar.IndexOkIff`), and one used while the collector awaits its
  upstream is dropped all the same (`Sidecar.UsedMeanwhileIsDropped`), exactly then (`Sidecar.GcTakesActiveIff`).

## Model

| member | source | states |
|---|---|---|
| `BootGuard.RollbackIsCrashSafe` | satellite/__main__.py:185-239 | Over any number of boots, with any operation failing and the process dying anywhere, the old build stays whole in `satellite.previous` or in `satellite`, and the marker is gone only once `satellite` is the old build with whatever venv either tree had; for every install that is not exposed |
| `BootGuard.OldSurvivesIff` | satellite/__main__.py:153-239 | That safety holds over every run exactly when the last authenticated version is not a prefix of the marker's target that a torn count could leave (or the target itself) |
| `BootGuard.ExposedLosesOld` | satellite/__main__.py:246 | The run that loses the old build from every exposed install: the count is written in place, a torn write names an older version as target, the next boot takes the update for authenticated and drops the copy |
| `BootGuard.NoCopyNoChange` | satellite/__main__.py:192-201 | With no `satellite.previous`, no step of any run changes a tree |
| `BootGuard.FailedRollback` | satellite/__main__.py:203-227 | Every rollback that returns without completing keeps the marker; it leaves the current tree as it was exactly when it failed carrying the venv, or removing a tree whose venv it had not carried before anything of it was removed, or when there is no such tree; every later failure has changed it |
| `BootGuard.CurrentIsKeptIff` | satellite/__main__.py:115-117 | The docstring's "any filesystem failure leaves the CURRENT tree untouched", over all rollbacks of an install: it holds exactly when there is no current tree at all |
| `BootGuard.PlainLines` | satellite/__main__.py:131-133 | Line ends of any kind are read as newlines, so no line read holds a carriage return, and the count the guard writes is read back as written |
| `BootGuard.MarkerRoundTripIff` | satellite/__main__.py:131-133 | The text written at 246 reads back as the same target and count exactly when its first line is not blank, for any lines without line ends in them |
| `BootGuard.NextCounts` | satellite/__main__.py:244-246 | One more counted boot raises the count by one and keeps the target, from any marker with ink; an empty marker costs one boot more |
| `BootGuard.TornTarget` | satellite/__main__.py:246 | However the write of a count is torn, the target read back is a prefix of the target |
| `BootGuard.RollbackConverges` | satellite/__main__.py:163-246 | Unless the stamp's first line is the marker's target, and the target not empty, the update is rolled back at exactly the boot its count says (the third after the swap), the marker cleared, no tree changed before |
| `BootGuard.StampNamesTargetIff` | satellite/__main__.py:131-153 | For a marker and a stamp as they are written, the update counts as authenticated exactly when the stamp's first line is the marker's target, whole |
| `BootGuard.CopyGoesIfNamedOrRestored` | satellite/__main__.py:144-239 | Over every guard run the marker or the rollback copy is lost only in a boot that read the marker's target as the stamp's first line, or that put the copy in place with whatever venv there was |
| `BootGuard.AuthenticatedBuildStays` | satellite/__main__.py:144-161 | Once the stamp names the marker's target, no later boot of any run rolls back, even if the marker can never be unlinked |
| `BootGuard.Installation.CheckPostUpdateState` | satellite/__main__.py:123-246 | Every run of the guard's code is a run of the modelled steps; without a failure it leaves what the two files say: the leftovers gone, one boot more counted, or the copy in place; with any failure the marker or the copy is lost only if the stamp names the target or the copy is in place |
| `BootGuard.Installation.RollBack` | satellite/__main__.py:203-239 | Venv first, then the broken tree, then the swap, the marker after all three |
| `BootGuard.Installation.CarryVenv` | satellite/__main__.py:208-218 | The only venv is moved back, or nothing changes |
| `BootGuard.Installation.SwapIn` | satellite/__main__.py:221-227 | The previous build becomes the current one, or stays the previous one |
| `BootGuard.Installation.FinishRollback` | satellite/__main__.py:231-239 | The marker and a leftover staged build go; the trees stay |
| `BootGuard.Installation.DropStale` | satellite/__main__.py:153-161 | Marker and rollback copy of an authenticated update go, as far as the host lets them |
| `BootGuard.Installation.CountBoot` | satellite/__main__.py:244-246 | The next count is written whole, or torn at any point and the guard raises |
| `PinStore.RestartEqualsUnbrokenRun` | phone/calls/pin_failures.py:119-151 | For failures not in the future, the replay leaves each window as the sorted union of what a live store would still hold of the log and what this process recorded; a caller cleared here gets nothing of the log |
| `PinStore.ReplayEqualsLive` | phone/calls/pin_failures.py:129-145 | Folding the events with one cutoff gives, per caller and per route, what recording and clearing them live in that order leaves inside the window |
| `PinStore.MergedIsSortedUnion` | phone/calls/pin_failures.py:146-148 | Each merged window is sorted and its multiset is the union of both |
| `PinStore.AfterSort` | phone/calls/pin_failures.py:148 | Cutting a window and sorting it commute |
| `PinStore.DigitsCount` | phone/config_manager.py:24-32 | Of a caller's number each digit counts, in order, and nothing else: every way of writing it is one caller |
| `PinStore.GateDecides` | phone/pipeline/pin_gate.py:116-146 | The gate goes on through wrong and silent entries up to its limit, each counted as the call's direction says, and the first other answer, or the limit, is its verdict |
| `PinStore.CooldownLeavesNoTrace` | phone/pipeline/pin_gate.py:63-68 | A caller turned away in cooldown leaves no failure, live or in the replay |
| `PinStore.ReplayableCounts` | phone/calls/pin_failures.py:133-140 | The failures reported as replayed are those the windows hold: for one route's calls, the length of its window |
| `PinStore.Attempts` | phone/pipeline/pin_gate.py:116-146 | The attempt loop: on an inbound call a refused call has failed every attempt it reached, any other all but its last; an outbound call counts wrong codes only |
| `PinStore.TakenAsItWasIff` | phone/calls/pin_failures.py:48-68 | For every call that met the gate, inbound or outbound: the replay takes its row for what the gate did, failures and clear, exactly when it was refused, or inbound and passed and logged as completed, or cut off in an entry without being logged as completed (outbound: without a code that counted) |
| `PinStore.LogIsTheGates` | phone/calls/pin_failures.py:129-133 | Read back, the log is the gate's own failures and clears, call by call, for the calls begun before this process |
| `PinStore.RestartEqualsGate` | phone/calls/pin_failures.py:119-151 | So after a restart each window is the sorted union of what the gate itself left inside it and what this process recorded |
| `PinStore.LaterCallIsSkipped` | phone/calls/pin_failures.py:129 | A call begun in this process's own time changes nothing of the replay, wherever it stands in the log |
| `PinStore.RefusedCallCounts` | phone/calls/pin_failures.py:60-68 | A call refused after five attempts leaves its caller five stamps inside the window, wherever it stands in the log, unless a completed call of that caller began later |
| `PinStore.RefusedIsLockedAgain` | phone/calls/pin_failures.py:119-151 | And that caller is locked after the replay and its eviction, whatever else log and memory hold |
| `PinStore.CompletedCallClears` | phone/calls/pin_failures.py:141-142 | A completed call clears its caller: nothing of before its start is left of the log |
| `PinStore.RouteOrderAfterReplayIff` | phone/calls/pin_failures.py:107-109 | A route's window as the replay merged it, then one more failure: in order exactly when no replayed stamp of that route that survived the log lies ahead of the clock, the stamp being the logged one moved by the offset |
| `PinStore.NumberOrderAfterReplayIff` | phone/calls/pin_failures.py:104-107 | The same of a caller's window, for the stamps no later verified call cleared |
| `PinStore.SeededRouteStamps` | phone/calls/pin_failures.py:133-140 | What the replay builds for a route is exactly the stamps of its calls that failed inside the window |
| `PinStore.SeededNumberStamps` | phone/calls/pin_failures.py:133-142 | For a caller, exactly those since its last verified call |
| `PinStore.CountIsExact` | phone/calls/pin_failures.py:89-182 | Over every run of checks, failures, clears and replays, evictions included: a window never counts more than was recorded and replayed since the last clear, and counts exactly that unless it was dropped with a stamp that is still inside the trailing window |
| `PinStore.ClearUnlocks` | phone/calls/pin_failures.py:111-117 | A clear takes the caller's whole window at once, and no one else's |
| `PinStore.UncappedLosesNothing` | phone/calls/pin_failures.py:95-98 | The route table, which has no cap, drops nothing over any run |
| `PinStore.LockedIsKept` | phone/calls/pin_failures.py:166-182 | No eviction takes a locked caller whose window was brought no stamp ahead of the clock |
| `PinStore.LockCanBeLostIff` | phone/calls/pin_failures.py:169-182 | Over every continuation of every run: a lock can be lost before its window cools, with no clear, exactly when five stamps lie beyond the last one of the window, or beyond the clock when that last one is ahead; never for a window in order |
| `PinStore.AheadCallLosesLock` | phone/calls/pin_failures.py:127-148 | One logged call with five failures ahead of the clock, replayed, is such a case: a run loses that caller's lock |
| `PinStore.AheadOnlyByReplay` | phone/calls/pin_failures.py:146-148 | Only a replay that brings a key a stamp ahead of the clock can put its window out of order |
| `PinStore.CapIsKept` | phone/calls/pin_failures.py:102-107 | After a recorded failure the table passes the cap only if everyone else in it holds five stamps or more |
| `PinStore.PinFailureStore.NumberLocked` | phone/calls/pin_failures.py:89-93 | Locked only on five or more failures since the last clear inside the trailing 900 s, and always then unless the cap dropped the caller with a stamp that is still inside them; 900 s after a drop it is exact again |
| `PinStore.PinFailureStore.RouteLocked` | phone/calls/pin_failures.py:95-98 | Locked exactly when twenty or more failures lie in the trailing 900 s |
| `PinStore.PinFailureStore.RecordFailure` | phone/calls/pin_failures.py:102-109 | One failure of one stamp joins the caller's and the route's run; every caller locked then is still in the table, unless a replay brought it a stamp ahead of the clock; the table passes the cap only when everyone else in it holds five stamps or more |
| `PinStore.PinFailureStore.RecordNumber` | phone/calls/pin_failures.py:104-107 | Evict, prune and append are one failure event of the callers' run, what was evicted named in it |
| `PinStore.PinFailureStore.RecordRoute` | phone/calls/pin_failures.py:108-109 | The same of the routes' run, nothing evicted |
| `PinStore.PinFailureStore.ClearNumber` | phone/calls/pin_failures.py:111-117 | The caller's entry goes and no route's; before the replay the caller is remembered against it |
| `PinStore.PinFailureStore.Seed` | phone/calls/pin_failures.py:119-151 | Whatever the log holds, stamps ahead of the clock too: route windows become the union of log and memory, callers' windows too bar the cleared ones, then the cap is applied; a caller refused five times inside the window and not cleared since is locked; returns the failures replayed |
| `PinStore.PinFailureStore.TakeInNumbers` | phone/calls/pin_failures.py:143-149 | Merging the rebuilt callers and applying the cap is one event of the callers' run |
| `PinStore.PinFailureStore.TakeInRoutes` | phone/calls/pin_failures.py:146-148 | Merging the rebuilt routes is one event of the routes' run |
| `PinStore.PinFailureStore.Logged` | phone/calls/pin_failures.py:130-132 | The replayable calls in time order, the same multiset as logged; which calls those are the rows on the gate say |
| `PinStore.PinFailureStore.Fold` | phone/calls/pin_failures.py:130-142 | The loop over the events is the fold the replay theorems are about |
| `PinStore.PinFailureStore.Merge` | phone/calls/pin_failures.py:146-148 | The loop over the rebuilt keys is the union the replay theorems are about |
| `PinStore.PinFailureStore.Prune` | phone/calls/pin_failures.py:155-164 | A key's entry is cut to the window, and leaves the table when nothing stays |
| `PinStore.PinFailureStore.EvictIfNeeded` | phone/calls/pin_failures.py:166-182 | Ends; removes no locked caller; what it releases is the least recently active of the unlocked; leaves room or only locked callers |
| `PinStore.PinFailureStore.LeastRecentUnlocked` | phone/calls/pin_failures.py:176-182 | The unlocked caller with the oldest last stamp, ties by number; none exactly when everyone is locked |
| `PinStore.PinFailureStore.ReleaseUnlocked` | phone/calls/pin_failures.py:175-182 | The eviction loop ends with room for one more or with only locked callers |
| `PinStore.PinFailureStore.DropExpired` | phone/calls/pin_failures.py:169-174 | Exactly the entries with nothing left inside the window go |
| `Exchange.OneResponse` | proxy/middleware.py:512-562 | For an app that emits one response start at most, the server gets one at most under every interleaving of app sends, size cuts, deadline cuts, refusals and the 500 guard, and no app message follows the middleware's answer |
| `Exchange.ServerIsTold` | proxy/middleware.py:530-562 | Over every run: as long as the middleware has not answered, every message of the app has reached the server but a start still held; once it has, its answer is one start with 401, 408, 413 or 500, and one body |
| `Exchange.CutIsAnsweredIff` | proxy/middleware.py:719-748 | A cut tells the client at once, with its own code and a close, exactly when nothing of a response has started |
| `Exchange.DeclaredAsksOnce` | proxy/middleware.py:588-611 | A declared length that only a credential allows asks for it once and for all |
| `Exchange.HeldIsDelivered` | proxy/middleware.py:530-562 | A held start and the answer's body reach the server exactly once |
| `Exchange.FailureIsAnsweredIff` | proxy/middleware.py:655-671 | An app that raises with nothing started is answered for with 500 exactly where the guard covers its path and nothing was cut |
| `Exchange.RefusalIsTold` | proxy/middleware.py:678-685 | A refused request: the refusal's messages reach the server, one start at most, and the app's never do |
| `Exchange.BodyIsBounded` | proxy/middleware.py:731-748 | Over every run the app is never handed more than the cap in force, which never passes its starting cap unless the one credential check proved valid (or the webhook route lifted it), and never the backstop |
| `Exchange.JudgeKeepsCap` | proxy/middleware.py:597-605 | Judging a size keeps the cap between the narrow and the full tier, widened only by a proven credential, asked once |
| `Exchange.CapStartsInForce` | proxy/middleware.py:687-699 | Each request starts with a cap that stands in its tiers: at the unauthenticated one at most on an auth, listed or other route where that is on |
| `Exchange.CapMeans` | proxy/middleware.py:119-135 | The cap a request starts with and the one it can come to, said by what they let through: route by route the backstop, its own tier and, for auth, listed and other routes, the unauthenticated tier |
| `Exchange.HandedIsAllowed` | proxy/middleware.py:687-748 | Over every run, whatever is declared, sent, awaited or proven, what the app was handed is what its route allows this sender |
| `Exchange.HandedIff` | proxy/middleware.py:687-748 | And an amount can be handed over in some run exactly when the route allows it; without a proven credential exactly when it allows it to who proves nothing |
| `Exchange.DeclaredIsRefusedIff` | proxy/middleware.py:700-711 | A declared length is refused at once, with 413 or for a bad credential 401, exactly when the route would never take so much of this sender |
| `Exchange.ArrivalIsCutIff` | proxy/middleware.py:734-748 | A body message is handed over whole or cut: cut exactly when the bytes so far pass the cap and the wider one this sender may have; 401 exactly when the credential was asked for and does not verify |
| `Exchange.TimeoutCutsIff` | proxy/middleware.py:719-729 | A wait that ran out ends the body with 408 unless the credential proves valid; then the read goes on, untimed |
| `Exchange.BodyIsOpenIff` | proxy/middleware.py:700-714 | A request let through has a body to read exactly when it declares one or sends chunks, and it is timed but on a webhook route |
| `Exchange.BodyWaitsAreBounded` | proxy/middleware.py:621-638 | Over every run of a request whose body is timed: until the body is complete or a credential proves valid every read is on a timer, one wait is 10 s at most, and for an app that reads one message at a time all waits, a pending one to its end, are 30 s at most together |
| `Exchange.NothingAfterCut` | proxy/middleware.py:731-733 | Once cut and with no read pending, no later step hands a byte over |
| `Exchange.CutIsFinalIff` | proxy/middleware.py:731-748 | A cut request's body is never touched again, whatever happens, exactly when no read was pending at the cut |
| `Exchange.HandedAfterCutIff` | proxy/middleware.py:716-748 | After a cut, for size or for time, some run hands the app another byte exactly when a read was pending and what has come leaves room under the most the cap can still widen to |
| `Exchange.SequentialReads` | proxy/middleware.py:731-748 | An app that awaits one read at a time never has two pending, and none at a cut |
| `Exchange.CutIsFinal` | proxy/middleware.py:731-748 | For such an app every read after a cut is a disconnect: the body's state changes no more, whatever happens |
| `Exchange.TwoReadsOutliveCut` | proxy/middleware.py:716-748 | Any timed request with two reads awaited at once reaches that: the first one's deadline cuts, the second is still pending |
| `Exchange.BodyCap.ProvenNow` | proxy/middleware.py:588-595 | The credential is evaluated at most once, and a valid one opens the full cap |
| `Exchange.BodyCap.Exceeded` | proxy/middleware.py:597-605 | Whether a size passes the cap in force after the one check it may trigger |
| `Exchange.BodyCap.DeclaredExceeded` | proxy/middleware.py:607-611 | A declared length is judged against the ceiling on a webhook route, else as a received one |
| `Exchange.BodyDeadline.WaitS` | proxy/middleware.py:632-638 | The wait is within the gap and the whole-body clock, started by the first read |
| `Exchange.ExchangeState.Forward` | proxy/middleware.py:530-545 | A start marks the exchange started before its cookie refresh awaits |
| `Exchange.ExchangeState.AppSend` | proxy/middleware.py:547-549 | The app's messages are dropped once the middleware answered |
| `Exchange.ExchangeState.AnswerWith` | proxy/middleware.py:551-562 | The middleware's own start and body |
| `Exchange.ExchangeState.CutWith` | proxy/middleware.py:742-747 | A cut answers only when nothing has started |
| `Exchange.Request.BeginReading` | proxy/middleware.py:716-733 | A read after a cut awaits nothing; any other awaits a message, on a timer of what wait_s allows while the body is timed |
| `Exchange.Request.Receive` | proxy/middleware.py:734-748 | The message counted, judged, and handed over or cut with the code the cap refuses with |
| `Exchange.Request.Received` | proxy/middleware.py:731-748 | The awaited message arrives: its read ends, and it is counted, judged, handed over or cut as the modelled step |
| `Exchange.Request.RanOut` | proxy/middleware.py:720-729 | A wait that ran out: a proven credential reads on untimed, anything else is cut with 408 |
| `TwilioCalls.SingleAttachSingleReport` | phone/calls/twilio_http.py:311-383 | Over every interleaving of webhooks, media sockets, callbacks, watchdogs, originations and waits, whatever the timing: a call runs one pipeline at most, reports once at most, and has reported exactly when it is terminal; and where a claim outlives the watchdog, a token or uuid admits one media socket at most |
| `TwilioCalls.SingleGateIff` | phone/calls/twilio_http.py:341-353 | The gate is single over every run exactly when the claim TTL is longer than the watchdog's limit |
| `TwilioCalls.DaemonTimingOutlives` | phone/calls/http_api.py:313-319 | With 700 s against 75 s that holds exactly while the event loop is less than 625 s late |
| `TwilioCalls.TwoSocketsPass` | phone/calls/twilio_http.py:341-364 | The run that admits two sockets when it is not |
| `TwilioCalls.ConnectedStands` | phone/calls/twilio_http.py:387-424 | A connected call stays connected through any callbacks, sockets, webhooks, watchdogs and waits, in any order, until its own pipeline ends or the wait for it times out |
| `TwilioCalls.AnsweredCallConnects` | phone/calls/twilio_http.py:334-382 | Whatever came before and whatever else runs: a call whose first socket, routed and with room, comes after its origination and before any callback that ends it, its watchdog or its waiter, is connected with one pipeline |
| `TwilioCalls.MediaConnectsIff` | phone/calls/twilio_http.py:341-382 | A socket connects the call it names exactly when that dials unclaimed and the socket has a route and room; else no call and no pipeline changes |
| `TwilioCalls.TokenAdmits` | phone/calls/twilio_http.py:354-364 | An inbound token presented for the first time within its minute admits its socket |
| `TwilioCalls.CallbackFailsIff` | phone/calls/twilio_http.py:401-424 | A callback fails a dialing call exactly with busy, no-answer, failed, canceled or completed, and reports it once; any other changes nothing |
| `TwilioCalls.CallEnds` | phone/calls/http_api.py:601-616 | A failed origination, the watchdog of a dialing call and a waiter that gives up each fail the call they are about, and no other |
| `TwilioCalls.PipelineEndDecides` | phone/calls/call_manager.py:166-201 | A pipeline that ends gives its call its own end |
| `TwilioCalls.CollectedIsGone` | phone/calls/call_manager.py:390-394 | A collected call is found no more, by its id or its uuid |
| `TwilioCalls.StepIsSafe` | phone/calls/twilio_http.py:311-424 | Every step keeps claims, statuses, index and counters consistent |
| `TwilioCalls.RunIsSafe` | phone/calls/twilio_http.py:311-424 | So does every run |
| `TwilioCalls.TtlStore.SweepExpired` | phone/calls/twilio_http.py:164-167 | Exactly the expired entries go |
| `TwilioCalls.TtlStore.Put` | phone/calls/twilio_http.py:169-171 | The entry stands for one TTL, the expired ones gone |
| `TwilioCalls.TtlStore.Pop` | phone/calls/twilio_http.py:173-177 | Found exactly when unexpired, and taken |
| `TwilioCalls.TtlStore.Seen` | phone/calls/twilio_http.py:179-185 | True exactly when the key stands unexpired; else it is registered |
| `TwilioCalls.Daemon.Media` | phone/calls/twilio_http.py:334-382 | One media socket is the modelled step: its pipeline runs exactly when its call dials unclaimed, with route and room, or its inbound token stands, with room; the call is then connected |
| `TwilioCalls.Daemon.OnStatus` | phone/calls/twilio_http.py:401-424 | One callback is the modelled step, and changes anything exactly for a dialing call and one of the five words |
| `TwilioCalls.Daemon.UpdateStatus` | phone/calls/call_manager.py:166-201 | The status is set and the report goes out on the edge into a terminal one only |
| `TwilioCalls.Daemon.DialTimeoutWatchdog` | phone/calls/http_api.py:601-616 | A call still dialing fails, once |
| `TwilioCalls.Daemon.GetCallByUuid` | phone/calls/call_manager.py:160-164 | The call behind a uuid through the index |
| `TwilioCalls.Daemon.CleanupCall` | phone/calls/call_manager.py:390-394 | The call and its index entry go together |
| `DuplexQueue.FlushConservation` | phone/duplex/connection.py:184-261 | Over every interleaving: events sent, in hand and queued are exactly those queued, in order; what leaves leaves first in first out; no audio queued before a flush is sent after it; the join counter is the queue plus the item in hand |
| `DuplexQueue.QueuedSinceFlushStands` | phone/duplex/connection.py:184-261 | Everything queued since the last flush, audio and events, is sent, in hand or queued: in that order, and last |
| `DuplexQueue.LineChanges` | phone/duplex/connection.py:240-261 | A step loses nothing but what a flush is for: what is sent, in hand and queued grows by what is queued, and a flush takes only the audio still queued |
| `DuplexQueue.DoConserves` | phone/duplex/connection.py:184-261 | Every step keeps that |
| `DuplexQueue.FlushSilences` | phone/duplex/connection.py:240-261 | After a barge-in over an open link no audio queued before it is sent but what had left the queue by then |
| `DuplexQueue.WriterDelivers` | phone/duplex/connection.py:184-198 | Left to itself a writer that is up sends all there is, in order, and the join is done |
| `DuplexQueue.CloseIsFinal` | phone/duplex/connection.py:188-235 | After a close or a failed send, over every run that follows, the link is closed and what was sent, lost or queued stands as it was |
| `DuplexQueue.CancelEndsWriter` | phone/duplex/connection.py:184-198 | A writer cancelled at any moment sends nothing more |
| `DuplexQueue.EventsConcat` | phone/duplex/connection.py:250-260 | Keeping the events of two stretches is keeping the events of both together |
| `DuplexQueue.MicKeepsLatest` | phone/duplex/connection.py:97-126 | Over every run the microphone backlog is exactly the latest unmuted frames in order, 100 at most; every earlier frame was read, in order, or evicted, and evicted only with a full backlog behind it; a reader waiting when the stream closes finds something to wake on |
| `DuplexQueue.FrameJoins` | phone/duplex/connection.py:100-126 | A muted frame leaves no trace; any other is the last of the backlog, and a full one loses its oldest and counts a drop |
| `DuplexQueue.MuteHolds` | phone/duplex/connection.py:137-182 | The microphone is muted exactly as it was last told |
| `DuplexQueue.ReadsInOrder` | phone/duplex/connection.py:225-231 | A reader gets what is in the backlog, first to last, one frame a read |
| `DuplexQueue.WaitingReaderIsServed` | phone/duplex/connection.py:200-231 | A reader that finds nothing waits and gets the next frame, or ends when the stream closes |
| `DuplexQueue.DuplexConnection.FlushPlayback` | phone/duplex/connection.py:240-261 | Draining and putting back in place is the modelled flush |
| `DuplexQueue.DuplexConnection.DrainQueue` | phone/duplex/connection.py:250-258 | The queue is emptied, its events kept in order, every item counted done |
| `DuplexQueue.DuplexConnection.PutBack` | phone/duplex/connection.py:259-260 | The kept events are queued and counted again |
| `DuplexQueue.DuplexConnection.SendEventNow` | phone/duplex/connection.py:218-221 | Queued unless closed |
| `DuplexQueue.DuplexConnection.SendAudioNow` | phone/duplex/connection.py:233-235 | Queued unless closed |
| `DuplexQueue.DuplexConnection.WriterTakes` | phone/duplex/connection.py:187 | The head of the queue goes into the writer's hand |
| `DuplexQueue.DuplexConnection.WriterSent` | phone/duplex/connection.py:188-198 | Counted done whether sent or failed; a failure closes the link |
| `DuplexQueue.DuplexConnection.OnMicFrame` | phone/duplex/connection.py:100-126 | A muted frame is dropped; a full backlog loses its oldest |
| `DuplexQueue.DuplexConnection.MarkClosed` | phone/duplex/connection.py:200-208 | Closes once; the end mark joins the backlog when it has room |
| `CallControl.TargetIffTransfer` | phone/pipeline/call_control.py:82-196 | In every run a target stands exactly beside a pending transfer, and it is one the route configures |
| `CallControl.TargetIsConfigured` | phone/config_manager.py:162-179 | What a word resolves to is a configured target it names, with something to call it; None exactly when it names none |
| `CallControl.WordReaches` | phone/config_manager.py:162-179 | A word reaches the first target whose label it gives, in whatever case and margins, or whose digits it gives, in whatever writing, and no other |
| `CallControl.DigitsCount` | phone/config_manager.py:162-179 | Of a number only its digits count, in order |
| `CallControl.ToolIsTakenIff` | phone/pipeline/call_control.py:82-150 | A tool is taken exactly when its turn is current, no end or transfer is pending (for a question: nothing at all) and what it asks for can be done; refused, it leaves no trace |
| `CallControl.TransferTargetFor` | phone/config_manager.py:162-179 | The loop finds the first such target |
| `CallControl.TransferBookkeeping` | phone/pipeline/call_control.py:240-349 | However many tasks settle, each request is recorded exactly once; a caller moved under a name reads transferred, or the error of a proxy lost during the attempt; with none open only a moved one reads transferred; for attempts that do not overlap |
| `CallControl.RecordMovesOrRestores` | phone/pipeline/call_control.py:299-333 | Recording leaves a move under the target's name, or the outcome before the attempt; a move exactly on success or on an answer lost as the line closed |
| `CallControl.MisreadIff` | phone/pipeline/call_control.py:258-263 | A call can end up reading transferred with nobody moved exactly on lines that can transfer at all, and only by an attempt begun before the last one's tasks were done |
| `CallControl.OverlapMisreads` | phone/pipeline/call_control.py:258-263 | The run that does it: the second attempt saves the first one's "transferred" as the outcome to restore |
| `CallControl.TransferStands` | phone/pipeline/call_control.py:178-196 | Over every run a pending transfer and its target stand through barge-ins, tools, hangups and a lost proxy until the transfer is executed |
| `CallControl.AttemptDecides` | phone/pipeline/call_control.py:251-349 | An attempt moves the caller, and ends the call as transferred under the label, exactly when its request succeeds or goes unanswered while the line closes; refused on an open line, the call goes on with its earlier outcome and nothing pending; refused after a hangup, it ends with it |
| `CallControl.NobodyToMove` | phone/pipeline/call_control.py:251-257 | Once the person has hung up a transfer is not attempted and the call ends |
| `CallControl.HangupReads` | phone/pipeline/core.py:372-380 | A hangup closes the line, and is the outcome exactly when the call read completed and nothing had ended it or was about to |
| `CallControl.CompletedStands` | phone/pipeline/core.py:372-380 | A call the agent completed stays completed when the person then hangs up |
| `CallControl.ClearDrops` | phone/pipeline/call_control.py:178-196 | A clear drops a pending end or question; a transfer only when it is told to, with its target |
| `CallControl.CallPipeline.OnCallControl` | phone/pipeline/call_control.py:82-150 | One tool call: refused when stale, pending, unknown or unavailable, else recorded |
| `CallControl.CallPipeline.ClearCallControl` | phone/pipeline/call_control.py:178-196 | The pending action and its target go together, or stay |
| `CallControl.CallPipeline.DoTransfer` | phone/pipeline/call_control.py:251-279 | The attempt is set up and sent, or refused at once, or skipped on a closed line |
| `CallControl.CallPipeline.SettleTransfer` | phone/pipeline/call_control.py:289-333 | Whichever waiter finds the outcome unrecorded records it; a later one changes nothing |
| `CallControl.CallPipeline.ResolveRequest` | phone/pipeline/call_control.py:301-333 | What the request's end means, and whether it ended the call |
| `CallControl.CallPipeline.TransferDone` | phone/pipeline/call_control.py:335-338 | The caller is moved under the label and the call ends |
| `CallControl.CallPipeline.TransferFailed` | phone/pipeline/call_control.py:340-349 | The outcome before the attempt is back and nothing is pending |
| `Admission.AdmissionAccounting` | phone/main.py:405-456 | Over every run of connects, reads, releases and refreshes of the PBX set: the total is the sum over peers and the connections in flight, no peer holds more than 8, all 64 at most, those not admitted as a PBX 48 at most |
| `Admission.ReserveHoldsIff` | phone/main.py:416-421 | A PBX meets a pending ceiling only by holding 8 itself, over every run with a fixed set, exactly when the set has at most two addresses |
| `Admission.ReserveForTwo` | phone/main.py:416-421 | For two addresses or fewer: refused only while holding 8 itself |
| `Admission.FillPeer` | phone/main.py:440-441 | Connects of one peer are admitted one by one up to its own ceiling while the shared one has room |
| `Admission.PbxKeyIff` | phone/main.py:143-153 | A peer is counted as a PBX exactly when its unwrapped address is a configured one |
| `Admission.SameCounterIff` | phone/main.py:143-153 | Two peers share a counter exactly when they are one address, or lie in one /64 with neither of them a PBX |
| `Admission.MappedIsItself` | phone/main.py:143-153 | An IPv4 address counts as itself, plain or mapped into IPv6 |
| `Admission.UnwrapIsOneToOne` | phone/main.py:143-153 | No other address is read as another one |
| `Admission.ReleaseGivesBack` | phone/main.py:450-456 | A connection in flight that is released gives its place back, under its own key and no other |
| `Admission.ReleaseUndoes` | phone/main.py:440-456 | Admitted and released, a connection leaves the counters as they were |
| `Admission.RefreshHolds` | phone/main.py:77-118 | The last refresh names the addresses in force |
| `Admission.SumCountsConnections` | phone/main.py:440-456 | The per-peer table sums to the connections it counts |
| `Admission.Listener.Accept` | phone/main.py:414-441 | Let in exactly with room, fewer than 8 under its key, and fewer than 64 in all for a configured address, 48 for any other; then counted under its key |
| `Admission.Listener.Done` | phone/main.py:450-456 | The release takes back exactly what the accept counted, under the same key |
| `Admission.Listener.DropOne` | phone/main.py:452-456 | A peer with none left leaves the table |
| `GhFlags.LookupMeansHelp` | scripts/gen-gh-flags.py:172-184 | For every command and flag the generated lookup answers what the help pages say: the command's own word, else its group's when the group agrees with itself, else the global flags; None for the rest |
| `GhFlags.ListedFlagsKeepTheirKind` | scripts/gen-gh-flags.py:126-150 | Every flag a row lists reads as it is listed for that row's group and verb, third levels folded in |
| `GhFlags.AmbiguousIff` | scripts/gen-gh-flags.py:148-150 | The generator's clash is found exactly when some command lists a flag both ways |
| `GhFlags.ExceptionMeans` | scripts/gen-gh-flags.py:142-147 | An exception is a command's flag that its own group lists both ways, and every such flag is one |
| `GhFlags.ExceptionsOfCommand` | scripts/gen-gh-flags.py:142-147 | The same for the command a lookup asks for |
| `GhFlags.GroupFlags` | scripts/gen-gh-flags.py:136-141 | A group's tables list exactly what some row of the group lists |
| `GhFlags.CommandGroup` | scripts/gen-gh-flags.py:129-131 | A joined command names one group: joining words loses nothing |
| `GhFlags.Render` | scripts/gen-gh-flags.py:126-150 | The four tables are built as described, or the clash is raised, exactly on ambiguous rows |
| `GhFlags.Grouped` | scripts/gen-gh-flags.py:127-131 | The rows by their first word, in order |
| `GhFlags.FoldGroup` | scripts/gen-gh-flags.py:142-147 | One group's exceptions join the tables by command, nothing else does |
| `GhFlags.Update` | scripts/gen-gh-flags.py:143-147 | A command's flags are added to, never replaced |
| `GhFlags.BothKinds` | scripts/gen-gh-flags.py:148-150 | True exactly when a command stands in both tables with one flag |
| `FileReplace.ReaderFindsWhole` | satellite/config.py:332-402 | For any number of starts with any contents, any failure, death or tampering, at every moment of every run the name is no file, or one whole content: some start's, or the one there before |
| `FileReplace.PlacedForGood` | satellite/config.py:355-368 | A file once at the name is never written again: who has it open reads on what it was |
| `FileReplace.ReturnMeansHeld` | satellite/config.py:376-395 | A start that returned saw, at its own last check, exactly its bytes and mode at the name |
| `FileReplace.LoopEnds` | satellite/config.py:354-402 | Past its sweep a start makes at most three attempts' worth of calls, whatever the others do, and is then done |
| `FileReplace.SweptWasStale` | satellite/config.py:308-319 | A temp unlinked by anyone but its start was found stale, or could not be judged, when that very sweep looked at it: none fresh at the look is swept |
| `FileReplace.RunsAlone` | satellite/config.py:332-402 | A start that runs alone, its calls succeeding, always ends: an unchanged file is left alone and reported so, with two calls; any other name ends as a new file of its bytes and mode, reported written, every inode of before as it was but the temps old enough to be swept |
| `FileReplace.UnchangedIff` | satellite/config.py:345-346 | Whoever else runs and whatever fails: a start returns unchanged exactly when its first read found the opened file still at the name with its own bytes and mode |
| `FileReplace.UnchangedLeavesAlone` | satellite/config.py:345-346 | And then no call of it changed the name or any inode |
| `FileReplace.TempsAreInFlight` | satellite/config.py:362-395 | Over every run a temp is one its start is writing: a start that returned or raised, however it raised, has left none; only a death does |
| `FileReplace.CallProgresses` | satellite/config.py:332-402 | Whatever the others do, each call of a start, done or failed, from its first to its last, brings it nearer to its end |
| `FileReplace.RenameLandsIff` | satellite/config.py:367-375 | A full temp is renamed exactly while it has its name and the target is no directory; else the start raises and the name stays |
| `FileReplace.RemovedForGood` | satellite/config.py:308-319 | A temp that was unlinked never comes to the name, whatever its start goes on to do |
| `FileReplace.DirectoryStays` | satellite/config.py:355-356 | A directory at the name goes only when a start that saw it clears it |
| `FileReplace.TriesThreeTimes` | satellite/config.py:354-402 | A start that lost its place tries again, three times in all |
| `FileReplace.SweepGoesOn` | satellite/config.py:296-319 | A sweep takes an entry it cannot judge for stale and goes on past one it cannot unlink |
| `FileReplace.NameIsKeptIff` | satellite/config.py:397-401 | A name that holds a file holds one ever after, over all interleavings without failures, exactly when at most two starts write and both write the same |
| `FileReplace.RivalsLose` | satellite/config.py:397-401 | Two starts that differ: the first to rename unlinks the other's whole file before its retry |
| `FileReplace.ThreeLose` | satellite/config.py:280-290 | Three starts alike: a rename between another's open and its link count makes it unlink the third's file |
| `FileReplace.MoveKeepsOwn` | satellite/config.py:354-395 | A start's temp holds what it has written so far, and all of it at the rename |
| `FileReplace.MovePlaces` | satellite/config.py:367-370 | What a rename puts at the name is the renaming start's whole content |
| `FileReplace.Folder.WriteIfChanged` | satellite/config.py:332-402 | The code of one start with others between its calls is a run of the modelled steps and ends. It returns unchanged exactly when its first read saw its own bytes, and then changed nothing; alone and unfailed it leaves a name that holds its job alone and writes any other; having returned it saw its bytes at the name during its own call |
| `FileReplace.Folder.HoldsJob` | satellite/config.py:273-293 | Open, link count, mode and bytes, for the check before and the one after |
| `FileReplace.Folder.SweepStaleTemps` | satellite/config.py:308-319 | Every entry there was at the scan is judged once, then the writing begins |
| `FileReplace.Folder.Attempt` | satellite/config.py:354-401 | One attempt ends returned, raised or at the next one |
| `FileReplace.Folder.PutInPlace` | satellite/config.py:355-375 | A directory cleared, a temp filled and renamed, or the start raises |
| `FileReplace.Folder.WriteAll` | satellite/config.py:363-365 | Short writes go on until every byte is in the temp |
| `FileReplace.Folder.JudgeCall` | satellite/config.py:296-305 | Stale exactly at the limit's age, or when the entry cannot be judged |
| `FileReplace.Folder.ReplaceCall` | satellite/config.py:367-375 | The name becomes the temp's inode, or the temp is unlinked |
| `FileReplace.Folder.ReadCall` | satellite/config.py:284-290 | Held exactly when the call succeeds and the opened file is still the name, with the bytes and the mode; the first read then ends the start unchanged |
| `Chunking.SplitConserves` | audio/streaming/text_chunks.py:27-67 | For every text and limit of at least 1, each chunk is not empty, has no outer whitespace, is within the limit and holds no sentence end or newline inside; together they have the text's characters but its whitespace, in order |
| `Chunking.NoEndInside` | audio/streaming/text_chunks.py:24-54 | No chunk has a newline inside, nor a terminator followed by whitespace |
| `Chunking.JoinRebuildsIff` | audio/streaming/text_chunks.py:32-33 | For every text: the chunks joined with spaces give it back exactly when it has no margin and no newline, one space after each sentence end, and one space wherever a sentence over the limit is cut; so only if every run without a space fits the limit |
| `Chunking.SingleSpacedRebuildsIff` | audio/streaming/text_chunks.py:32-33 | For a text whose words stand one space apart that is exactly when every word fits the limit |
| `Chunking.SentencesNeedLone` | audio/streaming/text_chunks.py:42-67 | A paragraph rebuilt from its pieces has one space after each sentence end and at each soft cut |
| `Chunking.SentencesAreChunks` | audio/streaming/text_chunks.py:42-54 | Each paragraph is cut at every sentence end and nowhere else inside a sentence |
| `Chunking.SoftAreChunks` | audio/streaming/text_chunks.py:56-67 | Soft cuts leave pieces within the limit, tight and of one sentence |
| `Chunking.SentencesKeepInk` | audio/streaming/text_chunks.py:42-54 | Cutting at sentence ends loses only whitespace |
| `Chunking.SoftKeepsInk` | audio/streaming/text_chunks.py:56-67 | Soft cuts lose only whitespace |
| `Chunking.JoinedWordsFit` | audio/streaming/text_chunks.py:27-33 | Whatever joins short pieces with spaces has no long run |
| `Chunking.FirstEnd` | audio/streaming/text_chunks.py:24 | The first place where a terminator is followed by whitespace or the end |
| `Chunking.FindEnd` | audio/streaming/text_chunks.py:24 | The possessive scan finds exactly that place, and the whitespace after it |
| `Chunking.AppendSentences` | audio/streaming/text_chunks.py:46-54 | The loop over the matches gives the sentences of the paragraph |
| `Chunking.SoftSplit` | audio/streaming/text_chunks.py:56-67 | The loop over the over-long chunks ends and gives the soft cuts |
| `Chunking.SplitSentences` | audio/streaming/text_chunks.py:27-67 | The function as a whole ends with those chunks, conserved and bounded |
| `ToolArgs.PathMeaning` | mcps/_shared/tool_args.py:59-84 | What stands at any path afterwards is what stood there, normalized by the schema that governs the path through properties and items, never past an enum |
| `ToolArgs.StringMeaning` | mcps/_shared/tool_args.py:48-84 | A string, wherever it stands, becomes a member exactly when the governing enum lists only strings, not it, and exactly one it folds onto: that one |
| `ToolArgs.LeafMeaning` | mcps/_shared/tool_args.py:48-56 | The same of one string at one enum |
| `ToolArgs.FoldsTogetherIff` | mcps/_shared/tool_args.py:44-45 | Two strings fold together exactly when, trimmed and in lower case, they have the same characters in the same places, a dash, a blank and an underscore being one |
| `ToolArgs.WrittenAlike` | mcps/_shared/tool_args.py:48-56 | A string its enum lacks becomes the one member written alike, and stays when none or several are |
| `ToolArgs.MatchesAre` | mcps/_shared/tool_args.py:54-56 | One match exactly when one member alone folds to the same |
| `ToolArgs.UnchangedIff` | mcps/_shared/tool_args.py:59-84 | A value comes back as it was exactly when no string the walk reaches misses its enum by its writing; so one that satisfies every enum does |
| `ToolArgs.NormalizedTwice` | mcps/_shared/tool_args.py:59-84 | Keys, lengths and order stay, only strings change, and a second pass changes nothing |
| `ToolArgs.ShapeIsKept` | mcps/_shared/tool_args.py:59-84 | The result has the value's shape |
| `ToolArgs.ResultIsSettled` | mcps/_shared/tool_args.py:59-84 | Nothing in the result can still be read as another member |
| `ToolArgs.Normalize` | mcps/_shared/tool_args.py:59-84 | The copy-on-write walk gives that value, and a new object exactly when it differs |
| `ToolArgs.NormalizeFields` | mcps/_shared/tool_args.py:67-76 | The loop over the schema's properties normalizes exactly the fields it names |
| `ToolArgs.NormalizeItems` | mcps/_shared/tool_args.py:77-83 | Every item is normalized by the one schema |
| `ToolArgs.ToolArgs.Listed` | mcps/_shared/tool_args.py:117-122 | The record is what was listed last, nothing of what was listed before |
| `ToolArgs.ToolArgs.Check` | mcps/_shared/tool_args.py:124-137 | Arguments that are no object are read as none; those of a listed tool are normalized and refused exactly when the validator finds an error in them |
| `ToolArgs.CallIsFolded` | mcps/_shared/tool_args.py:124-137 | A call of a listed tool goes on with each near miss folded, wherever it stands in its arguments, into the one member written alike |
| `ToolArgs.LastListedIs` | mcps/_shared/tool_args.py:117-122 | Of several tools listed under one name the last one's schema is in force |
| `ToolArgs.FoldedCallStands` | mcps/_shared/tool_args.py:124-137 | Folded arguments sent again go through unchanged |
| `Sidecar.IndexOkIff` | mcps/_shared/stream_sidecar.py:116-165 | At every moment of a run each id leads to a live session that carries it, exactly when no touch gives a session another id while its old one still leads to it |
| `Sidecar.IndexIsNewest` | mcps/_shared/stream_sidecar.py:116-165 | While sessions keep their ids, an id leads to the session last touched with it, unless that one has been forgotten since |
| `Sidecar.OpenIff` | mcps/_shared/stream_sidecar.py:116-140 | A session is known exactly while touched and not forgotten since: a refresh opens none |
| `Sidecar.ForgetLookup` | mcps/_shared/stream_sidecar.py:156-165 | It removes exactly the mapping that leads to it |
| `Sidecar.GcTakesActiveIff` | mcps/_shared/stream_sidecar.py:216-224 | A pass drops only sessions idle past the limit when it listed them; the one it drops is still idle by the pass's clock exactly when nothing touched it since |
| `Sidecar.ListedIff` | mcps/_shared/stream_sidecar.py:143-146 | A pass lists exactly the sessions unused for more than ten minutes |
| `Sidecar.PassDropsIdle` | mcps/_shared/stream_sidecar.py:216-224 | Whatever else runs, by the end of its pass every one of them is gone unless the client opened it anew |
| `Sidecar.PassSparesFresh` | mcps/_shared/stream_sidecar.py:216-224 | And a session used within those ten minutes outlives the pass |
| `Sidecar.PassEnds` | mcps/_shared/stream_sidecar.py:216-224 | Each turn brings a pass nearer to its end, and nothing else moves it |
| `Sidecar.CloseForgets` | mcps/_shared/stream_sidecar.py:237-253 | A close by id, its upstream awaited amid anything else, ends with the session the id led to gone |
| `Sidecar.UsedMeanwhileIsDropped` | mcps/_shared/stream_sidecar.py:223-224 | At whatever times: a session the client uses while the pass awaits its upstream is no longer idle, and is dropped all the same |
| `Sidecar.ActivitySince` | mcps/_shared/stream_sidecar.py:143-146 | What became of a listed session's last activity, whatever ran meanwhile |
| `Sidecar.Sessions.TouchSession` | mcps/_shared/stream_sidecar.py:116-129 | Both maps change as the modelled step |
| `Sidecar.Sessions.RefreshSession` | mcps/_shared/stream_sidecar.py:132-140 | Only a known session is refreshed |
| `Sidecar.Sessions.Forget` | mcps/_shared/stream_sidecar.py:156-165 | The session goes, and the mapping when it is its own |
| `Sidecar.Sessions.StaleSids` | mcps/_shared/stream_sidecar.py:143-146 | Exactly the sessions idle past the limit, each once |
| `Sidecar.Sessions.GcPass` | mcps/_shared/stream_sidecar.py:216-224 | The pass with other tasks at its awaits is a run of the modelled steps and ends with its list done |
| `Sidecar.Sessions.BeginClose` | mcps/_shared/stream_sidecar.py:244-249 | A close by id finds the session last touched with it, while sessions keep their ids |
| `Sidecar.Sessions.EndClose` | mcps/_shared/stream_sidecar.py:250-251 | The session found before the await is forgotten after it |
| `RateLimiter.AdmissionsAreSpaced` | phone/calls/http_api.py:30-49 | On a clock that never goes back the admission max places later comes at least one window later |
| `RateLimiter.RefusedOnlyWhenFull` | phone/calls/http_api.py:42-49 | A call is refused exactly when the max admissions before it all lie in the trailing window |
| `RateLimiter.RateLimiter.Allow` | phone/calls/http_api.py:42-49 | What is admitted is what the calls alone decide; the trimmed list forgets nothing that counts and never exceeds max |
| `RateLimiter.RateLimiter.Trimmed` | phone/calls/http_api.py:43-45 | Exactly the hits inside the window stay, and they are the last ones |

## Left out

- BootGuard: the Windows branch, which hands the swap to `runner.ps1`; `runner.ps1` is not part of this model.
- BootGuard: a success stamp torn at its first line, and counts in digits other than ASCII (which `isdigit` lets through and `int` may refuse); text encoding errors of the marker.
- BootGuard: the pass after authentication is a step that stamps the version and may or may not remove the marker and the rollback copy.
- PinStore: the parsing of logged stamps; a call comes with its start and end on the wall clock already. The two clock readings of the seed may differ, the wall clock's reading is one.
- PinStore: of the gate itself the attempt loop alone, with each attempt's result given; a replayed failure stands at its call's end or start, as the log has no time of its own for it, and the live windows it is compared with stand there too. A log row's end is never the epoch.
- PinStore, CallControl: phone numbers keep ASCII digits only, where the source's pattern keeps every Unicode digit.
- Exchange: the path patterns of the route table are the route kinds they select; the credential check is one verdict of valid, invalid or absent; headers, cookies and refusal texts. A timer runs out no later than its time on the model's clock; how late the event loop wakes the reader is not part of the bound.
- TwilioCalls: the AMI path, the replay window on CallSids, the age at which terminal calls are collected, warm-up sessions and transfers' action callbacks; ids are numbers, and a step reads the clock once.
- DuplexQueue: the queues of single turns and the JSON routing of incoming frames; `read_frame` is a step of the microphone machine and not a method of the class.
- CallControl: the words spoken and answered, the wake-up of the token loop, and when a pending action is executed; a clear that keeps no transfer is taken to come only after its caller saw none pending, as its callers do. Case folding is a parameter.
- Admission: the resolution of PBX host names; a refresh sets any set of addresses. Addresses are values of their family.
- GhFlags: reading gh's help by pattern, the layout of the emitted source (a command whose set is empty has no entry there, as the lookup cannot tell), and the order of keys.
- FileReplace: the Windows branch; a temp is created and given its mode in one step; hard links made by others; another process writing into a temp or a placed file; a failed unlink of a temp after a failed write, which leaves the temp for a later sweep. The link count read before the name is looked at again is one for as long as the name is the temp's inode.
- Chunking: the pattern itself is the scan it performs; the default limit; limits below 1, with which the soft split would not move on.
- ToolArgs: the validator and its messages; lower-casing is a parameter; object identity is the walk's own flag of having changed something, and that nothing is mutated is the form of the model.
- Sidecar: the upstream itself, the screenshots and the count of open sessions; the idle limit is its default.
- RateLimiter: other limiters; the clock is taken not to go back, as `time.monotonic` promises.
- The route index of the phone configuration, settings and validators, call successor chains and event waits: easy members.
- Signal processing, providers, sockets and plumbing of the servers, signatures and tokens, dashboards and build files.
