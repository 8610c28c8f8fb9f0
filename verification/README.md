# Teensy command server: a verified model of the session engine

The library lets one microcontroller board serve one controller over TCP: it accepts a connection,
sends its schema first, then answers line-delimited JSON commands, acknowledges e-stops and
heartbeats, and pushes telemetry, all from a cooperative `service()` call that never blocks for
longer than a transmit deadline. This project models that engine in Dafny 4.11 and proves what it
keeps over every run, whatever the network, the clock, the parser's input, the command handlers and
the hooks answer. The command for the whole project is `dafny verify dfyconfig.toml`.

## How the model is laid out

Every component is given twice. First as functions on values, in the component's own terms, with
the properties proved about them; then, where the source changes state in place, as a class over
arrays and fields whose methods are proved equal to those functions.

| file | what it holds |
|---|---|
| `Common`, `Counters`, `Platform` | shared vocabulary and limits; the counter block; clock, network stack and transports with arbitrary, logged answers |
| `InboundParser` | the UTF-8 scanner |
| `LineFramer` | the inbound framer in two buffers, against a pure newline splitter |
| `Json`, `BoundedJsonWriter`, `JsonBuffer`, `JsonScripts` | JSON text, printer and parser; the bounded writer as a value, as a class over its buffer, and over whole scripts of calls |
| `CommandRegistry`, `SchemaBuilder`, `SchemaWriting` | registration, the schema document, the size check, the seal |
| `NetworkServer` | the slot and generation table of the network adapter |
| `OutboundScheduler`, `OutboundWriter`, `EventLines`, `EstopHandler` | the outbound queue, the write loop, the board's own lines, the e-stop event |
| `LineBuilder`, `TelemetryScheduler`, `TelemetryParsing` | the line buffer, the telemetry cadence, and what a controller reads from a frame |
| `ObjectWriter`, `ArgumentValidation`, `Application`, `CommandDispatcher`, `ResponseParsing`, `CommandRouting` | the handler's payload, argument checks, handlers, hooks, provider and parser with arbitrary, logged answers, response lines, what a controller reads back, and that every command of every run is answered |
| `Sessions`, `SessionDriver` | the session lifecycle as a value and as the driver object |
| `Serving`, `ServiceInvariant`, `ServiceStages`, `ServiceRuns`, `ServiceTallies`, `ServiceAccounts`, `ServiceProgress`, `ServiceLoop` | one `service()` call as a step, what it keeps, stage by stage, over whole runs, what the counters tell, what a call brings about, and the loop object |

Three devices recur. What the environment answers during a call is a value (`Answers`), so a step
is a function and a run is a fold. The imperative methods call network, clock, transports, parser,
handlers, hooks and provider; each of these answers as it likes and notes its answer in a log of its
own. The methods return what they got as ghost results, and their contracts say that the logs grew by
exactly these answers and that every time among them is a clock reading of the call. Each
connection carries a record of the lines written to it, all that was seen of its transport, the bytes
framed and the lines delivered from it, and a book of what was queued and drained while it was bound;
nothing in the engine reads them. A ledger over the boot keeps the logs, the e-stop requests and
confirmed events, the safe hook returns and the fate of telemetry frames.

## Where code and documentation part

The model follows the code.

- `src/support/Limits.h:32-34` says the payload limit leaves room so that the envelope always fits.
  It does for ordinary board ids; `OkAlwaysFitsIff` gives the exact condition and
  `ControlIdCanOverflow` an id and a time for which it does not.
- `setIdentity` overwrites field by field (`src/core/CommandRegistry.h:81-100`): after a failing
  call an earlier success still seals the registry, with a blank field. `BlankBootSeals` is such a
  board, and `IdentityIsCompleteIffLastCallSucceeded` says exactly when an identity is complete.
- The bounded writer accepts an object opened directly inside another
  (`src/support/BoundedJsonWriter.h:34-47`); `OutputParsesIff` says that this and an early newline are
  the only ways its closed output is not JSON.
- The read loop ignores how much of a chunk the framer took (`src/core/SessionDriver.h:327`);
  `ReadLoopLosesNothingIff` says exactly when nothing is lost, and
  `ThreeLinesInOneReadLoseTheThird` gives a read that loses a line.

## Model

| member | source | states |
|---|---|---|
| ServiceRuns.ServiceBoundary | src/core/ServiceLoop.h:86-126 | for every registration history, network, clock and handlers, between any two calls: no teardown pending, no replacement held, no line acquired, the session active exactly when its handle resolves, nothing queued without a session, and no forbidden state change ever asked for |
| ServiceRuns.SessionIsolation | src/core/ServiceLoop.h:282-313 | over every run, each peer, past or present, was sent the schema first and then only lines drained for its own connection, in order, each queued for that connection, per priority class in queue order; only telemetry may be cut short and followed; delivered lines are lines of the bytes framed, and these are, read by read, prefixes of what the peer's own transport gave |
| ServiceRuns.SessionConservation | src/core/SessionDriver.h:110-135 | accepted sessions are the disconnects plus the active one; loss-hook runs equal disconnects; occupied slots equal active sessions |
| ServiceRuns.StaleHandlesFailClosed | src/platform/qnethernet/QNEthernetNetworkServer.cpp:86-107 | over every run of the server the handle of an ended connection never resolves again, differs from the active one, and no two ended connections had the same |
| ServiceRuns.EstopLossless | src/core/EstopHandler.h:86-119 | the e-stop events wholly sent are the accepted requests in order, each read back by a JSON parser as an event with its own reason and time; at most the last is outstanding, at most one copy is queued, and handler and scheduler agree |
| ServiceRuns.LedgerIsWhatWasSent | src/core/ServiceLoop.h:282-313 | over every run the confirmed events are the e-stop lines written whole, and the frames handed over the telemetry lines drained, on the ended connections and then the bound one, in order; the counters of acknowledgements and frames sent count exactly the lines of their kind written whole |
| ServiceRuns.HandlesWhileRunning | src/core/ServiceLoop.h:86-126 | a line is handled only in a live session, with no more lines waiting than e-stop events were offered |
| ServiceRuns.BootsExist | src/TeensyCommandServer.h:122-140 | there are boards that seal and can be run, one with a complete identity and one with a blank board id |
| ServiceRuns.QueueBound | src/core/ServiceLoop.h:99-126 | at every boundary the critical queue holds at most one line more than the e-stop events offered in the session; a session that refused a line for want of room had offered at least four |
| ServiceRuns.HonestAcknowledgement | src/core/EstopHandler.h:49-84 | at any time the acknowledgements sent and waiting in a session are at most the hook calls that reported safe in it; the same over the boot |
| ServiceRuns.TelemetryAccounted | src/core/TelemetryScheduler.h:59-81 | numbers handed to sessions strictly increase over the boot, each read back from its line together with the members that a provider added; every number allocated was sent, coalesced, failed, canceled or waits |
| ServiceRuns.TelemetryCadence | src/core/TelemetryScheduler.h:31-52 | over every run of calls in true time, on every connection, any window of W milliseconds holds at most W / 50 + 1 attempts to build a frame, across a wrap of the clock |
| ServiceRuns.RunCadence | src/core/TelemetryScheduler.h:31-52 | the same of the server object: from its state alone, as every `Service` call leaves it |
| ServiceRuns.NothingIsForgotten | src/core/ServiceLoop.h:86-126 | what is known of ended connections, requests, events sent, frames handed over, attempts, and of what network and application answered is only ever added to |
| ServiceRuns.StepKeepsBoundary | src/core/ServiceLoop.h:86-126 | one `service()` call from a boundary state ends in one, whatever is answered during it |
| ServiceRuns.RunKeepsBoundary | src/TeensyCommandServer.h:122-168 | the invariant holds after any sequence of calls and application requests from the start |
| ServiceRuns.DrainStageRuns | src/core/ServiceLoop.h:282-302 | a drain either leaves the same live session or ends it with everything canceled and routed |
| ServiceRuns.MessageStageRuns | src/core/ServiceLoop.h:113-125 | handling a line, giving it back and draining once keeps the boundary invariant |
| ServiceRuns.SafetyStageRuns | src/core/ServiceLoop.h:232-243 | offering the pending event keeps the invariant or ends the session |
| ServiceTallies.CountersTellTheTruth | src/core/CommandDispatcher.h:45-97 | over every run the counters of commands, unknown names, invalid arguments, other targets, stops, heartbeats and failed stops are the tally of the log of what parser, handlers and e-stop hook answered; no more acknowledgements were sent or wait than the hook reported safe states |
| ServiceAccounts.TransmissionsAccounted | src/core/OutboundWriter.h:134-184 | over every run and all connections: the transmit failures are the critical lines cut short, the schemas sent those that went out whole, the supersessions those that ended a connection, and the telemetry frames dropped are the frames cut short and the attempts that numbered no frame |
| ServiceAccounts.PromoteBalances | src/core/SessionDriver.h:239-268 | a promotion, with every teardown and promotion that follows from it, counts exactly the schema that went out whole and the lines cut short |
| ServiceAccounts.FramedBalances | src/core/TelemetryScheduler.h:31-81 | an attempt either numbers a frame or is counted as dropped |
| ServiceTallies.RouteTells | src/core/ServiceLoop.h:159-217 | each route counts what its message is and what its handler or hook answered, and nothing else |
| ServiceProgress.NewcomerTakesOver | src/core/SessionDriver.h:227-237 | over every run, a newcomer found while a session is active takes over in that call: the old connection ends as superseded with nothing more sent to it, and the newcomer is served exactly if its schema goes out whole, else it has ended too |
| ServiceProgress.LostLinksEnd | src/core/SessionDriver.h:286-300 | over every run a session is live only while nothing seen of its link said it was lost, and one that ended for a lost connection or link was seen to lose it |
| ServiceProgress.EveryStopIsAnswered | src/core/EstopHandler.h:49-84 | over every run a controller's stop is acknowledged, with the time of the acknowledgement, exactly if the hook reported a safe state; only a queue that took four e-stop events to fill refuses it |
| ServiceProgress.EveryHeartbeatIsAnswered | src/core/HeartbeatHandler.h:17-30 | over every run a heartbeat is answered with its own number, under the same one exception |
| ServiceProgress.FrameIsAttemptedIff | src/core/TelemetryScheduler.h:31-47 | in a live session a call attempts a frame exactly if none was attempted on the connection yet or the clock says that 50 ms have passed since the last |
| ServiceRuns.StepAttempts | src/core/TelemetryScheduler.h:31-52 | a call attempts at most one frame, at the time its clock reading was taken |
| ServiceRuns.StepRemembers | src/core/ServiceLoop.h:86-126 | one call only adds to the logs |
| ServiceStages.PollRuns | src/core/SessionDriver.h:54-82 | polling keeps the loop invariant and never orphans queued lines |
| ServiceStages.LineRuns | src/core/SessionDriver.h:141-160 | a line is handed out exactly when the framer is left holding it, and only in a live session |
| ServiceStages.TelemetryRuns | src/core/ServiceLoop.h:219-230 | the telemetry check keeps the invariant; a frame queued is numbered and accounted for |
| ServiceStages.AttemptedRuns | src/core/TelemetryScheduler.h:31-47 | an attempt keeps the cadence in step with the connection, so attempts stay a period apart |
| ServiceStages.SafetyOffered | src/core/EstopHandler.h:86-106 | an event that waits is queued unless four lines already wait, and only then must the session end |
| ServiceStages.SafetyRuns | src/core/ServiceLoop.h:232-243 | the event stays within the queue bound and the agreement |
| ServiceStages.DrainRuns | src/core/ServiceLoop.h:282-302 | a drain followed by the routing of its outcome restores every agreement the drain broke and leaves room for one more line |
| ServiceStages.DrainedIsLossless | src/core/EstopHandler.h:108-119 | only a wholly sent event is forgotten; any other outcome returns it to waiting |
| ServiceStages.DrainedFrames | src/core/ServiceLoop.h:266-279 | a drained frame is counted as sent or as failed, never both |
| ServiceStages.OfferRuns | src/core/OutboundScheduler.h:73-92 | a response or acknowledgement fits behind the events; refusal for want of room happens only past the fourth event |
| ServiceStages.AckRuns | src/core/EstopHandler.h:49-84 | an acknowledgement is offered only after a safe hook return that no other acknowledgement uses |
| ServiceStages.HandleRuns | src/core/ServiceLoop.h:159-217 | every route keeps the invariant and the session it was called in |
| ServiceStages.CancellationsRouted | src/core/ServiceLoop.h:304-313 | routing the cancellations moves the e-stop event back and counts the frame, and changes nothing else |
| ServiceStages.EndRuns | src/core/ServiceLoop.h:304-313 | from any running state with a teardown pending, the end of the session reaches the boundary |
| Sessions.WriteKeepsConnected | src/core/SessionDriver.h:84-89 | whatever the transport takes, the peer has exactly the written parts of the record, schema first, and the other slot is untouched |
| Sessions.WriteKeepsConserved | src/core/OutboundWriter.h:72-90 | a transmission changes nothing of the lifecycle but the state, and that only by asking for teardown |
| Sessions.PromoteSettles | src/core/SessionDriver.h:239-268 | promotion ends with an active session whose schema was wholly sent, or with the connection ended; it terminates |
| Sessions.PromotionBindsIff | src/core/SessionDriver.h:239-268 | a promoted peer is served exactly if its schema goes out whole; otherwise its connection ended for want of it |
| Sessions.ApplySettles | src/core/SessionDriver.h:110-135 | teardown ends the bound connection, frees exactly its slot, and promotes a held replacement |
| Sessions.UnboundIsConserved | src/core/SessionDriver.h:115-130 | the end of a connection keeps slots, counters and hook runs in balance |
| Sessions.AcceptReplacementIsSound | src/core/SessionDriver.h:227-237 | a superseding connection takes the other slot and is sent nothing while it is held |
| Sessions.PumpListeningSettles | src/core/SessionDriver.h:211-225 | an accepted connection is promoted or rejected, never left half bound |
| Sessions.PollIsSound | src/core/SessionDriver.h:54-82 | a poll keeps the lifecycle sound and leaves the book of the connection alone |
| Sessions.ReadLoopIsSound | src/core/SessionDriver.h:302-329 | the read loop only frames bytes of the bound connection or asks for teardown |
| Sessions.NextLineIsSound | src/core/SessionDriver.h:141-154 | the next line is acquired from the bound connection and recorded as delivered |
| Sessions.PollKeepsHistory | src/core/SessionDriver.h:54-82 | the lifecycle never touches the outcome counters nor the records of ended connections |
| SessionDriving.SessionDriver.constructor | src/core/SessionDriver.h:18-40 | a new driver is at rest |
| SessionDriving.SessionDriver.TransitionTo | src/core/SessionDriver.h:185-192 | takes an allowed edge and otherwise keeps the state |
| SessionDriving.SessionDriver.Begin | src/core/SessionDriver.h:46-52 | the network starts once |
| SessionDriving.SessionDriver.RequestTeardown | src/core/SessionDriver.h:91-100 | the first reason wins; a connected session starts closing |
| SessionDriving.SessionDriver.ReplacePendingTeardownReason | src/core/SessionDriver.h:278-284 | the pending reason is overwritten |
| SessionDriving.SessionDriver.WriteLine | src/core/SessionDriver.h:239-268 | a line and the teardown it asks for, as the lifecycle function of the accepted length; given up only after 100 ms of true time |
| SessionDriving.SessionDriver.SendActiveLine | src/core/SessionDriver.h:84-89 | nothing is sent unless the session is active with no teardown pending |
| SessionDriving.SessionDriver.BuildSchema | src/core/SessionDriver.h:250-259 | the schema line at the clock reading, measured to its terminator |
| SessionDriving.SessionDriver.PromoteAcceptedConnection | src/core/SessionDriver.h:239-268 | is the promotion function for what the clock and transport answered; the recursion with teardown terminates |
| SessionDriving.SessionDriver.ApplyPendingTeardown | src/core/SessionDriver.h:110-135 | is the teardown function for what the promotions answered |
| SessionDriving.SessionDriver.Unbind | src/core/SessionDriver.h:115-130 | the loss hook runs exactly once for a bound connection, then framer, writer, slot and counter, in the order of the source |
| SessionDriving.SessionDriver.Poll | src/core/SessionDriver.h:54-82 | is the poll function for what the network stack said and what was seen on the bound transport, read to its end |
| SessionDriving.SessionDriver.PumpNetworkStarting | src/core/SessionDriver.h:194-209 | bring-up with a retry period measured modulo 2^64 |
| SessionDriving.SessionDriver.PumpListening | src/core/SessionDriver.h:211-225 | accept, reject or promote |
| SessionDriving.SessionDriver.AcceptReplacement | src/core/SessionDriver.h:227-237 | supersession |
| SessionDriving.SessionDriver.DetectActiveLoss | src/core/SessionDriver.h:286-300 | a dead handle asks for teardown, and so does what the bound transport was just seen to say, closed or down |
| SessionDriving.SessionDriver.ReadAvailable | src/core/SessionDriver.h:302-329 | is the read function for the chunks and links met, all of them seen on the bound transport and on no other, until a line is ready or there is no more |
| SessionDriving.SessionDriver.ReadFrom | src/core/SessionDriver.h:308-328 | the read loop ends, and equals reading the events it met one by one |
| SessionDriving.SessionDriver.NextLine | src/core/SessionDriver.h:141-154 | reads only when no line is ready, and then to the end; hands out the acquired one |
| SessionDriving.SessionDriver.ReleaseLine | src/core/SessionDriver.h:156-160 | gives the line back |
| ServiceLooping.ServiceLoop.Service | src/core/ServiceLoop.h:86-126 | the new state is the step function of the old state and of what network, clock, parser, handlers, hooks and provider answered while it ran, each answer an entry of the log of the object that gave it and each reading of the clock taken during the call; a server that is a run from the start stays one |
| ServiceLooping.ServiceLoop.RunTelemetryDueCheck | src/core/ServiceLoop.h:219-230 | services the telemetry scheduler in a live session at a clock reading of the call, else marks it inactive |
| ServiceLooping.ServiceLoop.RunSafetyDueCheck | src/core/ServiceLoop.h:232-243 | offers the pending event; asks for teardown exactly when it cannot |
| ServiceLooping.ServiceLoop.RouteOutcome | src/core/ServiceLoop.h:266-279 | counts a sent outcome and resolves the event |
| ServiceLooping.ServiceLoop.DrainRouteAndMaybeTeardown | src/core/ServiceLoop.h:282-302 | one line out, routed; ends the session exactly when asked or when a critical send failed |
| ServiceLooping.ServiceLoop.CancelRouteAndApply | src/core/ServiceLoop.h:304-313 | everything queued is canceled and routed, then the session ends |
| ServiceLooping.ServiceLoop.ProcessLine | src/core/ServiceLoop.h:136-157 | the line is parsed once and goes through the route of what the parser said it is; log and effect name that line and that reading of it |
| ServiceLooping.ServiceLoop.RouteEstop | src/core/ServiceLoop.h:189-201 | the hook runs once: the log gains exactly its answer, and a safe return is counted and acknowledged exactly if that answer was safe |
| ServiceLooping.ServiceLoop.ServeMessage | src/core/ServiceLoop.h:113-125 | handle, give back, then end or drain |
| ServiceLooping.ServiceLoop.DrainOne | src/core/OutboundScheduler.h:130-154 | the best and oldest line goes to the session and leaves the queue whatever became of it |
| ServiceLooping.ServiceLoop.AcknowledgeSafe | src/core/EstopHandler.h:73-83 | a safe hook return offers one acknowledgement or asks for teardown |
| ServiceLooping.ServiceLoop.RouteHeartbeat | src/core/HeartbeatHandler.h:17-30 | a heartbeat offers one acknowledgement or asks for teardown |
| ServiceLooping.ServiceLoop.RouteCommand | src/TeensyCommandServer.h:205-219 | a dispatcher made for the command answers it, and its effect is the loop's command route: the response to what its handler answered queued and counted, the handler's e-stop requests applied, or the session must end |
| ServiceLooping.DispatchOnce | src/TeensyCommandServer.h:205-219 | one dispatcher, one command: the log gains the handler's run exactly if the command reaches one, what is counted and queued is the response to that command in that course, and a success tells the time between two readings of the microsecond clock |
| ServiceLooping.StartServer | src/TeensyCommandServer.h:122-161 | validate, size-check, seal, build, begin: succeeds exactly when the registry does, and a started server is the start of a run |
| ServiceLooping.ServiceLoop.RequestEstopTriggered | src/TeensyCommandServer.h:118-120 | an application's request is accepted or refused at a clock reading of the call, and the server goes on as a run |
| Scheduling.SchedulerConserves | src/core/OutboundScheduler.h:73-175 | over every run each priority class is a queue with bytes intact; the outcomes of critical entries are, in order and kind for kind, those of the entries that left; a frame is coalesced, has one outcome, or is pending |
| Scheduling.DrainTakesTheBest | src/core/OutboundScheduler.h:130-154 | a drain takes the oldest entry of the best class, telemetry only when nothing critical waits |
| Scheduling.SafetyGoesFirst | src/core/OutboundScheduler.h:202-232 | an e-stop line overtakes every other; a heartbeat acknowledgement goes only when nothing else critical waits |
| Scheduling.SelectionIsFifo | src/core/OutboundScheduler.h:220-232 | the selected entry is the head of its class and disturbs no other class |
| Scheduling.OutboundScheduler.EnqueueCritical | src/core/OutboundScheduler.h:73-92 | appends, refuses an invalid line, or reports saturation; the new queue outright |
| Scheduling.OutboundScheduler.MarkEstopTriggeredPending | src/core/OutboundScheduler.h:94-98 | remembers an event that is not queued |
| Scheduling.OutboundScheduler.ReplaceTelemetryLine | src/core/OutboundScheduler.h:104-115 | overwrites the slot and says whether a frame was lost to it |
| Scheduling.OutboundScheduler.SelectCriticalIndex | src/core/OutboundScheduler.h:220-232 | finds the oldest entry of the best priority |
| Scheduling.OutboundScheduler.RemoveCritical | src/core/OutboundScheduler.h:234-246 | removes one entry, keeps the order of the rest, and forgets a queued event |
| Scheduling.OutboundScheduler.ClearForSessionEnd | src/core/OutboundScheduler.h:156-175 | one cancellation for each entry, telemetry last; a queued event becomes pending again |
| EstopHandling.RequestAgrees | src/core/EstopHandler.h:28-47 | a request keeps handler and scheduler in agreement |
| EstopHandling.ServiceAgrees | src/core/EstopHandler.h:86-106 | the event line always fits, so a service fails only when the queue is full; agreement is kept |
| EstopHandling.DrainAgrees | src/core/EstopHandler.h:108-119 | a drain breaks the agreement and its outcome restores it; only a confirmed send forgets the event, reason and time unchanged |
| EstopHandling.DrainedEventIsPending | src/core/EstopHandler.h:86-119 | a drained event line is the pending event with its own reason and time |
| EstopHandling.EndSessionAgrees | src/core/OutboundScheduler.h:156-175 | the end of a session returns the event to waiting and loses nothing of it |
| EstopHandling.EstopHandler.RequestEstopTriggered | src/core/EstopHandler.h:28-47 | accepts only when none is pending and the reason fits, at the clock reading it took |
| EstopHandling.EstopHandler.Service | src/core/EstopHandler.h:86-106 | queues the waiting event |
| EstopHandling.EstopHandler.OnOutboundOutcome | src/core/EstopHandler.h:108-119 | forgets the event on a confirmed send, else waits again |
| EventLines.TriggeredLineParses | src/core/EstopHandler.h:184-209 | a controller reads from the event line, for every 48-byte id and 160-byte reason, who sent it, when it was requested and the reason itself, escapes undone |
| EventLines.AckLineParses | src/core/EstopHandler.h:156-182 | a controller reads from the acknowledgement who sent it, when, and the state "safe" |
| EventLines.HeartbeatLineParses | src/core/HeartbeatHandler.h:33-54 | a controller reads from the answer to a heartbeat who sent it and the heartbeat's own number |
| EventLines.AckLineFits | src/core/EstopHandler.h:156-182 | the acknowledgement line always fits and is one wire line |
| EventLines.TriggeredLineFits | src/core/EstopHandler.h:184-209 | the event line fits for every 48-byte id and 160-byte reason, escapes included |
| EventLines.HeartbeatLineFits | src/core/HeartbeatHandler.h:33-54 | the heartbeat acknowledgement always fits |
| EventLines.BuildTriggeredLine | src/core/EstopHandler.h:184-209 | builds exactly the event line, or nothing |
| EventLines.BuildAckLine | src/core/EstopHandler.h:156-182 | builds exactly the acknowledgement line, or nothing |
| EventLines.BuildHeartbeatLine | src/core/HeartbeatHandler.h:33-54 | builds exactly the heartbeat acknowledgement, or nothing |
| OutboundWriting.OutboundWriter.SendLine | src/core/OutboundWriter.h:72-90 | the transport gets exactly a prefix; `Sent` exactly when it is the whole line, with one flush; expiry exactly when 100 ms of true time passed |
| OutboundWriting.OutboundWriter.SendValidLine | src/core/OutboundWriter.h:134-159 | the write loop ends whenever the clock cannot stand still for ever |
| OutboundWriting.OutboundWriter.IsDeadlineExpired | src/core/OutboundWriter.h:161-164 | subtraction modulo 2^64 measures true elapsed time across a wrap |
| OutboundWriting.OutboundWriter.HandleDeadline | src/core/OutboundWriter.h:166-184 | a critical expiry asks for teardown; a telemetry expiry counts toward ten |
| OutboundWriting.OutboundWriter.BindTransport | src/core/OutboundWriter.h:96-99 | a new transport starts with no failures |
| OutboundWriting.OutboundWriter.ClearTransport | src/core/OutboundWriter.h:101-105 | nothing is bound and nothing is in progress |
| OutboundWriting.StreakCountsExpiries | src/core/OutboundWriter.h:138-184 | the streak is the number of expiries since the last telemetry success or bind, up to ten |
| OutboundWriting.TelemetryTeardownIff | src/core/OutboundWriter.h:166-184 | after any transmissions a telemetry expiry asks for teardown exactly when it is the tenth to accumulate |
| ServiceRuns.StreakEndsAtTheTenth | src/core/OutboundWriter.h:138-184 | over every run, counted over a connection's own writes: a live one has fewer than ten accumulated telemetry expiries, none ever has more, and one ended for its streak exactly if it had ten |
| TelemetryScheduling.CadenceBound | src/core/TelemetryScheduler.h:31-52 | in one session a window of W ms holds at most W / 50 + 1 attempts, across a wrap of the clock |
| TelemetryScheduling.TelemetryAlwaysFits | src/core/TelemetryScheduler.h:83-121 | every payload a provider can produce fits its frame for every 48-byte id |
| TelemetryScheduling.TelemetryScheduler.Service | src/core/TelemetryScheduler.h:31-47 | one service as the cadence function of a clock reading taken in the call; the queue and counters it leaves; the log gains the provider's run exactly when a frame is due |
| TelemetryParsing.TelemetryLineParses | src/core/TelemetryScheduler.h:83-121 | whatever a provider did to its payload, a controller reads from the frame its number, its time, the board id and exactly the accepted members |
| TelemetryScheduling.TelemetryScheduler.OnSessionInactive | src/core/TelemetryScheduler.h:49-52 | the first frame of the next session is due at once |
| TelemetryScheduling.TelemetryScheduler.BuildAndQueue | src/core/TelemetryScheduler.h:59-81 | runs the provider once on a fresh payload; a number is used exactly when its frame is queued, else the frame is counted as dropped |
| TelemetryScheduling.TelemetryScheduler.BuildLine | src/core/TelemetryScheduler.h:83-101 | builds the frame exactly when the payload is an object and the line fits |
| LineFraming.FramerIsSplitter | src/core/LineFramer.h:28-140 | for any cut of the stream and any interleaving of calls, lines delivered plus lines buffered are the newline split of the bytes taken without payloads over 1023 bytes, and the counter counts exactly those |
| LineFraming.SplitterIsExact | src/core/LineFramer.h:67-107 | the splitter loses nothing: its lines re-terminated, and its tail, are the input |
| LineFraming.AcquiredLineIsStable | src/core/LineFramer.h:32-51 | an acquired payload is the same until its release |
| LineFraming.WholeChunkIsTakenIff | src/core/LineFramer.h:67-107 | an empty framer takes a whole chunk exactly when fewer than two kept lines end before its last byte |
| Sessions.ReadLoopLosesNothingIff | src/core/SessionDriver.h:302-329 | from no line ready, whatever is read: the framer gets a prefix of the bytes read, and all of them exactly when fewer than two kept lines end before the last byte read |
| Sessions.ThreeLinesInOneReadLoseTheThird | src/core/SessionDriver.h:316-328 | on a new connection, of three empty lines read at once the read loop drops the third, whatever is read after |
| LineFraming.LineFramer.Append | src/core/LineFramer.h:67-107 | takes a prefix, as the byte-wise function, and counts oversized lines |
| LineFraming.LineFramer.AcquireLine | src/core/LineFramer.h:32-39 | hands out the ready line once |
| LineFraming.LineFramer.ReleaseLine | src/core/LineFramer.h:41-51 | frees the buffer and promotes the pending line |
| LineFraming.LineFramer.CloseSession | src/core/LineFramer.h:53-65 | forgets everything |
| LineFraming.LineFramer.PromotePendingIfPossible | src/core/LineFramer.h:128-140 | copies the pending line when the consumer buffer is free |
| JsonWriting.OutputParsesIff | src/support/BoundedJsonWriter.h:34-148 | for every capacity and call sequence, once closed the output is a JSON document exactly when no object was opened inside another without a name and no newline came early, and then it parses to the tree of the successful calls |
| JsonWriting.CallsAreTransactions | src/support/BoundedJsonWriter.h:190-208 | a failing call changes nothing but the failure flag; output stays clear of the reserve |
| JsonWriting.UnnamedInnerObjectIsNotRefused | src/support/BoundedJsonWriter.h:34-47 | a concrete misuse that succeeds and leaves text that is not JSON |
| Json.ParsePrint | src/support/BoundedJsonWriter.h:210-293 | a parser written from RFC 8259 inverts the printer on every tree, string escapes included |
| JsonBuffer.BoundedJsonWriter.WriteEscapedString | src/support/BoundedJsonWriter.h:238-293 | appends the whole quoted text or fails within bounds |
| JsonBuffer.BoundedJsonWriter.Capture | src/support/BoundedJsonWriter.h:190-196 | the snapshot remembers all of the writer but the text itself and the failure flag: what Restore needs |
| JsonBuffer.BoundedJsonWriter.Restore | src/support/BoundedJsonWriter.h:198-208 | brings back the captured writer, whatever was appended since, with the failure flag set |
| JsonBuffer.BoundedJsonWriter.BeginObject | src/support/BoundedJsonWriter.h:34-47 | one transaction of the printer |
| JsonBuffer.BoundedJsonWriter.BeginObjectField | src/support/BoundedJsonWriter.h:49-62 | one transaction of the printer |
| JsonBuffer.BoundedJsonWriter.EndObject | src/support/BoundedJsonWriter.h:64-77 | one transaction of the printer |
| JsonBuffer.BoundedJsonWriter.AddInt | src/support/BoundedJsonWriter.h:79-84 | one transaction of the printer |
| JsonBuffer.BoundedJsonWriter.AddUInt64 | src/support/BoundedJsonWriter.h:86-91 | one transaction of the printer |
| JsonBuffer.BoundedJsonWriter.AddDouble | src/support/BoundedJsonWriter.h:93-106 | refuses non-finite and overlong literals |
| JsonBuffer.BoundedJsonWriter.AddBool | src/support/BoundedJsonWriter.h:108-110 | one transaction of the printer |
| JsonBuffer.BoundedJsonWriter.AddNull | src/support/BoundedJsonWriter.h:112-114 | one transaction of the printer |
| JsonBuffer.BoundedJsonWriter.AddString | src/support/BoundedJsonWriter.h:116-118 | a missing value fails without the flag |
| JsonBuffer.BoundedJsonWriter.AddBytes | src/support/BoundedJsonWriter.h:120-131 | one transaction of the printer |
| JsonBuffer.BoundedJsonWriter.AppendNewline | src/support/BoundedJsonWriter.h:133-135 | one newline, if it fits |
| JsonBuffer.BoundedJsonWriter.ReserveTailBytes | src/support/BoundedJsonWriter.h:137-144 | keeps bytes back |
| JsonBuffer.BoundedJsonWriter.AppendBytes | src/support/BoundedJsonWriter.h:304-313 | all of the piece or none of it, the empty piece included |
| JsonScripts.LineIff | src/core/SchemaBuilder.h:39-67 | a script of calls yields its line exactly when text and newline fit, and then that text |
| JsonScripts.LineParses | src/core/SchemaBuilder.h:39-67 | the line parses to the tree the script builds |
| InboundParser.IsValidUtf8 | src/core/InboundParser.h:335-422 | returns true exactly when the bytes are the UTF-8 encoding (RFC 3629) of some sequence of Unicode scalar values; terminates |
| InboundParser.EncodeAllIsInjective | src/core/InboundParser.h:335-422 | no two sequences of scalar values share an encoding |
| InboundParser.GroupIsEncoding | src/core/InboundParser.h:341-413 | each of the nine byte ranges is exactly the shortest encoding of a scalar value |
| Schema.SealTimeCheckSuffices | src/core/SchemaBuilder.h:29-134 | if the check passes, the schema exists for every 64-bit timestamp and passes the wire-line test |
| Schema.SchemaLineParses | src/core/SchemaBuilder.h:39-134 | every schema line parses to the tree of the registry |
| Schema.DispatchableIffInSchema | src/core/SchemaBuilder.h:86-110 | a name has a subtree in the parsed schema exactly when the dispatcher finds it, and it is that command's |
| SchemaWriting.BuildSchemaLineWithTimestamp | src/core/SchemaBuilder.h:39-67 | the buffer holds exactly the schema line and its terminator, or the build reports capacity |
| SchemaWriting.ValidateMaximumSchemaSize | src/core/SchemaBuilder.h:29-37 | succeeds exactly when the widest timestamp fits |
| SchemaWriting.Seal | src/TeensyCommandServer.h:122-140 | seals exactly when configuration, metadata and size allow it; otherwise changes nothing |
| SchemaWriting.RegistryStaysGood | src/core/CommandRegistry.h:104-162 | after any registrations names are unique and bounded, and a sealed registry can be served from |
| SchemaWriting.SealIsFinal | src/core/CommandRegistry.h:224-230 | nothing changes after the seal, whatever is called |
| SchemaWriting.SealedBoardsAlwaysHaveASchema | src/TeensyCommandServer.h:122-140 | over every run, after the seal the schema exists for every timestamp |
| SchemaWriting.IdentityIsCompleteIffLastCallSucceeded | src/core/CommandRegistry.h:77-102 | the identity is complete exactly when the last call to set it before the seal succeeded; it counts as set exactly when some call did; and a sealed board's is set |
| SchemaWriting.PlainBootSeals | src/TeensyCommandServer.h:122-140 | one accepted identity call, provider and hooks are enough to seal, with a complete identity |
| SchemaWriting.BlankBootSeals | src/core/CommandRegistry.h:77-102 | a later call without a board id fails, blanks the id, and the board still seals |
| Registry.CommandRegistry.SetIdentity | src/core/CommandRegistry.h:77-102 | field by field up to the one that fails |
| Registry.CommandRegistry.RegisterCommand | src/core/CommandRegistry.h:104-162 | appends one command or changes nothing, with the first problem as status |
| Registry.CommandRegistry.CopyArguments | src/core/CommandRegistry.h:135-155 | the first missing, long or repeated argument name decides |
| Registry.CommandRegistry.RegisterTelemetryField | src/core/CommandRegistry.h:164-167 | one more field or none |
| Registry.CommandRegistry.RegisterStateField | src/core/CommandRegistry.h:169-171 | one more field or none |
| Registry.CommandRegistry.ValidateMetadataForSeal | src/core/CommandRegistry.h:207-222 | the first missing part decides |
| Registry.CommandRegistry.CommitSeal | src/core/CommandRegistry.h:224-230 | seals once |
| Registry.CommandRegistry.FindCommand | src/core/CommandRegistry.h:232-242 | the first command of that name |
| Connections.HandlesAreNeverReused | src/platform/qnethernet/QNEthernetNetworkServer.cpp:62-107 | over every run each slot and generation is issued at most once and a handle resolves exactly from its issue to its end, past the generation wrap |
| Connections.LastGenerationRetiresTheSlot | src/platform/qnethernet/QNEthernetNetworkServer.cpp:166-177 | ending the last generation retires the slot: nothing resolves or is issued there again |
| Connections.AcceptOccupies | src/platform/qnethernet/QNEthernetNetworkServer.cpp:62-84 | accepting takes one free slot and no live handle stops resolving |
| Connections.AbortFrees | src/platform/qnethernet/QNEthernetNetworkServer.cpp:100-107 | ending a connection frees exactly its slot |
| Connections.NetworkServer.FirstReusableSlot | src/platform/qnethernet/QNEthernetNetworkServer.cpp:140-147 | the first slot neither active nor retired |
| Connections.NetworkServer.HasPendingConnection | src/platform/qnethernet/QNEthernetNetworkServer.cpp:55-60 | a client and a free slot |
| Connections.NetworkServer.Accept | src/platform/qnethernet/QNEthernetNetworkServer.cpp:62-84 | issues the first free slot at its generation |
| Connections.NetworkServer.Transport | src/platform/qnethernet/QNEthernetNetworkServer.cpp:86-89 | resolves a live handle only |
| Connections.NetworkServer.Abort | src/platform/qnethernet/QNEthernetNetworkServer.cpp:100-107 | ends a live connection, ignores any other handle |
| Connections.NetworkServer.Invalidate | src/platform/qnethernet/QNEthernetNetworkServer.cpp:166-177 | the next generation, or retirement |
| Payloads.PayloadAlwaysCloses | src/api/ObjectWriter.h:14-54 | after any additions, accepted or refused, the payload closes within 7680 bytes and is the JSON of exactly the accepted members, none named `board_proc_us` |
| Payloads.CloseSucceeds | src/api/ObjectWriter.h:47-54 | the reserved byte is the closing brace |
| Payloads.ObjectWriter.AddInt | src/api/ObjectWriter.h:19-21 | refuses after close, without a name, or under the dispatcher's name; else one call of the bounded writer |
| Payloads.ObjectWriter.AddUInt64 | src/api/ObjectWriter.h:23-25 | refuses after close, without a name, or under the dispatcher's name; else one call of the bounded writer |
| Payloads.ObjectWriter.AddDouble | src/api/ObjectWriter.h:31-33 | refuses after close, without a name, or under the dispatcher's name; else one call of the bounded writer |
| Payloads.ObjectWriter.AddBool | src/api/ObjectWriter.h:35-37 | refuses after close, without a name, or under the dispatcher's name; else one call of the bounded writer |
| Payloads.ObjectWriter.AddString | src/api/ObjectWriter.h:39-41 | refuses after close, without a name, or under the dispatcher's name; else one call of the bounded writer |
| Payloads.ObjectWriter.AddBytes | src/api/ObjectWriter.h:43-45 | refuses after close, without a name, or under the dispatcher's name; else one call of the bounded writer |
| Payloads.ObjectWriter.Close | src/api/ObjectWriter.h:47-54 | closes once |
| Dispatching.OkAlwaysFitsIff | src/core/CommandDispatcher.h:229-302 | every closed payload fits its response, for every command and time, if and only if the escaped board id and the controller time take at most 306 bytes together |
| Dispatching.OrdinaryIdAlwaysFits | src/core/CommandDispatcher.h:229-302 | a 48-byte id with no six-byte escape meets that budget |
| Dispatching.ControlIdFitsIff | src/core/CommandDispatcher.h:304-362 | with a 48-byte id of control characters every payload fits exactly when the controller time is shorter than 19 characters |
| Dispatching.ControlIdCanOverflow | src/core/CommandDispatcher.h:304-362 | with that id and the time -1.2345678901234567 some payload does not fit its response |
| Dispatching.ErrorLineAlwaysFits | src/core/CommandDispatcher.h:240-251 | every error line fits and is one line, whatever the id, message and time |
| Dispatching.InjectedIsOneMoreMember | src/core/CommandDispatcher.h:266-282 | splicing `board_proc_us` into a closed payload gives the text of the object with that one more member |
| Dispatching.AlwaysAnswers | src/core/CommandDispatcher.h:45-97 | every command gets exactly one response line; it reports success exactly when the command is registered, its arguments conform, the handler succeeded, no addition failed and the line fits; it counts as unknown exactly when it is not registered |
| Dispatching.CommandDispatcher.Dispatch | src/core/CommandDispatcher.h:45-97 | looks the command up, checks its arguments, runs the handler once on a fresh payload only then and answers what the log says it answered, and queues and counts the one response and any unknown name or invalid argument, or asks for the end of the session |
| Dispatching.CommandDispatcher.Handle | src/core/CommandDispatcher.h:65-96 | the log gains exactly the handler's run, and the failure or success in that entry is what is answered |
| Dispatching.CommandDispatcher.AnswerSuccess | src/core/CommandDispatcher.h:77-96 | the success path with its two fallbacks |
| Dispatching.CommandDispatcher.BuildOkLine | src/core/CommandDispatcher.h:229-238 | builds the line exactly when it fits |
| Dispatching.CommandDispatcher.BuildErrorLine | src/core/CommandDispatcher.h:240-251 | builds the line exactly when it fits |
| Dispatching.CommandDispatcher.AppendResultWithBoardProcUs | src/core/CommandDispatcher.h:266-282 | embeds the payload with the processing time |
| Dispatching.CommandDispatcher.EnqueueError | src/core/CommandDispatcher.h:207-222 | one error line, queued and counted |
| ResponseParsing.OkLineParses | src/core/CommandDispatcher.h:229-282 | a success line parses to the envelope, the accepted members with the processing time under `result`, and a null error |
| ResponseParsing.ErrorLineParses | src/core/CommandDispatcher.h:240-251 | every error line parses to the envelope, a null result, and the code and message with their escapes undone |
| ResponseParsing.CheckedRefusals | src/core/CommandDispatcher.h:45-64 | the response to an unknown name, and to the first declared argument that is missing or of the wrong type, or else to an undeclared one, parses to the error with exactly its code and message |
| ResponseParsing.HandlerRefusals | src/core/CommandDispatcher.h:65-76 | a handler's refusal parses to the error with the code and message it gave, or with the fixed text when the message is too long |
| ResponseParsing.OverflowRefusals | src/core/CommandDispatcher.h:77-96 | a spoiled or oversized result parses to an internal error that says the response exceeded its capacity |
| ResponseParsing.ResponseSaysWhich | src/core/CommandDispatcher.h:45-97 | the parsed status of a response is "ok" exactly when it is counted as a success |
| CommandRouting.EveryCommandIsAnswered | src/core/CommandDispatcher.h:45-97 | over every run, whatever the command, its handler and the e-stop requests the handler makes: exactly one response line is queued behind what waits, counted as the success or error that its parsed status says it is, and the session goes on; only a queue that took four e-stop events to fill refuses it, and then the session ends |
| ArgumentValidation.AcceptedIffConforms | src/core/CommandDispatcher.h:129-205 | accepted exactly when the supplied keys are the declared names and every type matches |
| ArgumentValidation.VerdictIs | src/core/CommandDispatcher.h:129-205 | the verdict is a missing or mistyped argument for the first declared one not properly supplied, else an undeclared one if there is any, else none |
| ArgumentValidation.FirstProblemIsFirst | src/core/CommandDispatcher.h:129-153 | the first declared argument with a problem decides the error |
| ArgumentValidation.ValidateArgs | src/core/CommandDispatcher.h:129-153 | the loop computes that verdict |
| ArgumentValidation.HasExtraArgument | src/core/CommandDispatcher.h:179-192 | finds an undeclared key |

## Left out

- The device's counters wrap at 2^32; here they are naturals, so an equation between counters holds on the device modulo 2^32.
- The telemetry number counts without wrapping; on the wire it is taken modulo 2^64.
- QNEthernet, lwIP, sockets, link and address probing, serial logging: only the slot table of the adapter is modelled.
- `QNEthernetClock` widens 32-bit counters; the 64-bit wrap is an assumption on the clock, which is taken to move at last (`Platform.Clock`).
- ArduinoJson: `Applications.Application.Parse` reads a line as any message at all, with its target checked; the arguments of a command are a list of names and kinds of value.
- The C library's printing of doubles: a literal that is a JSON number and shorter than 32 bytes, or none.
- The recoverable-command-error route, which the facade does not wire (`src/TeensyCommandServer.h:273-284`).
- Counters for malformed input and hooks over budget, the schema-build microsecond timings, and the diagnostics command.
- `NetworkServer::close`, which nothing in the engine calls; `LineFramer::discardPartialLine`; `BoundedJsonWriter::reset`; `OutboundScheduler::clear`.
- `SessionDriver::requestShutdown`, which the facade does not expose.
- Second tests that can never fire: the generation test after the increment in the slot table, the refusal of a built telemetry line by the scheduler, and argument types outside the enumeration.
- Handlers, hooks and providers do not re-enter `service()`; an e-stop request they make is applied at the end of the stage they run in, which touches no state the rest of that stage reads.
- Queue entries and the acquired line are sequences of characters held as values, not views into the fixed buffers.
- Whole lines on the wire: a telemetry write that expires leaves a prefix and the session goes on; `SessionIsolation` says only telemetry can be cut short so.
- Absence of telemetry starvation: with a line on every call and one entry always queued, telemetry waits.
- Microseconds are a clock of their own whose readings are arbitrary: the processing time in a response is the difference of the two that were taken, which can be any 64-bit number.
- The Python tools, orchestrator, demo stack, conformance client, vocabulary tables and error-code mapping.
