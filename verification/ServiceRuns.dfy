/**
 The whole boot: any registrations that end in a seal, then any sequence of `service()` calls and
 application requests, against any network, clock, handlers and hooks.
 */
module ServiceRuns {
  import opened Common
  import opened CounterBank
  import opened Connections
  import LineFraming
  import opened OutboundWriting
  import opened Scheduling
  import opened EventLines
  import opened EstopHandling
  import opened TelemetryScheduling
  import opened Sessions
  import opened Serving
  import opened ServiceInvariant
  import opened ServiceStages
  import opened Applications
  import Dispatching
  import Payloads
  import Json
  import JsonWriting
  import TelemetryParsing
  import Registry
  import Schema
  import SchemaWriting
  import Limits

  // ---------------------------------------------------------------------------------------
  // One call.

  lemma EndStageRuns(b: Registry.Board, s: Server, a: Answers)
    requires Running(b, s, 1) && IsValidHandle(s.driver.active)
    ensures Boundary(b, Serving.EndSession(b, Torn(s, CriticalTransmitFailure), a))
    ensures Boundary(b, Serving.EndSession(b, Released(Torn(s, CriticalTransmitFailure)), a))
  {
    hide Running, Boundary, Serving.EndSession;
    var t := Torn(s, CriticalTransmitFailure);
    TornRuns(b, s, CriticalTransmitFailure, 1);
    EndRuns(b, t, a);
    ReleaseRuns(b, t, 1);
    EndRuns(b, Released(t), a);
  }

  /** With no session there is nothing to drain, so a stage that drains has a live session. */
  lemma NothingToDrain(b: Registry.Board, s: Server)
    requires Running(b, s, 1) && !s.driver.teardown
    ensures IsLive(s) || !HasPending(s.queue)
    ensures IsLive(s) ==> IsValidHandle(s.driver.active)
    ensures !HasPending(s.queue) ==> Running(b, s, 0)
  {
    hide Connected, Idle, Agree, Balanced, Fifo, MatchesWrites, CriticalOnly, Sessions.Conserved, GoodPast;
  }

  lemma DrainStageRuns(b: Registry.Board, s: Server, accepted: nat, a: Answers)
    requires Running(b, s, 1) && !s.driver.teardown && Ready(s.driver)
    ensures match DrainStage(b, s, accepted, a)
            case Done(t) => Boundary(b, t)
            case Go(t) => Running(b, t, 0) && SameLive(s.driver, t.driver)
  {
    hide Running, Boundary, Serving.EndSession, Serving.Drain, RouteOutcome, DrainOutcome, DrainEnds, MayFollow;
    NothingToDrain(b, s);
    if HasPending(s.queue) {
      var t := Routed(s, accepted);
      DrainRuns(b, s, accepted);
      if DrainEnds(t, DrainOutcome(s, accepted)) {
        WiderSlack(b, t, 0);
        EndStageRuns(b, t, a);
      }
    }
  }

  /** Still the same live session, or still none. */
  predicate SameLive(d: Driver, e: Driver) {
    e.active == d.active && e.framer == d.framer && !e.teardown && Ready(e) && (IsActive(d) ==> IsActive(e))
  }

  lemma SettledWhenIdle(b: Registry.Board, s: Server)
    requires Running(b, s, 1) && !s.driver.teardown && !s.driver.framer.acquired && Ready(s.driver)
    ensures Boundary(b, s)
  {
    hide Sound, Agree, OpenBook, Balanced, CanServe, MayFollow;
  }

  lemma MessageStageRuns(b: Registry.Board, s: Server, line: string, drained: bool, a: Answers)
    requires Running(b, s, 0) && IsLive(s) && Ready(s.driver)
    ensures Boundary(b, MessageStage(b, s, line, drained, a))
  {
    hide Running, Boundary, Serving.EndSession, Handle, DrainStage, MayFollow;
    var t := Released(Handle(b, s, line, a));
    HandleRuns(b, s, line, a);
    ReleaseRuns(b, Handle(b, s, line, a), 1);
    if t.driver.teardown {
      EndRuns(b, t, a);
    } else if drained {
      SettledWhenIdle(b, t);
    } else {
      DrainStageRuns(b, t, a.secondAccepted, a);
      var u := DrainStage(b, t, a.secondAccepted, a);
      if u.Go? {
        WiderSlack(b, u.server, 0);
        SettledWhenIdle(b, u.server);
      }
    }
  }

  lemma SafetyStageRuns(b: Registry.Board, s: Server, a: Answers)
    requires Running(b, s, 1) && !s.driver.teardown && Ready(s.driver)
    ensures match SafetyStage(b, s, a)
            case Done(t) => Boundary(b, t)
            case Go(t) => Running(b, t, 1) && SameLive(s.driver, t.driver)
  {
    hide Running, Boundary, Serving.EndSession, SafetyOffer, ServiceFails, MayFollow;
    if IsLive(s) {
      SafetyRuns(b, s);
      EndStageRuns(b, SafetyOffer(b, s), a);
    }
  }

  /** Every call of `service()` keeps the invariant of the boundary between calls. */
  lemma StepKeepsBoundary(b: Registry.Board, s: Server, a: Answers)
    requires Boundary(b, s)
    ensures Boundary(b, ServiceStep(b, s, a))
  {
    hide Running, Boundary, Serving.EndSession, PollStage, LineStage, TelemetryStage, SafetyStage, DrainStage,
         MessageStage, NextLine, MayFollow, HasPending, IsActive;
    var polled := PollStage(b, s, a);
    var line := NextLine(polled.driver, a.late);
    var lined := LineStage(polled, a);
    PollRuns(b, s, a);
    LineRuns(b, polled, a);
    if lined.driver.teardown {
      ReleaseRuns(b, lined, 1);
      EndRuns(b, if line.Some? then Released(lined) else lined, a);
    } else {
      TelemetryRuns(b, lined, a);
      var framed := TelemetryStage(b, lined, a);
      SafetyStageRuns(b, framed, a);
      var safe := SafetyStage(b, framed, a);
      if safe.Go? {
        DrainStageRuns(b, safe.server, a.firstAccepted, a);
        var drained := DrainStage(b, safe.server, a.firstAccepted, a);
        if drained.Go? {
          if line.Some? {
            MessageStageRuns(b, drained.server, line.value, HasPending(safe.server.queue), a);
          } else {
            WiderSlack(b, drained.server, 0);
            SettledWhenIdle(b, drained.server);
          }
        }
      }
    }
  }

  /** The server just before a call handles the line it acquired, if it gets that far. */
  function BeforeHandling(b: Registry.Board, s: Server, a: Answers): Option<Server> {
    var polled := PollStage(b, s, a);
    var lined := LineStage(polled, a);
    if lined.driver.teardown || NextLine(polled.driver, a.late).None? then None
    else
      match SafetyStage(b, TelemetryStage(b, lined, a), a)
      case Done(_) => None
      case Go(t) =>
        match DrainStage(b, t, a.firstAccepted, a)
        case Done(_) => None
        case Go(u) => Some(u)
  }

  /** A line is handled only in a live session, and with room for what it may queue. */
  lemma HandlesWhileRunning(b: Registry.Board, s: Server, a: Answers)
    requires Boundary(b, s) && BeforeHandling(b, s, a).Some?
    ensures Running(b, BeforeHandling(b, s, a).value, 0) && IsLive(BeforeHandling(b, s, a).value)
  {
    hide Running, Boundary, PollStage, LineStage, TelemetryStage, SafetyStage, DrainStage, NextLine, MayFollow, IsActive;
    var polled := PollStage(b, s, a);
    var lined := LineStage(polled, a);
    PollRuns(b, s, a);
    LineRuns(b, polled, a);
    TelemetryRuns(b, lined, a);
    var framed := TelemetryStage(b, lined, a);
    SafetyStageRuns(b, framed, a);
    DrainStageRuns(b, SafetyStage(b, framed, a).server, a.firstAccepted, a);
  }

  // ---------------------------------------------------------------------------------------
  // Whole runs.

  datatype Event = ServiceCall(answers: Answers) | AppRequest(request: Request)

  function After(b: Registry.Board, s: Server, e: Event): Server {
    match e
    case ServiceCall(a) => ServiceStep(b, s, a)
    case AppRequest(r) => WithRequest(s, r)
  }

  /** The server started at `now`, after the events. */
  function Play(b: Registry.Board, now: nat, events: seq<Event>): Server {
    if events == [] then NEW_SERVER.(driver := Begin(NEW_DRIVER, now))
    else After(b, Play(b, now, events[..|events| - 1]), events[|events| - 1])
  }

  lemma StartIsBoundary(b: Registry.Board, now: nat)
    requires CanServe(b)
    ensures Boundary(b, Play(b, now, []))
  {
    hide Sound, OpenBook, Lossless, FramesAccounted, Schema.MaximumSchemaFits;
    var s := Play(b, now, []);
    StartIsSound(b, now);
    StartIsBalanced(b.identity.boardId);
    EmptyBook(s.driver.record, s.queue);
  }

  lemma StartIsSound(b: Registry.Board, now: nat)
    ensures Sound(b, Begin(NEW_DRIVER, now)) && !Begin(NEW_DRIVER, now).framer.acquired
    ensures Begin(NEW_DRIVER, now) == NEW_DRIVER.(state := NetworkStarting, nextInitMs := now % TWO_64)
  {
    assert Occupied(NO_CONNECTIONS) == 0;
  }

  lemma StartIsBalanced(boardId: cstring)
    ensures Lossless(boardId, EMPTY_LEDGER, NothingPending)
    ensures FramesAccounted(boardId, EMPTY_LEDGER, ZERO, EMPTY_QUEUE, 1)
  {
  }

  lemma RequestKeepsBoundary(b: Registry.Board, s: Server, r: Request)
    requires Boundary(b, s)
    ensures Boundary(b, WithRequest(s, r))
  {
    hide Running, Settled, WithRequest;
    RequestRuns(b, s, r, 1);
  }

  lemma {:induction false} RunKeepsBoundary(b: Registry.Board, now: nat, events: seq<Event>)
    requires CanServe(b)
    ensures Boundary(b, Play(b, now, events))
  {
    hide Boundary, ServiceStep, WithRequest, CanServe;
    if events == [] {
      StartIsBoundary(b, now);
    } else {
      var s := Play(b, now, events[..|events| - 1]);
      RunKeepsBoundary(b, now, events[..|events| - 1]);
      match events[|events| - 1]
      case ServiceCall(a) => StepKeepsBoundary(b, s, a);
      case AppRequest(r) => RequestKeepsBoundary(b, s, r);
    }
  }

  /** A board that any sequence of registrations sealed, and the server run on it. */
  ghost predicate IsBoot(registrations: seq<SchemaWriting.Action>, b: Registry.Board) {
    b == SchemaWriting.Play(registrations) && b.isSealed
  }

  const AN_IDENTITY := Registry.IdentityArgs(Some("board"), Some("1"), Some("1.0"))

  /** There are such boards, one with a complete identity and one with a blank board id. */
  lemma BootsExist()
    ensures var plain := SchemaWriting.PlainBoot(AN_IDENTITY);
            IsBoot(plain, SchemaWriting.Play(plain)) && Registry.IsComplete(SchemaWriting.Play(plain).identity)
    ensures var blank := SchemaWriting.BlankBoot(AN_IDENTITY);
            IsBoot(blank, SchemaWriting.Play(blank)) && SchemaWriting.Play(blank).identity.boardId == ""
  {
    hide SchemaWriting.Play;
    SchemaWriting.PlainBootSeals(AN_IDENTITY);
    SchemaWriting.BlankBootSeals(AN_IDENTITY);
  }

  lemma BootCanServe(registrations: seq<SchemaWriting.Action>, b: Registry.Board)
    requires IsBoot(registrations, b)
    ensures CanServe(b)
  {
    hide SchemaWriting.Play, Schema.MaximumSchemaFits;
    SchemaWriting.RegistryStaysGood(registrations);
  }

  lemma BootIsBoundary(registrations: seq<SchemaWriting.Action>, b: Registry.Board, now: nat, events: seq<Event>)
    requires IsBoot(registrations, b)
    ensures Boundary(b, Play(b, now, events))
  {
    BootCanServe(registrations, b);
    RunKeepsBoundary(b, now, events);
  }

  // ---------------------------------------------------------------------------------------
  // What the invariant means.

  /**
   Between two calls nothing is half done: no teardown is pending, no replacement held, no line
   acquired; a session is active exactly when its handle resolves to a live slot; without one
   nothing is queued; and no state change the relation forbids was ever asked for.
   */
  lemma ServiceBoundary(registrations: seq<SchemaWriting.Action>, b: Registry.Board, now: nat, events: seq<Event>)
    requires IsBoot(registrations, b)
    ensures var s := Play(b, now, events); var d := s.driver;
            && !d.teardown && !IsValidHandle(d.replacement) && !d.framer.acquired
            && d.state in {NetworkStarting, Listening, SessionActive}
            && (d.state.SessionActive? <==> Resolves(d.slots, d.active))
            && (d.transport == if d.state.SessionActive? then Some(d.active.slot) else None)
            && (!d.state.SessionActive? ==> !HasPending(s.queue))
            && !d.refused
  {
    hide CanServe, Agree, OpenBook, Balanced, GoodPast, GoodBook, GoodWrites, LineFraming.Refines, ServiceStep;
    BootIsBoundary(registrations, b, now, events);
  }

  /**
   Session isolation. What any peer was ever sent is the schema, then the taken parts of lines
   drained while its own connection was bound, in order; each drained line was queued for that
   connection, per priority class in the order queued; only telemetry may be cut short and be
   followed by more. What was delivered from it are lines of the bytes framed, and these are, read by
   read, the first so many of the bytes that its own transport gave.
   */
  lemma SessionIsolation(registrations: seq<SchemaWriting.Action>, b: Registry.Board, now: nat, events: seq<Event>)
    requires IsBoot(registrations, b)
    ensures var d := Play(b, now, events).driver;
            && (d.state.SessionActive? ==>
                  && d.record.handle == d.active && MayFollow(d.record.writes)
                  && IsolatedRecord(b, d.record, Heard(d.received, d.active.slot), Said(d)))
            && (forall i :: 0 <= i < |d.past| ==> IsolatedRecord(b, d.past[i].record, d.past[i].heard, d.past[i].said))
  {
    hide CanServe, Agree, OpenBook, Balanced, GoodBook, GoodWrites, LineFraming.Refines;
    BootIsBoundary(registrations, b, now, events);
    var d := Play(b, now, events).driver;
    if d.state.SessionActive? {
      FramingGivesInbound(d.framer, d.record);
    }
  }

  /** Every accepted session is ended, active or held, and holds a slot exactly until it ends; the loss hook ran once for each that ended. */
  lemma SessionConservation(registrations: seq<SchemaWriting.Action>, b: Registry.Board, now: nat, events: seq<Event>)
    requires IsBoot(registrations, b)
    ensures var d := Play(b, now, events).driver; var active := if d.state.SessionActive? then 1 else 0;
            && d.counters.sessionsAccepted == d.counters.controllerDisconnects + active
            && d.hookRuns == d.counters.controllerDisconnects == |d.past|
            && Occupied(d.slots) == active
  {
    hide CanServe, Agree, OpenBook, Balanced, GoodBook, GoodWrites, LineFraming.Refines, GoodPast, ServiceStep;
    BootIsBoundary(registrations, b, now, events);
  }

  /**
   The telemetry failure streak over every run: on a live connection fewer than ten telemetry sends
   have expired since the last that went through, and a connection ended for its streak exactly if
   the tenth expired, counted over its own writes.
   */
  lemma StreakEndsAtTheTenth(registrations: seq<SchemaWriting.Action>, b: Registry.Board, now: nat, events: seq<Event>)
    requires IsBoot(registrations, b)
    ensures var d := Play(b, now, events).driver;
            && (d.state.SessionActive? ==> d.failures == Expiries(Sends(d.record.writes)) < STREAK_LIMIT)
            && (forall i :: 0 <= i < |d.past| ==>
                  var n := Expiries(Sends(d.past[i].record.writes));
                  n <= STREAK_LIMIT && (n == STREAK_LIMIT <==> d.past[i].reason.TelemetryTransmitFailureStreak?))
  {
    hide CanServe, Agree, OpenBook, Balanced, GoodBook, GoodWrites, IsolatedRecord, LineFraming.Refines, Sends, Expiries, Streak,
         ServiceStep;
    BootIsBoundary(registrations, b, now, events);
    StreakCountsExpiries(Sends(Play(b, now, events).driver.record.writes));
  }

  /** Stale handles fail closed: the handle of an ended connection never resolves again, and none is ever issued twice. */
  lemma StaleHandlesFailClosed(registrations: seq<SchemaWriting.Action>, b: Registry.Board, now: nat, events: seq<Event>)
    requires IsBoot(registrations, b)
    ensures var d := Play(b, now, events).driver;
            && (forall i :: 0 <= i < |d.past| ==> !Resolves(d.slots, d.past[i].record.handle) && d.past[i].record.handle != d.active)
            && (forall i, j :: 0 <= i < j < |d.past| ==> d.past[i].record.handle != d.past[j].record.handle)
  {
    hide CanServe, Agree, OpenBook, Balanced, GoodBook, GoodWrites, LineFraming.Refines, GoodPast, ServiceStep;
    BootIsBoundary(registrations, b, now, events);
    var d := Play(b, now, events).driver;
    forall i | 0 <= i < |d.past| ensures !Resolves(d.slots, d.past[i].record.handle) && d.past[i].record.handle != d.active {
      assert Dead(d.slots, d.past[i].record.handle);
    }
  }

  /** What a controller reads from the line is the alarm: its reason and its time. */
  predicate SaysTheAlarm(boardId: cstring, alarm: Alarm, line: string) {
    JsonWriting.ParseDocument(line) ==
      Some(EventTree(boardId, alarm.timestamp, "estop_triggered", Json.Snoc(Json.Empty, "reason", Json.Text(alarm.reason))))
  }

  lemma AlarmIsSaid(boardId: cstring, alarm: Alarm, line: string)
    requires |boardId| <= Limits.MAX_BOARD_ID_BYTES && |alarm.reason| <= Limits.ESTOP_REASON_MAX_BYTES
    requires TriggeredLine(boardId, alarm.timestamp, alarm.reason) == Some(line)
    ensures SaysTheAlarm(boardId, alarm, line)
  {
    hide TriggeredLine, JsonWriting.ParseDocument, EventTree;
    TriggeredLineParses(boardId, alarm.timestamp, alarm.reason);
  }

  /**
   The e-stop event is lossless: the events wholly sent are the accepted requests, in order, each
   read back as an event with its own reason and time, and at most the last request is still to be
   sent. At most one copy is queued, and handler and scheduler agree on where it is.
   */
  lemma EstopLossless(registrations: seq<SchemaWriting.Action>, b: Registry.Board, now: nat, events: seq<Event>)
    requires IsBoot(registrations, b)
    ensures var s := Play(b, now, events); var l := s.ledger;
            && |l.confirmed| <= |l.requested| <= |l.confirmed| + 1
            && (forall i :: 0 <= i < |l.confirmed| ==>
                  && TriggeredLine(b.identity.boardId, l.requested[i].timestamp, l.requested[i].reason) == Some(l.confirmed[i])
                  && SaysTheAlarm(b.identity.boardId, l.requested[i], l.confirmed[i]))
            && (s.estop.NothingPending? <==> |l.requested| == |l.confirmed|)
            && (!s.estop.NothingPending? ==> IsPendingAlarm(s.estop, l.requested[|l.confirmed|]))
            && |TriggeredEntries(s.queue.critical)| == (if s.estop.AwaitingCompletion? then 1 else 0)
            && (s.queue.triggered.InQueue? <==> s.estop.AwaitingCompletion?)
            && (s.queue.triggered.NotPending? <==> s.estop.NothingPending?)
  {
    hide OpenBook, FramesAccounted, Sound, TriggeredLine, EventLine, TriggeredEntries, SaysTheAlarm, Schema.MaximumSchemaFits, ServiceStep;
    BootIsBoundary(registrations, b, now, events);
    var l := Play(b, now, events).ledger;
    forall i | 0 <= i < |l.confirmed| ensures SaysTheAlarm(b.identity.boardId, l.requested[i], l.confirmed[i]) {
      AlarmIsSaid(b.identity.boardId, l.requested[i], l.confirmed[i]);
    }
  }

  /**
   The ledger is what went out: the confirmed events are the e-stop lines written whole, and the
   frames handed over the telemetry lines drained, on the connections that ended and then on the
   bound one, in order. With `SessionIsolation` these are lines their peers were sent. The counters
   of acknowledgements and frames sent count the lines of their kind written whole, and no others.
   */
  lemma LedgerIsWhatWasSent(registrations: seq<SchemaWriting.Action>, b: Registry.Board, now: nat, events: seq<Event>)
    requires IsBoot(registrations, b)
    ensures var s := Play(b, now, events); var d := s.driver;
            && s.ledger.confirmed == SentLines(EstopTriggered, d)
            && LinesOf(s.ledger.handed) == AllFrames(d.past, d.record.book.drained)
            && s.ledger.attempts == AllAttempts(d.past, d.record.book.attempts)
            && d.counters.estopAckSent == |SentLines(EstopAck, d)| && d.counters.heartbeatAckSent == |SentLines(HeartbeatAck, d)|
            && d.counters.telemetrySent == |SentLines(Telemetry, d)|
  {
    hide CanServe, OpenBook, FramesAccounted, Lossless, Sound, Agree, AllLines, AllFrames, AllAttempts, LinesOf, ServiceStep;
    BootIsBoundary(registrations, b, now, events);
  }

  /**
   At every boundary the critical queue holds at most one line more than the e-stop events offered
   in this session; no session refuses a line for want of room before its fourth such event.
   */
  lemma QueueBound(registrations: seq<SchemaWriting.Action>, b: Registry.Board, now: nat, events: seq<Event>)
    requires IsBoot(registrations, b)
    ensures var s := Play(b, now, events);
            && |s.queue.critical| <= CAPACITY && |s.queue.critical| <= 1 + s.driver.record.book.triggers
            && (s.driver.record.book.saturated ==> s.driver.record.book.triggers >= 4)
            && (forall i :: 0 <= i < |s.driver.past| && s.driver.past[i].record.book.saturated ==>
                  s.driver.past[i].record.book.triggers >= 4)
  {
    hide CanServe, Agree, Balanced, MatchesWrites, Fifo, CriticalOnly, GoodWrites, LineFraming.Refines, GoodInbound;
    BootIsBoundary(registrations, b, now, events);
    assert CAPACITY == 4;
  }

  /**
   An acknowledgement is honest: at any time, in every session, the e-stop acknowledgements sent and
   waiting are no more than the hook calls that reported a safe state in that same session.
   */
  lemma HonestAcknowledgement(registrations: seq<SchemaWriting.Action>, b: Registry.Board, now: nat, events: seq<Event>)
    requires IsBoot(registrations, b)
    ensures var s := Play(b, now, events); var book := s.driver.record.book;
            && book.acks + Acks(s.queue.critical) <= book.safe
            && (forall i :: 0 <= i < |s.driver.past| ==> s.driver.past[i].record.book.acks <= s.driver.past[i].record.book.safe)
            && s.driver.counters.estopAckSent + Acks(s.queue.critical) <= s.ledger.safeReturns
  {
    hide CanServe, Agree, FramesAccounted, Lossless, MatchesWrites, Fifo, CriticalOnly, GoodWrites,
         LineFraming.Refines, GoodInbound;
    BootIsBoundary(registrations, b, now, events);
  }

  /** A controller reads the frame's number, modulo 2^64, from the line, and the members that some provider added. */
  ghost predicate SaysItsNumber(boardId: cstring, n: Numbered) {
    exists timestamp: uint64, uses: Payloads.script ::
      JsonWriting.ParseDocument(n.line) ==
        Some(TelemetryParsing.TelemetryTree(boardId, n.number % TWO_64, timestamp, Payloads.Accepted(uses)))
  }

  lemma FrameSaysItsNumber(boardId: cstring, n: Numbered)
    requires |boardId| <= Limits.MAX_BOARD_ID_BYTES && IsFrame(boardId, n.number, n.line)
    ensures SaysItsNumber(boardId, n)
  {
    hide TelemetryLine, Payloads.Closed, Payloads.Filled, Payloads.Accepted, JsonWriting.ParseDocument, TelemetryParsing.TelemetryTree;
    var timestamp: uint64, uses: Payloads.script :|
      TelemetryLine(n.number % TWO_64, timestamp, boardId, Payloads.Closed(Payloads.Filled(uses)).w.text) == Some(n.line);
    TelemetryParsing.TelemetryLineParses(n.number % TWO_64, timestamp, boardId, uses);
  }

  /**
   Frame numbers handed to a session strictly increase over the whole boot, each on the line it
   numbers, and every number allocated has one fate: sent, coalesced, failed, canceled, or waiting.
   */
  lemma TelemetryAccounted(registrations: seq<SchemaWriting.Action>, b: Registry.Board, now: nat, events: seq<Event>)
    requires IsBoot(registrations, b)
    ensures var s := Play(b, now, events); var l, c := s.ledger, s.driver.counters;
            && s.cadence.nextSeq - 1 == c.telemetrySent + c.telemetryCoalesced + l.failed + l.canceled + InSlot(s.queue)
            && Increasing(l.handed)
            && (forall i :: 0 <= i < |l.handed| ==>
                  l.handed[i].number < s.cadence.nextSeq && SaysItsNumber(b.identity.boardId, l.handed[i]))
  {
    hide Agree, OpenBook, Lossless, Sound, IsFrame, SaysItsNumber, ServiceStep;
    BootIsBoundary(registrations, b, now, events);
    var l := Play(b, now, events).ledger;
    forall i | 0 <= i < |l.handed| ensures SaysItsNumber(b.identity.boardId, l.handed[i]) {
      FrameSaysItsNumber(b.identity.boardId, l.handed[i]);
    }
  }

  /** The records of all connections, ended ones first. */
  function AllRecords(d: Driver): seq<Record> {
    seq(|d.past|, i requires 0 <= i < |d.past| => d.past[i].record) + [d.record]
  }

  lemma AttemptsAreSpacedApart(b: Registry.Board, now: nat, events: seq<Event>)
    requires CanServe(b)
    ensures var rs := AllRecords(Play(b, now, events).driver); forall k :: 0 <= k < |rs| ==> ReadingsSpaced(rs[k].book.attempts)
  {
    hide CanServe, Agree, Balanced, MatchesWrites, Fifo, CriticalOnly, GoodWrites, LineFraming.Refines, GoodInbound, ReadingsSpaced,
         Sessions.Conserved, StreakExplains, LossExplains, FramedFrom, Streak, Sends, Bytes, ServiceStep;
    RunKeepsBoundary(b, now, events);
  }

  /** The true times at which the scheduler read the clock, call by call. */
  function ReadingTimes(events: seq<Event>): seq<nat> {
    if events == [] then []
    else
      var n := |events| - 1;
      ReadingTimes(events[..n]) + match events[n] case ServiceCall(a) => [a.telemetry.at] case AppRequest(_) => []
  }

  /** Time never goes back, and is now at least `until`. */
  predicate Chronological(events: seq<Event>, until: nat) {
    Ascending(ReadingTimes(events) + [until])
  }

  predicate NoneAfter(times: seq<nat>, until: nat) {
    Ascending(times) && forall i :: 0 <= i < |times| ==> times[i] <= until
  }

  lemma ChronologicalParts(times: seq<nat>, until: nat)
    ensures Ascending(times + [until]) <==> NoneAfter(times, until)
  {
    var all := times + [until];
    if Ascending(all) {
      forall i | 0 <= i < |times| ensures times[i] <= until {
        assert all[i] <= all[|times|];
      }
      forall i, j | 0 <= i < j < |times| ensures times[i] <= times[j] {
        assert all[i] <= all[j];
      }
    }
    if NoneAfter(times, until) {
      forall i, j | 0 <= i < j < |all| ensures all[i] <= all[j] {
        assert all[i] == times[i];
      }
    }
  }

  /** A run of calls in true time attempts frames in true time. */
  lemma {:induction false} AttemptsAscend(b: Registry.Board, now: nat, events: seq<Event>, until: nat)
    requires Chronological(events, until)
    ensures NoneAfter(Play(b, now, events).ledger.attempts, until)
  {
    hide ServiceStep, WithRequest;
    ChronologicalParts(ReadingTimes(events), until);
    if events != [] {
      var n := |events| - 1;
      var s, times := Play(b, now, events[..n]), ReadingTimes(events[..n]);
      match events[n]
      case ServiceCall(a) =>
        ChronologicalParts(times, a.telemetry.at);
        assert (times + [a.telemetry.at])[|times|] <= until;
        AttemptsAscend(b, now, events[..n], a.telemetry.at);
        StepAttempts(b, s, a);
        ChronologicalParts(s.ledger.attempts, a.telemetry.at);
      case AppRequest(r) =>
        assert times + [] == times;
        AttemptsAscend(b, now, events[..n], until);
        RequestsRemember(s, [r]);
    }
  }

  lemma OneMoreCall(events: seq<Event>, e: Event, from: nat, until: nat)
    requires Chronological(events, from) && from <= until
    requires e.ServiceCall? ==> from <= e.answers.telemetry.at <= until
    ensures Chronological(events + [e], until)
  {
    hide Ascending;
    assert (events + [e])[..|events|] == events;
    var times := ReadingTimes(events);
    ChronologicalParts(times, from);
    if e.ServiceCall? {
      var at := e.answers.telemetry.at;
      ChronologicalParts(times, at);
      ChronologicalParts(times + [at], until);
    } else {
      assert times + [] == times;
      ChronologicalParts(times, until);
    }
  }

  /** The state of a server that started, on a board it can serve, and was called and asked for events in true time up to now. */
  ghost predicate IsRun(b: Registry.Board, s: Server, until: nat) {
    CanServe(b) && exists boot: nat, history: seq<Event> :: IsHistory(b, s, boot, history, until)
  }

  predicate IsHistory(b: Registry.Board, s: Server, boot: nat, history: seq<Event>, until: nat) {
    s == Play(b, boot, history) && Chronological(history, until)
  }

  lemma StartIsRun(b: Registry.Board, boot: nat, until: nat)
    requires CanServe(b)
    ensures IsRun(b, Play(b, boot, []), until)
  {
    hide CanServe, Begin;
    assert Chronological([], until);
    assert IsHistory(b, Play(b, boot, []), boot, [], until);
  }

  lemma RunGoesOn(b: Registry.Board, s: Server, from: nat, e: Event, until: nat)
    requires IsRun(b, s, from) && from <= until
    requires e.ServiceCall? ==> from <= e.answers.telemetry.at <= until
    ensures IsRun(b, After(b, s, e), until)
  {
    hide CanServe, Chronological, ServiceStep, WithRequest;
    var boot: nat, history: seq<Event> :| IsHistory(b, s, boot, history, from);
    assert (history + [e])[..|history|] == history;
    OneMoreCall(history, e, from, until);
    assert IsHistory(b, After(b, s, e), boot, history + [e], until);
  }

  lemma RunIsBoundary(b: Registry.Board, s: Server, until: nat)
    requires IsRun(b, s, until)
    ensures Boundary(b, s)
  {
    hide CanServe, Chronological, Play, Boundary;
    var boot: nat, history: seq<Event> :| IsHistory(b, s, boot, history, until);
    RunKeepsBoundary(b, boot, history);
  }

  /** The cadence of a server, from its state alone: on any of its connections, W ms of true time hold at most W / 50 + 1 attempts. */
  lemma RunCadence(b: Registry.Board, s: Server, until: nat, k: nat, i: nat, j: nat, window: nat)
    requires IsRun(b, s, until) && k < |AllRecords(s.driver)|
    requires var times := AllRecords(s.driver)[k].book.attempts; i <= j < |times| && times[j] - times[i] <= window
    ensures j - i + 1 <= window / PERIOD + 1
  {
    hide CanServe, Chronological, Play, AllRecords;
    var boot: nat, history: seq<Event> :| IsHistory(b, s, boot, history, until);
    CadenceOfRun(b, boot, history, until, k, i, j, window);
  }

  lemma {:induction false} PastAttemptsAscend(past: seq<Ended>, i: nat)
    requires Ascending(PastAttempts(past)) && i < |past|
    ensures Ascending(past[i].record.book.attempts)
  {
    var n := |past| - 1;
    PartsAscend(PastAttempts(past[..n]), past[n].record.book.attempts);
    if i < n {
      PastAttemptsAscend(past[..n], i);
    }
  }

  lemma PartsAscend(xs: seq<nat>, ys: seq<nat>)
    requires Ascending(xs + ys)
    ensures Ascending(xs) && Ascending(ys)
  {
    var all := xs + ys;
    forall i, j | 0 <= i < j < |xs| ensures xs[i] <= xs[j] {
      assert all[i] <= all[j];
    }
    forall i, j | 0 <= i < j < |ys| ensures ys[i] <= ys[j] {
      assert all[|xs| + i] <= all[|xs| + j];
    }
  }

  lemma RecordsAscend(b: Registry.Board, now: nat, events: seq<Event>, until: nat, k: nat)
    requires CanServe(b) && Chronological(events, until) && k < |AllRecords(Play(b, now, events).driver)|
    ensures Ascending(AllRecords(Play(b, now, events).driver)[k].book.attempts)
  {
    hide Chronological, Play, CanServe, Ascending, PastAttempts;
    AttemptsAscend(b, now, events, until);
    AttemptsAreAll(b, now, events);
    var d := Play(b, now, events).driver;
    PartsAscend(PastAttempts(d.past), d.record.book.attempts);
    if k < |d.past| {
      PastAttemptsAscend(d.past, k);
    }
  }

  lemma AttemptsAreAll(b: Registry.Board, now: nat, events: seq<Event>)
    requires CanServe(b)
    ensures var s := Play(b, now, events); s.ledger.attempts == AllAttempts(s.driver.past, s.driver.record.book.attempts)
  {
    hide CanServe, Agree, Lossless, FramesAccounted, OpenBook, Sound, AllAttempts, AllLines, AllFrames, ServiceStep, Settled;
    RunKeepsBoundary(b, now, events);
  }

  /** The bound on any server that runs in true time, on any of its connections. */
  lemma CadenceOfRun(b: Registry.Board, now: nat, events: seq<Event>, until: nat, k: nat, i: nat, j: nat, window: nat)
    requires CanServe(b) && Chronological(events, until) && k < |AllRecords(Play(b, now, events).driver)|
    requires var times := AllRecords(Play(b, now, events).driver)[k].book.attempts;
             i <= j < |times| && times[j] - times[i] <= window
    ensures j - i + 1 <= window / PERIOD + 1
  {
    hide Play, AllRecords, CanServe, Chronological;
    AttemptsAreSpacedApart(b, now, events);
    RecordsAscend(b, now, events, until, k);
    var times := AllRecords(Play(b, now, events).driver)[k].book.attempts;
    forall n | 0 < n < |times| ensures times[n] - times[n - 1] >= PERIOD {
      ElapsedAtLeast(times[n - 1], times[n]);
    }
    SpacedSpan(times, i, j);
  }

  /**
   Telemetry cadence over every run of calls made in true time: on every connection, present or
   ended, a window of W milliseconds holds at most W / 50 + 1 attempts to build a frame, the wrap
   of the clock included.
   */
  lemma TelemetryCadence(registrations: seq<SchemaWriting.Action>, b: Registry.Board, now: nat, events: seq<Event>, until: nat,
                         k: nat, i: nat, j: nat, window: nat)
    requires IsBoot(registrations, b) && Chronological(events, until) && k < |AllRecords(Play(b, now, events).driver)|
    requires var times := AllRecords(Play(b, now, events).driver)[k].book.attempts;
             i <= j < |times| && times[j] - times[i] <= window
    ensures j - i + 1 <= window / PERIOD + 1
  {
    hide Play, AllRecords, Chronological, CanServe;
    BootCanServe(registrations, b);
    CadenceOfRun(b, now, events, until, k, i, j, window);
  }

  // ---------------------------------------------------------------------------------------
  // The logs are only ever added to.

  /** The later state knows everything the earlier one did. */
  predicate Remembers(s: Server, t: Server) {
    && s.driver.past <= t.driver.past
    && s.ledger.requested <= t.ledger.requested && s.ledger.confirmed <= t.ledger.confirmed
    && s.ledger.handed <= t.ledger.handed && s.ledger.safeReturns <= t.ledger.safeReturns
    && s.ledger.attempts <= t.ledger.attempts && s.ledger.looks <= t.ledger.looks && s.ledger.app <= t.ledger.app
  }

  /** The same, and no telemetry frame was attempted. */
  predicate Follows(s: Server, t: Server) {
    Remembers(s, t) && t.ledger.attempts == s.ledger.attempts
  }

  lemma {:induction false} RequestsRemember(s: Server, rs: seq<Request>)
    ensures Follows(s, WithRequests(s, rs)) && WithRequests(s, rs).driver == s.driver
    decreases |rs|
  {
    if rs != [] {
      RequestsRemember(WithRequest(s, rs[0]), rs[1..]);
    }
  }

  lemma {:induction false} RoutingRemembers(s: Server, os: seq<Outcome>)
    ensures Follows(s, RouteAll(s, os))
  {
    if os != [] {
      RoutingRemembers(s, os[..|os| - 1]);
    }
  }

  lemma EndRemembers(b: Registry.Board, s: Server, a: Answers)
    ensures Follows(s, Serving.EndSession(b, s, a))
  {
    hide Apply, RouteAll, WithRequests, Cancellations;
    var t := RouteAll(s.(queue := Cleared(s.queue)), Cancellations(s.queue));
    RoutingRemembers(s.(queue := Cleared(s.queue)), Cancellations(s.queue));
    ApplyKeepsHistory(b, t.driver, a.promotions);
    var u := t.(cadence := Inactive(t.cadence), driver := Apply(b, t.driver, a.promotions));
    RequestsRemember(WithFacts(u, [Asked(ReasonsOf(a.endRequests))]), a.endRequests);
  }

  lemma DrainStageRemembers(b: Registry.Board, s: Server, accepted: nat, a: Answers)
    ensures Follows(s, DrainStage(b, s, accepted, a).server)
  {
    hide Serving.EndSession, WriteLine, DrainEnds, DrainOutcome, Next;
    if HasPending(s.queue) {
      var e := Next(s.queue);
      WriteKeepsHistory(s.driver, e.line, ClassOf(e.kind), accepted);
      var t := Routed(s, accepted);
      assert Follows(s, t);
      EndRemembers(b, Released(Torn(t, CriticalTransmitFailure)), a);
    }
  }

  lemma RepliedRemembers(s: Server, r: Dispatching.Response)
    ensures Follows(s, Replied(s, r))
  {
    hide EnqueueResultOf, Enqueued;
  }

  lemma AckRemembers(b: Registry.Board, s: Server, timestamp: uint64)
    ensures Follows(s, AckSafeStop(b, s, timestamp))
  {
    hide AckLine, EnqueueResultOf, Enqueued;
  }

  lemma HandleRemembers(b: Registry.Board, s: Server, line: string, a: Answers)
    ensures Follows(s, Handle(b, s, line, a))
  {
    hide Route, Runs, MessageFacts;
    var t := WithFacts(s, MessageFacts(b, line, a.message, a.handlerRequests));
    RouteRemembers(b, t, a.message, if Runs(b, a.message) then a.handlerRequests else []);
  }

  lemma RouteRemembers(b: Registry.Board, s: Server, m: Message, rs: seq<Request>)
    ensures Follows(s, Route(b, s, m, rs))
  {
    hide WithRequests, HeartbeatLine, EnqueueResultOf, OfferLine, Replied, Unanswered, AckSafeStop, Dispatching.Faulted,
         RequestTeardown, ResponseOf;
    var c := s.driver.counters;
    match m
    case CommandMessage(_, _) =>
      var r := ResponseOf(b, m);
      var t := WithCounters(s, Dispatching.Faulted(c.(commandsReceived := c.commandsReceived + 1), r.fault));
      RepliedRemembers(t, r);
      RequestsRemember(Replied(t, r), rs);
    case EstopMessage(_, at) =>
      var t := WithCounters(s, c.(estopReceived := c.estopReceived + 1));
      RequestsRemember(t, rs);
      AckRemembers(b, WithRequests(t, rs), at % TWO_64);
    case HeartbeatMessage(_) => HeartbeatRemembers(b, s, m, rs);
    case _ =>
  }

  lemma HeartbeatRemembers(b: Registry.Board, s: Server, m: Message, rs: seq<Request>)
    requires m.HeartbeatMessage?
    ensures Follows(s, Route(b, s, m, rs))
  {
    hide HeartbeatLine, EnqueueResultOf, Enqueued, RequestTeardown;
  }

  lemma MessageStageRemembers(b: Registry.Board, s: Server, line: string, drained: bool, a: Answers)
    ensures Follows(s, MessageStage(b, s, line, drained, a))
  {
    hide Handle, DrainStage, Serving.EndSession;
    var t := Released(Handle(b, s, line, a));
    HandleRemembers(b, s, line, a);
    EndRemembers(b, t, a);
    DrainStageRemembers(b, t, a.secondAccepted, a);
  }

  lemma PollStageRemembers(b: Registry.Board, s: Server, a: Answers)
    ensures Follows(s, PollStage(b, s, a))
  {
    hide Poll, WithRequests;
    PollKeepsHistory(b, s.driver, a.poll);
    RequestsRemember(PolledAndAsked(b, s, a), a.pollRequests);
  }

  /** The one stage that attempts a frame attempts one at most, at the time its clock reading was taken. */
  lemma TelemetryStageRemembers(b: Registry.Board, s: Server, a: Answers)
    ensures var t := TelemetryStage(b, s, a);
            Remembers(s, t) && t.ledger.attempts in {s.ledger.attempts, s.ledger.attempts + [a.telemetry.at]}
  {
    hide WithRequests, Frame, CountedFrame, TelemetryScheduling.Serviced, IsDue;
    RequestsRemember(FramedAndNoted(b, s, a), a.providerRequests);
  }

  lemma SafetyStageRemembers(b: Registry.Board, s: Server, a: Answers)
    ensures Follows(s, SafetyStage(b, s, a).server)
  {
    hide Serving.EndSession, EventLine, ServiceFails, EnqueueResultOf;
    EndRemembers(b, Torn(SafetyOffer(b, s), CriticalTransmitFailure), a);
  }

  lemma LineStageRemembers(s: Server, a: Answers)
    ensures Follows(s, LineStage(s, a))
  {
    hide AfterNextLine;
    LineKeepsHistory(s.driver, a.late);
  }

  /** What follows the telemetry stage. */
  lemma RestRemembers(b: Registry.Board, s: Server, line: Option<string>, a: Answers)
    ensures var framed := TelemetryStage(b, s, a); Follows(framed, ServeStage(b, s, line, a))
  {
    hide TelemetryStage, SafetyStage, DrainStage, MessageStage, HasPending;
    var framed := TelemetryStage(b, s, a);
    SafetyStageRemembers(b, framed, a);
    var safe := SafetyStage(b, framed, a).server;
    DrainStageRemembers(b, safe, a.firstAccepted, a);
    if line.Some? {
      MessageStageRemembers(b, DrainStage(b, safe, a.firstAccepted, a).server, line.value, HasPending(safe.queue), a);
    }
  }

  lemma StepRemembers(b: Registry.Board, s: Server, a: Answers)
    ensures Remembers(s, ServiceStep(b, s, a))
  {
    hide PollStage, LineStage, NextLine, TelemetryStage, ServeStage, Serving.EndSession;
    StepParts(b, s, a);
  }

  /** A call attempts one frame at most. */
  lemma StepAttempts(b: Registry.Board, s: Server, a: Answers)
    ensures ServiceStep(b, s, a).ledger.attempts in {s.ledger.attempts, s.ledger.attempts + [a.telemetry.at]}
  {
    hide PollStage, LineStage, NextLine, TelemetryStage, ServeStage, Serving.EndSession;
    StepParts(b, s, a);
  }

  lemma StepParts(b: Registry.Board, s: Server, a: Answers)
    ensures var polled := PollStage(b, s, a);
            var line, lined := NextLine(polled.driver, a.late), LineStage(polled, a);
            var framed := TelemetryStage(b, lined, a);
            && Follows(s, lined) && Follows(lined, Serving.EndSession(b, if line.Some? then Released(lined) else lined, a))
            && Remembers(lined, framed) && framed.ledger.attempts in {lined.ledger.attempts, lined.ledger.attempts + [a.telemetry.at]}
            && Follows(framed, ServeStage(b, lined, line, a))
  {
    hide PollStage, LineStage, NextLine, TelemetryStage, ServeStage, Serving.EndSession;
    var polled := PollStage(b, s, a);
    var line, lined := NextLine(polled.driver, a.late), LineStage(polled, a);
    PollStageRemembers(b, s, a);
    LineStageRemembers(polled, a);
    EndRemembers(b, if line.Some? then Released(lined) else lined, a);
    TelemetryStageRemembers(b, lined, a);
    RestRemembers(b, lined, line, a);
  }

  /** Nothing that happened is rewritten later: ended connections, requests, events sent and frames handed over stay what they were. */
  lemma {:induction false} NothingIsForgotten(b: Registry.Board, now: nat, events: seq<Event>, more: seq<Event>)
    ensures Remembers(Play(b, now, events), Play(b, now, events + more))
    decreases |more|
  {
    hide ServiceStep;
    if more == [] {
      assert events + more == events;
    } else {
      var n := |more| - 1;
      NothingIsForgotten(b, now, events, more[..n]);
      assert (events + more)[..|events| + n] == events + more[..n];
      var s := Play(b, now, events + more[..n]);
      match more[n]
      case ServiceCall(a) => StepRemembers(b, s, a);
      case AppRequest(r) => RequestsRemember(s, [r]);
    }
  }
}
