/** What a call brings about, beyond what it keeps: who is served next, what is acknowledged, when a frame is attempted. */
module ServiceProgress {
  import opened Common
  import opened Connections
  import LineFraming
  import opened Platform
  import opened OutboundWriting
  import opened Scheduling
  import opened EventLines
  import opened EstopHandling
  import opened TelemetryScheduling
  import opened Sessions
  import opened Serving
  import opened ServiceInvariant
  import opened ServiceStages
  import opened ServiceRuns
  import opened Applications
  import Registry
  import Schema
  import SchemaWriting
  import Limits

  // ---------------------------------------------------------------------------------------
  // A newcomer takes over.

  /** The poll finds a newcomer while a session is active. */
  predicate Supersedes(d: Driver, a: PollAnswers) {
    d.state.SessionActive? && IsPending(d, a) && a.clientStays
  }

  function LastOf(d: Driver, why: TeardownReason): Ended {
    Ended(d.record, Heard(d.received, d.active.slot), Said(d), why)
  }

  lemma SupersededPoll(b: Registry.Board, d: Driver, a: PollAnswers)
    requires Settled(b, d) && Supersedes(d, a)
    ensures var e := Poll(b, d, a);
            && Sound(b, e) && e.teardown && e.reason.Superseded? && e.replacement == Issued(d.slots) && IsValidHandle(e.replacement)
            && e.active == d.active && e.past == d.past && LastOf(e, Superseded) == LastOf(d, Superseded)
  {
    hide GoodBook, GoodWrites, LineFraming.Refines, IsolatedRecord, GoodPast, StreakExplains, Streak, Sends, Buried, FramedFrom;
    AcceptReplacementIsSound(b, d, a);
    AcceptOccupies(d.slots);
  }

  lemma TornDownStages(b: Registry.Board, s: Server, a: Answers)
    requires Poll(b, s.driver, a.poll).teardown
    ensures ServiceStep(b, s, a) == Serving.EndSession(b, PollStage(b, s, a), a)
    ensures PollStage(b, s, a).driver == Poll(b, s.driver, a.poll)
  {
    hide Poll, WithRequests, Serving.EndSession, ServeStage;
    RequestsRemember(PolledAndAsked(b, s, a), a.pollRequests);
  }

  lemma EndedDriver(b: Registry.Board, s: Server, a: Answers)
    requires Bounded(s.queue)
    ensures Serving.EndSession(b, s, a).driver == Apply(b, s.driver, a.promotions)
  {
    hide Apply, RouteAll, WithRequests, Cancellations, QueueAfterAll, ResolvedAll, TelemetryOutcomes;
    CancellationsCounted(s.queue);
    CancellationsRouted(s.(queue := Cleared(s.queue)), Cancellations(s.queue));
    var t := RouteAll(s.(queue := Cleared(s.queue)), Cancellations(s.queue));
    var u := t.(cadence := Inactive(t.cadence), driver := Apply(b, t.driver, a.promotions));
    RequestsRemember(WithFacts(u, [Asked(ReasonsOf(a.endRequests))]), a.endRequests);
  }

  lemma SupersededApply(b: Registry.Board, d: Driver, ps: seq<Promotion>)
    requires Schema.MaximumSchemaFits(b) && Sound(b, d) && d.teardown && IsValidHandle(d.replacement)
    ensures var e := Apply(b, d, ps);
            && d.past + [LastOf(d, d.reason)] <= e.past
            && if SchemaTaken(b, NextPromotion(ps))
               then e.state.SessionActive? && e.active == d.replacement && |e.past| == |d.past| + 1
               else e.state.Listening? && |e.past| == |d.past| + 2 && e.past[|d.past| + 1].record.handle == d.replacement
                    && e.past[|d.past| + 1].reason.SchemaSendFailure?
  {
    hide GoodPast, Promote, Schema.MaximumSchemaFits, SchemaTaken, GoodBook, StreakExplains, Buried, Connected, LossExplains;
    assert Closing(b, d);
    UnboundIsConserved(b, d);
    var e := TransitionTo(Unbound(d).(teardown := false, reason := ExplicitShutdown), Listening);
    UnbindingOffers(b, e);
    PromotionBindsIff(b, e.(replacement := INVALID_CONNECTION), e.replacement, ps);
  }

  lemma BoundaryParts(b: Registry.Board, s: Server)
    requires Boundary(b, s)
    ensures Settled(b, s.driver) && Schema.MaximumSchemaFits(b) && Bounded(s.queue)
  {
    hide Settled, Sound, Agree, OpenBook, Balanced, Schema.MaximumSchemaFits;
  }

  /**
   A newcomer takes over in the very call that finds it: the connection served so far ends as
   superseded, with all it was sent and nothing more, and the newcomer is served exactly if its
   schema goes out whole; otherwise it has ended too.
   */
  lemma NewcomerTakesOver(registrations: seq<SchemaWriting.Action>, b: Registry.Board, now: nat, events: seq<Event>, a: Answers)
    requires IsBoot(registrations, b) && Supersedes(ServiceRuns.Play(b, now, events).driver, a.poll)
    ensures var d := ServiceRuns.Play(b, now, events).driver;
            var e, h := ServiceStep(b, ServiceRuns.Play(b, now, events), a).driver, Issued(d.slots);
            && d.past + [LastOf(d, Superseded)] <= e.past
            && if SchemaTaken(b, NextPromotion(a.promotions))
               then e.state.SessionActive? && e.active == h && |e.past| == |d.past| + 1
               else e.state.Listening? && |e.past| == |d.past| + 2 && e.past[|d.past| + 1].record.handle == h
  {
    hide ServiceRuns.Play, ServiceStep, Poll, Apply, Boundary, Settled, Sound, LastOf, SchemaTaken, Schema.MaximumSchemaFits, PollStage, IsBoot;
    var s := ServiceRuns.Play(b, now, events);
    BootIsBoundary(registrations, b, now, events);
    BoundaryParts(b, s);
    SupersededPoll(b, s.driver, a.poll);
    TornDownStages(b, s, a);
    PolledBounded(b, s, a);
    EndedDriver(b, PollStage(b, s, a), a);
    SupersededApply(b, Poll(b, s.driver, a.poll), a.promotions);
  }

  lemma PolledBounded(b: Registry.Board, s: Server, a: Answers)
    requires Boundary(b, s)
    ensures Bounded(PollStage(b, s, a).queue)
  {
    hide Boundary, Sound, Agree, OpenBook, Balanced, PollStage, CanServe;
    PollRuns(b, s, a);
  }

  // ---------------------------------------------------------------------------------------
  // A lost link ends its connection.

  /**
   A session is live only while nothing seen of its link said it was lost, and a connection that
   ended for a lost connection or link was seen to lose it.
   */
  lemma LostLinksEnd(registrations: seq<SchemaWriting.Action>, b: Registry.Board, now: nat, events: seq<Event>)
    requires IsBoot(registrations, b)
    ensures var d := ServiceRuns.Play(b, now, events).driver;
            && (d.state.SessionActive? ==> Saw(Link.Closed) !in Said(d) && Saw(Down) !in Said(d))
            && (forall i :: 0 <= i < |d.past| ==>
                  && (d.past[i].reason.ConnectionLost? ==> Saw(Link.Closed) in d.past[i].said)
                  && (d.past[i].reason.LinkLost? ==> Saw(Down) in d.past[i].said))
  {
    hide CanServe, Agree, OpenBook, Balanced, GoodBook, GoodWrites, IsolatedRecord, LineFraming.Refines, Sends, Expiries, Streak,
         StreakExplains, FramedFrom, ServiceStep;
    BootIsBoundary(registrations, b, now, events);
  }

  // ---------------------------------------------------------------------------------------
  // Stops and heartbeats are acknowledged.

  /** The acknowledgement is queued behind what waits, or the queue is full and the session ends. */
  predicate IsQueuedOrEnds(s: Server, t: Server, kind: Kind, line: string) {
    && (if |s.queue.critical| < CAPACITY
        then !t.driver.teardown && t.queue.critical == s.queue.critical + [Entry(kind, line)]
        else t.driver.teardown && t.queue.critical == s.queue.critical && s.driver.record.book.triggers >= 4)
    && t.queue.telemetry == s.queue.telemetry
  }

  lemma OfferQueues(s: Server, kind: Kind, line: string)
    requires IsValidLine(line) && Bounded(s.queue) && !s.driver.teardown && !kind.EstopTriggered? && !kind.Telemetry?
    requires |s.queue.critical| <= s.driver.record.book.triggers
    ensures IsQueuedOrEnds(s, OfferOrEnd(s, kind, line), kind, line)
  {
    hide IsValidLine;
    assert CAPACITY == 4;
  }

  lemma RunningRoom(b: Registry.Board, s: Server)
    requires Running(b, s, 0)
    ensures CanServe(b) && Bounded(s.queue) && |s.queue.critical| <= s.driver.record.book.triggers
    ensures |b.identity.boardId| <= Limits.MAX_BOARD_ID_BYTES
  {
    hide Sound, Balanced, MatchesWrites, Fifo, Sessions.CriticalOnly, ReadingsSpaced, Agree, Schema.MaximumSchemaFits;
  }

  lemma AckIsValid(boardId: cstring, timestamp: uint64)
    requires |boardId| <= Limits.MAX_BOARD_ID_BYTES
    ensures AckLine(boardId, timestamp).Some? && IsValidLine(AckLine(boardId, timestamp).value)
  {
    hide AckLine;
    AckLineFits(boardId, timestamp);
  }

  lemma HeartbeatIsValid(boardId: cstring, n: uint64)
    requires |boardId| <= Limits.MAX_BOARD_ID_BYTES
    ensures HeartbeatLine(boardId, n).Some? && IsValidLine(HeartbeatLine(boardId, n).value)
  {
    hide HeartbeatLine;
    HeartbeatLineFits(boardId, n);
  }

  /** What is answered depends on the lines that wait and on the connection's book. */
  lemma SameRoom(s: Server, t: Server, u: Server, kind: Kind, line: string)
    requires IsQueuedOrEnds(t, u, kind, line)
    requires t.queue.critical == s.queue.critical && t.queue.telemetry == s.queue.telemetry
    requires t.driver.record.book.triggers == s.driver.record.book.triggers
    ensures IsQueuedOrEnds(s, u, kind, line)
  {
  }

  lemma AckOffers(b: Registry.Board, s: Server, timestamp: uint64)
    requires AckLine(b.identity.boardId, timestamp).Some?
    ensures AckSafeStop(b, s, timestamp) == OfferOrEnd(SafeReported(s), EstopAck, AckLine(b.identity.boardId, timestamp).value)
  {
    hide AckLine, OfferLine, EnqueueResultOf, Torn;
  }

  lemma StopRoute(b: Registry.Board, s: Server, m: Message, rs: seq<Request>)
    requires Running(b, s, 0) && !s.driver.teardown && m.EstopMessage?
    ensures var t := Route(b, s, m, rs);
            if m.safe
            then AckLine(b.identity.boardId, m.at % TWO_64).Some?
                 && IsQueuedOrEnds(s, t, EstopAck, AckLine(b.identity.boardId, m.at % TWO_64).value)
            else !t.driver.teardown && t.queue.critical == s.queue.critical && t.queue.telemetry == s.queue.telemetry
  {
    hide Running, WithRequests, AckLine, IsQueuedOrEnds, AckSafeStop;
    var c := s.driver.counters.(estopReceived := s.driver.counters.estopReceived + 1);
    CountersRun(b, s, c, 0);
    RequestsRun(b, WithCounters(s, c), rs, 0);
    var t := WithRequests(WithCounters(s, c), rs);
    AckQueues(b, s, t, m.at % TWO_64);
  }

  lemma AckQueues(b: Registry.Board, s: Server, t: Server, timestamp: uint64)
    requires Running(b, t, 0) && !t.driver.teardown && t.driver.record == s.driver.record
    requires t.queue.critical == s.queue.critical && t.queue.telemetry == s.queue.telemetry
    ensures AckLine(b.identity.boardId, timestamp).Some?
    ensures IsQueuedOrEnds(s, AckSafeStop(b, t, timestamp), EstopAck, AckLine(b.identity.boardId, timestamp).value)
  {
    hide Running, AckLine, IsValidLine, OfferOrEnd, IsQueuedOrEnds, AckSafeStop;
    RunningRoom(b, t);
    AckIsValid(b.identity.boardId, timestamp);
    var ack := AckLine(b.identity.boardId, timestamp).value;
    OfferQueues(SafeReported(t), EstopAck, ack);
    AckOffers(b, t, timestamp);
    SameRoom(s, SafeReported(t), OfferOrEnd(SafeReported(t), EstopAck, ack), EstopAck, ack);
  }

  /** A stop whose hook reported a safe state is acknowledged, with the time of its acknowledgement; any other is not. */
  lemma StopIsAcknowledgedIffSafe(b: Registry.Board, s: Server, line: string, a: Answers)
    requires Running(b, s, 0) && !s.driver.teardown && a.message.EstopMessage?
    ensures var t, id := Handle(b, s, line, a), b.identity.boardId;
            if a.message.safe
            then AckLine(id, a.message.at % TWO_64).Some? && IsQueuedOrEnds(s, t, EstopAck, AckLine(id, a.message.at % TWO_64).value)
            else !t.driver.teardown && t.queue.critical == s.queue.critical && t.queue.telemetry == s.queue.telemetry
  {
    hide Running, Route, MessageFacts, AckLine;
    var noted := WithFacts(s, MessageFacts(b, line, a.message, a.handlerRequests));
    NotesRun(b, s, noted.ledger, 0);
    StopRoute(b, noted, a.message, a.handlerRequests);
  }

  lemma HeartbeatRoute(b: Registry.Board, s: Server, m: Message, rs: seq<Request>)
    requires Running(b, s, 0) && !s.driver.teardown && m.HeartbeatMessage?
    ensures HeartbeatLine(b.identity.boardId, m.seq_).Some?
    ensures IsQueuedOrEnds(s, Route(b, s, m, rs), HeartbeatAck, HeartbeatLine(b.identity.boardId, m.seq_).value)
  {
    hide Running, HeartbeatLine, IsValidLine, OfferLine, EnqueueResultOf, IsQueuedOrEnds, Torn;
    RunningRoom(b, s);
    HeartbeatIsValid(b.identity.boardId, m.seq_);
    var c := s.driver.counters.(heartbeatReceived := s.driver.counters.heartbeatReceived + 1);
    var line, t := HeartbeatLine(b.identity.boardId, m.seq_).value, WithCounters(s, c);
    OfferQueues(t, HeartbeatAck, line);
    SameRoom(s, t, OfferOrEnd(t, HeartbeatAck, line), HeartbeatAck, line);
  }

  lemma HeartbeatIsAnswered(b: Registry.Board, s: Server, line: string, a: Answers)
    requires Running(b, s, 0) && !s.driver.teardown && a.message.HeartbeatMessage?
    ensures HeartbeatLine(b.identity.boardId, a.message.seq_).Some?
    ensures IsQueuedOrEnds(s, Handle(b, s, line, a), HeartbeatAck, HeartbeatLine(b.identity.boardId, a.message.seq_).value)
  {
    hide Running, Route, MessageFacts, HeartbeatLine;
    var noted := WithFacts(s, MessageFacts(b, line, a.message, a.handlerRequests));
    NotesRun(b, s, noted.ledger, 0);
    HeartbeatRoute(b, noted, a.message, if Runs(b, a.message) then a.handlerRequests else []);
  }

  /** In every run, whatever came before: a controller's stop is acknowledged exactly if the hook reported a safe state. */
  lemma EveryStopIsAnswered(registrations: seq<SchemaWriting.Action>, b: Registry.Board, now: nat, events: seq<Event>,
                            line: string, a: Answers)
    requires IsBoot(registrations, b) && BeforeHandling(b, ServiceRuns.Play(b, now, events), a).Some? && a.message.EstopMessage?
    ensures var s, id := BeforeHandling(b, ServiceRuns.Play(b, now, events), a).value, b.identity.boardId;
            var t := Handle(b, s, line, a);
            if a.message.safe
            then AckLine(id, a.message.at % TWO_64).Some? && IsQueuedOrEnds(s, t, EstopAck, AckLine(id, a.message.at % TWO_64).value)
            else !t.driver.teardown && t.queue.critical == s.queue.critical && t.queue.telemetry == s.queue.telemetry
  {
    hide Boundary, Running, BeforeHandling, Handle, IsQueuedOrEnds, AckLine, ServiceStep, IsBoot, ServiceRuns.Play;
    BootIsBoundary(registrations, b, now, events);
    HandlesWhileRunning(b, ServiceRuns.Play(b, now, events), a);
    StopIsAcknowledgedIffSafe(b, BeforeHandling(b, ServiceRuns.Play(b, now, events), a).value, line, a);
  }

  /** And every heartbeat is answered with its own number. */
  lemma EveryHeartbeatIsAnswered(registrations: seq<SchemaWriting.Action>, b: Registry.Board, now: nat, events: seq<Event>,
                                 line: string, a: Answers)
    requires IsBoot(registrations, b) && BeforeHandling(b, ServiceRuns.Play(b, now, events), a).Some? && a.message.HeartbeatMessage?
    ensures var s, answer := BeforeHandling(b, ServiceRuns.Play(b, now, events), a).value, HeartbeatLine(b.identity.boardId, a.message.seq_);
            answer.Some? && IsQueuedOrEnds(s, Handle(b, s, line, a), HeartbeatAck, answer.value)
  {
    hide Boundary, Running, BeforeHandling, Handle, IsQueuedOrEnds, HeartbeatLine, ServiceStep, IsBoot, ServiceRuns.Play;
    BootIsBoundary(registrations, b, now, events);
    HandlesWhileRunning(b, ServiceRuns.Play(b, now, events), a);
    HeartbeatIsAnswered(b, BeforeHandling(b, ServiceRuns.Play(b, now, events), a).value, line, a);
  }

  // ---------------------------------------------------------------------------------------
  // When a frame is attempted.

  /**
   In a live session a call attempts a frame exactly if none was attempted on the connection yet, or
   at least the period has passed since the last, by the clock.
   */
  lemma FrameIsAttemptedIff(b: Registry.Board, s: Server, a: Answers)
    requires Running(b, s, 1) && IsLive(s)
    ensures var before, at := s.driver.record.book.attempts, a.telemetry.at;
            TelemetryStage(b, s, a).driver.record.book.attempts ==
              if before == [] || (at - before[|before| - 1]) % TWO_64 >= PERIOD then before + [at] else before
  {
    hide OpenBook, Agree, Sound, Balanced, CanServe, WithRequests, Frame, BuiltLine, CountedFrame, TelemetryScheduling.Serviced;
    var before, at := s.driver.record.book.attempts, a.telemetry.at;
    if before != [] {
      ElapsedModulo(at, before[|before| - 1]);
    }
    RequestsRemember(FramedAndNoted(b, s, a), a.providerRequests);
    IsInStep(b, s);
  }

  lemma IsInStep(b: Registry.Board, s: Server)
    requires Running(b, s, 1)
    ensures InStep(s.driver.record.book, s.cadence)
  {
    hide OpenBook, Agree, Sound, Balanced, CanServe;
  }

  lemma ElapsedModulo(x: nat, y: nat)
    ensures (x % TWO_64 - y % TWO_64) % TWO_64 == (x - y) % TWO_64
  {
  }
}
