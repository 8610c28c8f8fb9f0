/**
 The counters of transmissions against the lines written on all connections: every line cut short is
 counted as what it was, every schema that went out whole, every supersession, and every attempt at
 a telemetry frame either numbers one or is counted as dropped.
 */
module ServiceAccounts {
  import opened Common
  import opened CounterBank
  import opened Connections
  import LineFraming
  import opened OutboundWriting
  import opened Platform
  import opened Scheduling
  import opened EventLines
  import opened EstopHandling
  import opened TelemetryScheduling
  import opened Sessions
  import opened Serving
  import opened ServiceInvariant
  import opened ServiceStages
  import opened ServiceRuns
  import opened Applications
  import Dispatching
  import Registry
  import Schema
  import SchemaWriting

  // ---------------------------------------------------------------------------------------
  // What the records of the connections amount to.

  /** The lines of a class that the transport took only in part. */
  function CutShort(cls: MessageClass, ws: seq<Write>): nat {
    if ws == [] then 0
    else
      var w := ws[|ws| - 1];
      CutShort(cls, ws[..|ws| - 1]) + if w.cls == cls && IsValidWireLine(w.line) && !IsComplete(w) then 1 else 0
  }

  /** Whether the schema, which is the first line, went out whole. */
  function SchemaSent(ws: seq<Write>): nat {
    if ws != [] && IsValidWireLine(ws[0].line) && IsComplete(ws[0]) then 1 else 0
  }

  datatype Account = Account(failures: int, expired: int, schemas: int, superseded: int)

  function Plus(a: Account, b: Account): Account {
    Account(a.failures + b.failures, a.expired + b.expired, a.schemas + b.schemas, a.superseded + b.superseded)
  }

  function Minus(a: Account, b: Account): Account {
    Account(a.failures - b.failures, a.expired - b.expired, a.schemas - b.schemas, a.superseded - b.superseded)
  }

  const NONE := Account(0, 0, 0, 0)

  function AccountOf(ws: seq<Write>, superseded: bool): Account {
    Account(CutShort(CriticalMessage, ws), CutShort(TelemetryMessage, ws), SchemaSent(ws), if superseded then 1 else 0)
  }

  function PastAccount(past: seq<Ended>): Account {
    if past == [] then NONE
    else Plus(PastAccount(past[..|past| - 1]), AccountOf(past[|past| - 1].record.writes, past[|past| - 1].reason.Superseded?))
  }

  /** What happened on the connections that ended and on the one that is bound. */
  function Happened(d: Driver): Account {
    Plus(PastAccount(d.past), AccountOf(d.record.writes, d.teardown && d.reason.Superseded?))
  }

  /** What the counters say happened. */
  function Counted(c: Values): Account {
    Account(c.txFailures, c.telemetryDropped, c.schemasSent, c.sessionsSuperseded)
  }

  /** What the counters say beyond what happened on the connections. */
  function Excess(d: Driver): Account {
    Minus(Counted(d.counters), Happened(d))
  }

  lemma CutShortAppend(cls: MessageClass, ws: seq<Write>, w: Write)
    ensures CutShort(cls, ws + [w]) == CutShort(cls, ws) + if w.cls == cls && IsValidWireLine(w.line) && !IsComplete(w) then 1 else 0
  {
    assert (ws + [w])[..|ws|] == ws;
  }

  lemma PastAppend(past: seq<Ended>, last: Ended)
    ensures PastAccount(past + [last]) == Plus(PastAccount(past), AccountOf(last.record.writes, last.reason.Superseded?))
  {
    assert (past + [last])[..|past|] == past;
  }

  // ---------------------------------------------------------------------------------------
  // The lifecycle.

  /** The excess depends on little. */
  lemma ExcessOfSame(d: Driver, e: Driver)
    requires Counted(e.counters) == Counted(d.counters) && e.past == d.past && e.record.writes == d.record.writes
    requires (e.teardown && e.reason.Superseded?) <==> (d.teardown && d.reason.Superseded?)
    ensures Excess(e) == Excess(d)
  {
  }

  lemma TeardownBalances(d: Driver, why: TeardownReason)
    requires !why.Superseded?
    ensures Excess(RequestTeardown(d, why)) == Excess(d)
  {
    hide CutShort, SchemaSent, PastAccount;
  }

  /** The first line on a connection counts as its schema; it is counted as sent only later. */
  function FirstWhole(d: Driver, line: string, accepted: nat): int {
    if d.record.writes == [] && d.transport.Some? && IsValidWireLine(line) && accepted >= |line| then 1 else 0
  }

  lemma WroteBalances(d: Driver, w: Write)
    requires !IsValidWireLine(w.line)
    ensures Excess(d.(record := Wrote(d.record, w))) == Excess(d)
  {
    hide PastAccount, IsValidWireLine;
    CutShortAppend(CriticalMessage, d.record.writes, w);
    CutShortAppend(TelemetryMessage, d.record.writes, w);
  }

  lemma TransmittedBalances(d: Driver, slot: nat, line: string, cls: MessageClass, n: nat)
    requires n <= |line| && IsValidWireLine(line) && d.transport.Some?
    ensures var e := Transmitted(d, slot, line, cls, n);
            Excess(e) == Excess(d).(schemas := Excess(d).schemas - if d.record.writes == [] && n == |line| then 1 else 0)
  {
    hide CutShort, PastAccount, IsValidWireLine, StreakAfter, At, Heard;
    CutShortAppend(CriticalMessage, d.record.writes, Write(line, cls, n));
    CutShortAppend(TelemetryMessage, d.record.writes, Write(line, cls, n));
  }

  lemma WriteBalances(d: Driver, line: string, cls: MessageClass, accepted: nat)
    ensures var e := WriteLine(d, line, cls, accepted).driver;
            Excess(e) == Excess(d).(schemas := Excess(d).schemas - FirstWhole(d, line, accepted))
  {
    hide Excess, IsValidWireLine, TeardownIfAny, Transmitted, TeardownAfter;
    if !IsValidWireLine(line) {
      WroteBalances(d, Write(line, cls, 0));
    } else if d.transport.Some? {
      var n := if accepted <= |line| then accepted else |line|;
      var t := Transmitted(d, d.transport.value, line, cls, n);
      TransmittedBalances(d, d.transport.value, line, cls, n);
      AskedByWriter(t, d.failures, cls, n == |line|);
      ExcessOfSame(t, TeardownIfAny(t, TeardownAfter(d.failures, cls, n == |line|)));
    }
  }

  /** The writer never asks for supersession. */
  lemma AskedByWriter(d: Driver, failures: nat, cls: MessageClass, whole: bool)
    ensures var e := TeardownIfAny(d, TeardownAfter(failures, cls, whole));
            (e.teardown && e.reason.Superseded?) <==> (d.teardown && d.reason.Superseded?)
  {
  }

  lemma UnboundBalances(d: Driver)
    requires d.teardown && IsValidHandle(d.active)
    ensures var e := TransitionTo(Unbound(d).(teardown := false, reason := ExplicitShutdown), Listening);
            Excess(e) == Excess(d) && e.record.writes == [] && !e.teardown
  {
    hide CutShort, PastAccount, Aborted, Heard;
    PastAppend(d.past, Ended(d.record, Heard(d.received, d.active.slot), Said(d), d.reason));
    NothingWritten();
  }

  lemma NothingWritten()
    ensures AccountOf([], false) == NONE
  {
  }

  lemma BoundBalances(d: Driver, h: ConnectionHandle)
    requires d.record.writes == [] && !d.teardown
    ensures var e := Bound(d, h); Excess(e) == Excess(d) && e.record.writes == [] && !e.teardown && e.transport.Some? && e.active == h
  {
    hide CutShort, PastAccount;
  }

  lemma PromoteBalances(b: Registry.Board, d: Driver, h: ConnectionHandle, ps: seq<Promotion>)
    requires d.record.writes == [] && !d.teardown && Schema.MaximumSchemaFits(b)
    ensures Excess(Promote(b, d, h, ps)) == Excess(d)
    decreases Held(d), 1
  {
    hide WriteLine, Schema.SchemaLine, Apply, Excess, Schema.MaximumSchemaFits, IsValidWireLine;
    if !Resolves(d.slots, h) {
      RejectedBalances(d);
    } else {
      var p := NextPromotion(ps);
      var e := Bound(d, h);
      BoundBalances(d, h);
      ResolvesIsValid(d.slots, h);
      SchemaForPromotion(b, p.timestamp % TWO_64);
      var line := Schema.SchemaLine(b, p.timestamp % TWO_64).value;
      var s := WriteLine(e, line, CriticalMessage, p.accepted);
      WriteBalances(e, line, CriticalMessage, p.accepted);
      FirstWriteResult(e, line, p.accepted);
      ReplacedBalances(s.driver);
      ApplyBalances(b, ReplaceReason(s.driver, SchemaSendFailure), LaterPromotions(ps));
      SchemaCounted(s.driver);
    }
  }

  lemma ResolvesIsValid(slots: seq<Slot>, h: ConnectionHandle)
    requires Resolves(slots, h)
    ensures IsValidHandle(h)
  {
  }

  lemma FirstWriteResult(d: Driver, line: string, accepted: nat)
    requires d.record.writes == [] && d.transport.Some? && IsValidWireLine(line) && !d.teardown
    ensures var s := WriteLine(d, line, CriticalMessage, accepted);
            && (s.result == SendResult.Sent <==> FirstWhole(d, line, accepted) == 1) && s.driver.active == d.active
            && !(s.driver.teardown && s.driver.reason.Superseded?)
  {
    hide IsValidWireLine, StreakAfter, CountedAfter, At, Heard;
  }

  lemma ReplacedBalances(d: Driver)
    requires !(d.teardown && d.reason.Superseded?)
    ensures var e := ReplaceReason(d, SchemaSendFailure); Excess(e) == Excess(d) && e.teardown && e.active == d.active
  {
    hide CutShort, SchemaSent, PastAccount;
  }

  lemma SchemaCounted(d: Driver)
    ensures var e := TransitionTo(d.(counters := d.counters.(schemasSent := d.counters.schemasSent + 1)), SessionActive);
            Excess(e) == Excess(d).(schemas := Excess(d).schemas + 1)
  {
    hide CutShort, SchemaSent, PastAccount;
  }

  lemma RejectedBalances(d: Driver)
    ensures Excess(Rejected(d)) == Excess(d)
  {
  }

  lemma ApplyBalances(b: Registry.Board, d: Driver, ps: seq<Promotion>)
    requires Schema.MaximumSchemaFits(b) && (d.teardown ==> IsValidHandle(d.active))
    ensures Excess(Apply(b, d, ps)) == Excess(d)
    decreases Held(d), 0
  {
    hide Promote, Excess, Unbound, Schema.MaximumSchemaFits;
    if d.teardown {
      UnboundBalances(d);
      UnboundKeepsTheRest(d);
      var e := TransitionTo(Unbound(d).(teardown := false, reason := ExplicitShutdown), Listening);
      if IsValidHandle(e.replacement) {
        var f := e.(replacement := INVALID_CONNECTION);
        ExcessOfSame(e, f);
        PromoteBalances(b, f, e.replacement, ps);
      }
    }
  }

  lemma LossBalances(d: Driver, link: Link)
    ensures Excess(LinkLoss(d, link)) == Excess(d) && Excess(DetectLoss(d, link)) == Excess(d)
  {
    hide Excess, Resolves, RequestTeardown, Noted;
    var e := Noted(d, [Saw(link)]);
    ExcessOfSame(d, e);
    TeardownBalances(e, ConnectionLost);
    TeardownBalances(e, LinkLost);
    TeardownBalances(d, ConnectionLost);
  }

  lemma {:induction false} ReadBalances(d: Driver, events: seq<ReadEvent>)
    ensures Excess(ReadLoop(d, events)) == Excess(d)
    decreases |events|
  {
    hide Excess, LinkLoss, DetectLoss, LineFraming.Feed, Noted;
    if !LineFraming.HasLine(d.framer) && events != [] {
      match events[0]
      case LinkIs(link) => LossBalances(d, link);
      case NothingRead(link) =>
        ExcessOfSame(d, Noted(d, ReadSights("")));
        LossBalances(Noted(d, ReadSights("")), link);
      case Chunk(bytes) =>
        ExcessOfSame(d, TakeChunk(d, bytes));
        ReadBalances(TakeChunk(d, bytes), events[1..]);
    }
  }

  lemma ReadingBalances(d: Driver, events: seq<ReadEvent>)
    ensures Excess(ReadAvailable(d, events)) == Excess(d)
  {
    hide Excess, ReadLoop, Resolves, RequestTeardown;
    ReadBalances(d, events);
    TeardownBalances(d, ConnectionLost);
  }

  lemma AcceptingBalances(d: Driver, a: PollAnswers)
    requires !d.teardown
    ensures Excess(AcceptReplacement(d, a)) == Excess(d)
  {
    hide CutShort, SchemaSent, PastAccount, Resolves, Connections.Accepted, Issued, IsValidHandle, At;
  }

  lemma ListeningBalances(b: Registry.Board, d: Driver, a: PollAnswers)
    requires d.record.writes == [] && !d.teardown && Schema.MaximumSchemaFits(b)
    ensures Excess(PumpListening(b, d, a)) == Excess(d)
  {
    hide Excess, Promote, Resolves, Connections.Accepted, Issued, FirstReusable, Schema.MaximumSchemaFits;
    var h, e := AcceptHandle(d, a), Sessions.AcceptNext(d, a);
    ExcessOfSame(d, e);
    RejectedBalances(e);
    ExcessOfSame(e, CountAccepted(e));
    PromoteBalances(b, CountAccepted(e), h, a.promotions);
  }

  lemma SessionBalances(d: Driver, a: PollAnswers)
    requires !d.teardown
    ensures Excess(PollSession(d, a)) == Excess(d)
  {
    hide Excess, AcceptReplacement, DetectLoss, ReadAvailable, IsPending;
    AcceptingBalances(d, a);
    LossBalances(d, a.link);
    ReadingBalances(DetectLoss(d, a.link), a.events);
  }

  lemma PollBalances(b: Registry.Board, d: Driver, a: PollAnswers)
    requires Settled(b, d) && Schema.MaximumSchemaFits(b)
    ensures Excess(Poll(b, d, a)) == Excess(d)
  {
    hide Excess, PumpListening, PollSession, Schema.MaximumSchemaFits, Settled;
    SettledIsQuiet(b, d);
    match d.state
    case Listening => ListeningBalances(b, d, a);
    case NetworkStarting => ExcessOfSame(d, PumpNetworkStarting(d, a));
    case _ => SessionBalances(d, a);
  }

  lemma SettledIsQuiet(b: Registry.Board, d: Driver)
    requires Settled(b, d)
    ensures !d.teardown && (d.state.Listening? ==> d.record.writes == [])
  {
    hide Sessions.Conserved, GoodPast, Connected, GoodBook;
  }

  // ---------------------------------------------------------------------------------------
  // The stages of a call.

  /** What the counters say beyond what happened; an attempt that numbers no frame is a frame dropped. */
  function Balance(s: Server): Account {
    var x := Excess(s.driver);
    x.(expired := x.expired + (s.cadence.nextSeq - 1) - |s.ledger.attempts|)
  }

  lemma BalanceOfSame(s: Server, t: Server)
    requires Excess(t.driver) == Excess(s.driver)
    requires t.cadence.nextSeq == s.cadence.nextSeq && t.ledger.attempts == s.ledger.attempts
    ensures Balance(t) == Balance(s)
  {
  }

  lemma {:induction false} RequestsBalance(s: Server, rs: seq<Request>)
    ensures var t := WithRequests(s, rs); t.driver == s.driver && t.cadence == s.cadence && t.ledger.attempts == s.ledger.attempts
    decreases |rs|
  {
    if rs != [] {
      RequestsBalance(WithRequest(s, rs[0]), rs[1..]);
    }
  }

  lemma PollStageBalances(b: Registry.Board, s: Server, a: Answers)
    requires Boundary(b, s)
    ensures Balance(PollStage(b, s, a)) == Balance(s)
  {
    hide Boundary, Running, Excess, Poll, WithRequests, Settled;
    BoundaryIs(b, s);
    PollBalances(b, s.driver, a.poll);
    RequestsBalance(PolledAndAsked(b, s, a), a.pollRequests);
    BalanceOfSame(s, PollStage(b, s, a));
  }

  lemma LineStageBalances(s: Server, a: Answers)
    ensures Balance(LineStage(s, a)) == Balance(s)
  {
    hide Excess, ReadAvailable;
    var d := s.driver;
    if IsActive(d) && !d.teardown {
      ReadingBalances(d, a.late);
      var e := if LineFraming.HasLine(d.framer) then d else ReadAvailable(d, a.late);
      ExcessOfSame(e, LineStage(s, a).driver);
    }
  }

  /** Routing outcomes moves no counter of a transmission. */
  lemma {:induction false} RoutingBalances(s: Server, os: seq<Outcome>)
    ensures var t := RouteAll(s, os);
            && Excess(t.driver) == Excess(s.driver) && t.cadence == s.cadence && t.ledger.attempts == s.ledger.attempts
            && t.driver.teardown == s.driver.teardown && t.driver.active == s.driver.active
  {
    hide Excess, Resolved, QueueAfterOutcome;
    if os != [] {
      var t := RouteAll(s, os[..|os| - 1]);
      RoutingBalances(s, os[..|os| - 1]);
      ExcessOfSame(t.driver, RouteAll(s, os).driver);
    }
  }

  lemma EndBalances(b: Registry.Board, s: Server, a: Answers)
    requires CanServe(b) && (s.driver.teardown ==> IsValidHandle(s.driver.active))
    ensures Balance(Serving.EndSession(b, s, a)) == Balance(s)
  {
    hide Excess, Apply, RouteAll, WithRequests, Cancellations, CanServe;
    var t := RouteAll(s.(queue := Cleared(s.queue)), Cancellations(s.queue));
    RoutingBalances(s.(queue := Cleared(s.queue)), Cancellations(s.queue));
    ServableFits(b);
    ApplyBalances(b, t.driver, a.promotions);
    var u := t.(cadence := Inactive(t.cadence), driver := Apply(b, t.driver, a.promotions));
    RequestsBalance(WithFacts(u, [Asked(ReasonsOf(a.endRequests))]), a.endRequests);
    BalanceOfSame(s, Serving.EndSession(b, s, a));
  }

  /** An attempt numbers a frame, or the frame is counted as dropped. */
  lemma FramedBalances(boardId: cstring, s: Server, p: Provided)
    ensures Balance(Framed(boardId, s, p)) == Balance(s)
  {
    hide CutShort, SchemaSent, PastAccount, BuiltLine;
  }

  lemma TelemetryStageBalances(b: Registry.Board, s: Server, a: Answers)
    ensures Balance(TelemetryStage(b, s, a)) == Balance(s)
  {
    hide Excess, Framed, WithRequests, IsDue;
    var t := FramedAndNoted(b, s, a);
    FramedBalances(b.identity.boardId, s, a.telemetry);
    RequestsBalance(t, a.providerRequests);
    BalanceOfSame(Framed(b.identity.boardId, s, a.telemetry), t);
    BalanceOfSame(t, WithRequests(t, a.providerRequests));
    BalanceOfSame(s, s.(cadence := Inactive(s.cadence)));
  }

  lemma TornBalances(s: Server, why: TeardownReason)
    requires !why.Superseded?
    ensures Balance(Torn(s, why)) == Balance(s) && Torn(s, why).driver.active == s.driver.active
    ensures Balance(Released(Torn(s, why))) == Balance(s) && Released(Torn(s, why)).driver.active == s.driver.active
  {
    hide Excess, RequestTeardown;
    TeardownBalances(s.driver, why);
    ExcessOfSame(Torn(s, why).driver, Released(Torn(s, why)).driver);
  }

  lemma SafetyStageBalances(b: Registry.Board, s: Server, a: Answers)
    requires Running(b, s, 1) && !s.driver.teardown && Ready(s.driver)
    ensures Balance(SafetyStage(b, s, a).server) == Balance(s)
  {
    hide Running, Excess, Balance, Serving.EndSession, ServiceFails, SafetyOffer, Torn;
    RunningServes(b, s);
    if IsLive(s) {
      NothingToDrain(b, s);
      OfferBalances(b, s);
      TornBalances(SafetyOffer(b, s), CriticalTransmitFailure);
      EndBalances(b, Torn(SafetyOffer(b, s), CriticalTransmitFailure), a);
    }
  }

  lemma OfferBalances(b: Registry.Board, s: Server)
    ensures Balance(SafetyOffer(b, s)) == Balance(s) && SafetyOffer(b, s).driver.active == s.driver.active
  {
    hide Excess, EventLine, EnqueueResultOf, EstopHandling.Serviced, ServicedQueue;
    ExcessOfSame(s.driver, SafetyOffer(b, s).driver);
  }

  lemma RunningServes(b: Registry.Board, s: Server)
    requires Running(b, s, 1)
    ensures CanServe(b)
  {
    hide CanServe, Sound, Agree, OpenBook, Balanced;
  }

  lemma RoutedBalances(s: Server, accepted: nat)
    requires HasPending(s.queue) && s.driver.record.writes != []
    ensures Balance(Routed(s, accepted)) == Balance(s)
  {
    hide Excess, WriteLine, Next, Drained, Resolved, QueueAfterOutcome;
    var e := Next(s.queue);
    var d := Sessions.SendActiveLine(s.driver, e.line, ClassOf(e.kind), accepted).driver;
    WriteBalances(s.driver, e.line, ClassOf(e.kind), accepted);
    ExcessOfSame(d, Routed(s, accepted).driver);
  }

  lemma DrainStageBalances(b: Registry.Board, s: Server, accepted: nat, a: Answers)
    requires Running(b, s, 1) && !s.driver.teardown && Ready(s.driver)
    ensures Balance(DrainStage(b, s, accepted, a).server) == Balance(s)
  {
    hide Running, Balance, Serving.EndSession, Serving.Drain, Serving.RouteOutcome, DrainOutcome, DrainEnds, Torn;
    NothingToDrain(b, s);
    RunningServes(b, s);
    if HasPending(s.queue) {
      var t := Routed(s, accepted);
      DrainRuns(b, s, accepted);
      RoutedBalances(s, accepted);
      TornBalances(t, CriticalTransmitFailure);
      EndBalances(b, Released(Torn(t, CriticalTransmitFailure)), a);
    }
  }

  lemma OfferLineBalances(s: Server, kind: Kind, line: string)
    ensures Balance(OfferLine(s, kind, line)) == Balance(s)
  {
    hide Excess, EnqueueResultOf, Enqueued;
    ExcessOfSame(s.driver, OfferLine(s, kind, line).driver);
  }

  lemma RepliedBalances(s: Server, r: Dispatching.Response)
    ensures Balance(Replied(s, r)) == Balance(s)
  {
    hide Excess, OfferLine, Unanswered;
    if r.line.Some? {
      var u := OfferLine(s, CommandResponse, r.line.value);
      OfferLineBalances(s, CommandResponse, r.line.value);
      ExcessOfSame(u.driver, Replied(s, r).driver);
    }
  }

  lemma CountersBalance(s: Server, c: Values)
    requires Counted(c) == Counted(s.driver.counters)
    ensures Balance(WithCounters(s, c)) == Balance(s)
  {
    hide Excess;
    ExcessOfSame(s.driver, WithCounters(s, c).driver);
  }

  lemma AskedBalances(s: Server, rs: seq<Request>)
    ensures Balance(WithRequests(s, rs)) == Balance(s)
  {
    hide Excess, WithRequests;
    RequestsBalance(s, rs);
  }

  lemma CommandBalances(b: Registry.Board, s: Server, m: Message, rs: seq<Request>)
    requires m.CommandMessage?
    ensures Balance(Route(b, s, m, rs)) == Balance(s)
  {
    hide Balance, WithRequests, Replied, Unanswered, Torn, ResponseOf;
    var c, r := s.driver.counters, ResponseOf(b, m);
    var k := Dispatching.Faulted(c.(commandsReceived := c.commandsReceived + 1), r.fault);
    var t := WithCounters(s, k);
    CountersBalance(s, k);
    RepliedBalances(t, r);
    AskedBalances(Replied(t, r), rs);
    TornBalances(WithRequests(Replied(t, r), rs), CriticalTransmitFailure);
  }

  lemma AckBalances(b: Registry.Board, s: Server, timestamp: uint64)
    ensures Balance(AckSafeStop(b, s, timestamp)) == Balance(s)
  {
    hide Balance, AckLine, OfferLine, EnqueueResultOf, Torn;
    var t := SafeReported(s);
    SafeBalances(s);
    var c := t.driver.counters.(estopApplyFailed := t.driver.counters.estopApplyFailed + 1);
    CountersBalance(t, c);
    TornBalances(WithCounters(t, c), CriticalTransmitFailure);
    if AckLine(b.identity.boardId, timestamp).Some? {
      var line := AckLine(b.identity.boardId, timestamp).value;
      OfferLineBalances(t, EstopAck, line);
      TornBalances(OfferLine(t, EstopAck, line), CriticalTransmitFailure);
    }
  }

  lemma SafeBalances(s: Server)
    ensures Balance(SafeReported(s)) == Balance(s)
  {
    hide Excess;
    ExcessOfSame(s.driver, SafeReported(s).driver);
  }

  lemma EstopBalances(b: Registry.Board, s: Server, m: Message, rs: seq<Request>)
    requires m.EstopMessage?
    ensures Balance(Route(b, s, m, rs)) == Balance(s)
  {
    hide Balance, WithRequests, AckSafeStop;
    var c := s.driver.counters;
    CountersBalance(s, c.(estopReceived := c.estopReceived + 1));
    var t := WithRequests(WithCounters(s, c.(estopReceived := c.estopReceived + 1)), rs);
    AskedBalances(WithCounters(s, c.(estopReceived := c.estopReceived + 1)), rs);
    CountersBalance(t, t.driver.counters.(estopApplyFailed := t.driver.counters.estopApplyFailed + 1));
    AckBalances(b, t, m.at % TWO_64);
  }

  lemma HeartbeatBalances(b: Registry.Board, s: Server, m: Message, rs: seq<Request>)
    requires m.HeartbeatMessage?
    ensures Balance(Route(b, s, m, rs)) == Balance(s)
  {
    hide Balance, HeartbeatLine, OfferLine, EnqueueResultOf, Torn;
    var c := s.driver.counters.(heartbeatReceived := s.driver.counters.heartbeatReceived + 1);
    var t := WithCounters(s, c);
    CountersBalance(s, c);
    TornBalances(t, CriticalTransmitFailure);
    if HeartbeatLine(b.identity.boardId, m.seq_).Some? {
      var line := HeartbeatLine(b.identity.boardId, m.seq_).value;
      OfferLineBalances(t, HeartbeatAck, line);
      TornBalances(OfferLine(t, HeartbeatAck, line), CriticalTransmitFailure);
    }
  }

  lemma HandleBalances(b: Registry.Board, s: Server, line: string, a: Answers)
    ensures Balance(Handle(b, s, line, a)) == Balance(s)
  {
    hide Excess, Route, Runs, MessageFacts;
    var m, rs := a.message, if Runs(b, a.message) then a.handlerRequests else [];
    var t := WithFacts(s, MessageFacts(b, line, m, a.handlerRequests));
    BalanceOfSame(s, t);
    match m
    case Unrouted => assert Route(b, t, m, rs) == t by { OtherRoutes(b, t, m, rs); }
    case WrongTarget => OtherRoutes(b, t, m, rs);
    case CommandMessage(_, _) => CommandBalances(b, t, m, rs);
    case EstopMessage(_, _) => EstopBalances(b, t, m, rs);
    case HeartbeatMessage(_) => HeartbeatBalances(b, t, m, rs);
  }

  lemma OtherRoutes(b: Registry.Board, s: Server, m: Message, rs: seq<Request>)
    requires m.Unrouted? || m.WrongTarget?
    ensures Balance(Route(b, s, m, rs)) == Balance(s) && (m.Unrouted? ==> Route(b, s, m, rs) == s)
  {
    hide Balance;
    CountersBalance(s, s.driver.counters.(invalidTargets := s.driver.counters.invalidTargets + 1));
  }

  lemma MessageStageBalances(b: Registry.Board, s: Server, line: string, drained: bool, a: Answers)
    requires Running(b, s, 0) && IsLive(s) && Ready(s.driver)
    ensures Balance(MessageStage(b, s, line, drained, a)) == Balance(s)
  {
    hide Running, Balance, Serving.EndSession, Handle, DrainStage, MayFollow;
    var t := Released(Handle(b, s, line, a));
    HandleRuns(b, s, line, a);
    ReleaseRuns(b, Handle(b, s, line, a), 1);
    RunningServes(b, t);
    HandleBalances(b, s, line, a);
    ReleasedBalances(Handle(b, s, line, a));
    EndBalances(b, t, a);
    if !t.driver.teardown {
      DrainStageBalances(b, t, a.secondAccepted, a);
    }
  }

  lemma ReleasedBalances(s: Server)
    ensures Balance(Released(s)) == Balance(s)
  {
    hide Excess;
    ExcessOfSame(s.driver, Released(s).driver);
  }

  // ---------------------------------------------------------------------------------------
  // One call, and the whole run.

  lemma StepBalances(b: Registry.Board, s: Server, a: Answers)
    requires Boundary(b, s)
    ensures Balance(ServiceStep(b, s, a)) == Balance(s)
  {
    hide Running, Boundary, Balance, Serving.EndSession, PollStage, LineStage, TelemetryStage, SafetyStage, DrainStage,
         MessageStage, NextLine, MayFollow, HasPending, IsActive;
    var polled := PollStage(b, s, a);
    var line := NextLine(polled.driver, a.late);
    var lined := LineStage(polled, a);
    PollRuns(b, s, a);
    LineRuns(b, polled, a);
    PollStageBalances(b, s, a);
    LineStageBalances(polled, a);
    ReleasedBalances(lined);
    RunningServes(b, lined);
    TornDownIsBound(b, lined);
    EndBalances(b, if line.Some? then Released(lined) else lined, a);
    if !lined.driver.teardown {
      TelemetryRuns(b, lined, a);
      TelemetryStageBalances(b, lined, a);
      var framed := TelemetryStage(b, lined, a);
      SafetyStageRuns(b, framed, a);
      SafetyStageBalances(b, framed, a);
      var safe := SafetyStage(b, framed, a);
      if safe.Go? {
        DrainStageRuns(b, safe.server, a.firstAccepted, a);
        DrainStageBalances(b, safe.server, a.firstAccepted, a);
        var drained := DrainStage(b, safe.server, a.firstAccepted, a);
        if drained.Go? && line.Some? {
          MessageStageBalances(b, drained.server, line.value, HasPending(safe.server.queue), a);
        }
      }
    }
  }

  lemma TornDownIsBound(b: Registry.Board, s: Server)
    requires Running(b, s, 1)
    ensures s.driver.teardown ==> IsValidHandle(s.driver.active)
  {
    hide CanServe, Agree, OpenBook, Balanced, Sessions.Conserved, GoodPast, Connected, GoodBook;
  }

  lemma {:induction false} RunBalances(b: Registry.Board, now: nat, events: seq<Event>)
    requires CanServe(b)
    ensures Balance(ServiceRuns.Play(b, now, events)) == NONE
  {
    hide ServiceStep, CanServe, WithRequest, Boundary, Excess;
    if events == [] {
      StartBalances(b, now);
    } else {
      var n := |events| - 1;
      var s := ServiceRuns.Play(b, now, events[..n]);
      RunBalances(b, now, events[..n]);
      RunKeepsBoundary(b, now, events[..n]);
      match events[n]
      case ServiceCall(a) => StepBalances(b, s, a);
      case AppRequest(r) =>
        RequestsBalance(s, [r]);
        BalanceOfSame(s, WithRequests(s, [r]));
    }
  }

  lemma StartBalances(b: Registry.Board, now: nat)
    ensures Balance(ServiceRuns.Play(b, now, [])) == NONE
  {
    hide Excess, Begin;
    StartIsSound(b, now);
    FreshBalances(Begin(NEW_DRIVER, now));
  }

  lemma FreshBalances(d: Driver)
    requires d.counters == ZERO && d.past == [] && d.record.writes == [] && !d.teardown
    ensures Excess(d) == NONE
  {
    hide CutShort, SchemaSent;
    NothingWritten();
  }

  /**
   Nothing transmitted or attempted goes uncounted, over every run: the failures are the critical
   lines cut short; the schemas sent those that went out whole; the supersessions those that ended
   a connection; and the frames dropped are the telemetry lines cut short, and the attempts that
   numbered no frame.
   */
  lemma TransmissionsAccounted(registrations: seq<SchemaWriting.Action>, b: Registry.Board, now: nat, events: seq<Event>)
    requires IsBoot(registrations, b)
    ensures var s := ServiceRuns.Play(b, now, events); var c, all := s.driver.counters, Happened(s.driver);
            && c.txFailures == all.failures && c.schemasSent == all.schemas && c.sessionsSuperseded == all.superseded
            && c.telemetryDropped == all.expired + |s.ledger.attempts| - (s.cadence.nextSeq - 1)
  {
    hide ServiceRuns.Play, CanServe, Happened;
    BootCanServe(registrations, b);
    RunBalances(b, now, events);
  }
}
