/**
 One call of `service()` as a function of the server's state and of everything the environment
 answered during the call, and what every such call keeps.
 */
module Serving {
  import opened Common
  import opened CounterBank
  import opened Connections
  import opened LineFraming
  import opened OutboundWriting
  import opened Scheduling
  import opened EventLines
  import opened EstopHandling
  import opened TelemetryScheduling
  import opened Platform
  import opened Sessions
  import opened Applications
  import Dispatching
  import Registry
  import Limits

  /** An accepted request for an e-stop event. */
  datatype Alarm = Alarm(reason: cstring, timestamp: uint64)

  /** A telemetry frame by its number in the boot and the line it became. */
  datatype Numbered = Numbered(number: nat, line: string)

  /** What no component remembers over the whole boot. Nothing in the loop reads it. */
  datatype Ledger = Ledger(
    requested: seq<Alarm>,    // accepted e-stop requests
    confirmed: seq<string>,   // e-stop events wholly sent
    safeReturns: nat,         // e-stop hook calls that reported a safe state
    failed: nat,              // telemetry frames whose send failed
    canceled: nat,            // telemetry frames canceled by the end of a session
    handed: seq<Numbered>,    // telemetry frames handed to the session
    pendingSeq: nat,          // number of the frame in the telemetry slot
    attempts: seq<nat>,       // true times at which a telemetry frame was attempted
    looks: seq<Surroundings>, // what the network stack answered
    app: seq<Fact>)           // what the application was asked and what it answered

  const EMPTY_LEDGER := Ledger([], [], 0, 0, 0, [], 0, [], [], [])

  datatype Server = Server(driver: Driver, queue: Queue, estop: Pending, cadence: Cadence, ledger: Ledger)

  const NEW_SERVER := Server(NEW_DRIVER, EMPTY_QUEUE, NothingPending, TelemetryScheduling.INITIAL, EMPTY_LEDGER)

  // ---------------------------------------------------------------------------------------
  // What the environment answers during one call.

  /** The application asking for an e-stop event, at a true time. */
  datatype Request = Request(reason: reason, at: nat)

  function ReasonsOf(rs: seq<Request>): seq<reason> {
    seq(|rs|, i requires 0 <= i < |rs| => rs[i].reason)
  }

  /** An acquired line, as the parser read it and handler or hook answered it. */
  datatype Message =
    | Unrouted                                            // malformed, unsupported, or answered by no route
    | WrongTarget
    | CommandMessage(command: Command, course: Dispatching.Course)
    | EstopMessage(safe: bool, at: nat)                   // the hook's answer, and when it was acknowledged
    | HeartbeatMessage(seq_: uint64)

  function ReceivedOf(m: Message): Received {
    match m
    case Unrouted => Ignored
    case WrongTarget => ForAnother
    case CommandMessage(command, _) => ACommand(command)
    case EstopMessage(_, _) => AnEstop
    case HeartbeatMessage(n) => AHeartbeat(n)
  }

  datatype Answers = Answers(
    poll: PollAnswers, pollRequests: seq<Request>,
    late: seq<ReadEvent>,
    telemetry: Provided, providerRequests: seq<Request>,
    firstAccepted: nat,
    message: Message, handlerRequests: seq<Request>,
    secondAccepted: nat,
    promotions: seq<Promotion>, endRequests: seq<Request>)

  predicate RequestedWithin(rs: seq<Request>, from: nat, to: nat) {
    forall i :: 0 <= i < |rs| ==> from <= rs[i].at <= to
  }

  predicate SaidWithin(m: Message, from: nat, to: nat) {
    match m
    case CommandMessage(_, x) => from <= x.now <= x.later <= to
    case EstopMessage(_, at) => from <= at <= to
    case _ => true
  }

  /** Every reading of the clock was taken between these times. */
  predicate AnsweredWithin(a: Answers, from: nat, to: nat) {
    && PolledWithin(a.poll, from, to) && RequestedWithin(a.pollRequests, from, to)
    && from <= a.telemetry.at <= a.telemetry.stamped <= to && RequestedWithin(a.providerRequests, from, to)
    && SaidWithin(a.message, from, to) && RequestedWithin(a.handlerRequests, from, to)
    && PromotedWithin(a.promotions, from, to) && RequestedWithin(a.endRequests, from, to)
  }

  /** The controller's time, printed, fits the buffer it is printed into. */
  predicate IsReadable(m: Message) {
    m.CommandMessage? ==> |m.command.literal| < Limits.MAX_DOUBLE_LITERAL_BYTES
  }

  // ---------------------------------------------------------------------------------------
  // The steps.

  function WithBook(s: Server, book: Book): Server {
    s.(driver := s.driver.(record := s.driver.record.(book := book)))
  }

  function WithCounters(s: Server, c: Values): Server {
    s.(driver := s.driver.(counters := c))
  }

  /** The application was asked, and answered. */
  function WithFacts(s: Server, facts: seq<Fact>): Server {
    s.(ledger := s.ledger.(app := s.ledger.app + facts))
  }

  function WithRequest(s: Server, r: Request): Server {
    s.(estop := Requested(s.estop, r.reason, r.at % TWO_64), queue := QueueAfterRequest(s.estop, s.queue, r.reason),
       ledger := s.ledger.(requested := s.ledger.requested +
         if RequestStatusOf(s.estop, r.reason).Accepted? then [Alarm(r.reason.value, r.at % TWO_64)] else []))
  }

  function WithRequests(s: Server, rs: seq<Request>): Server
    decreases |rs|
  {
    if rs == [] then s else WithRequests(WithRequest(s, rs[0]), rs[1..])
  }

  /** A critical line offered to the scheduler, noted in the connection's book. */
  function OfferLine(s: Server, kind: Kind, line: string): Server {
    var r := EnqueueResultOf(s.queue, kind, line);
    var book := s.driver.record.book;
    WithBook(s.(queue := Enqueued(s.queue, kind, line)),
      if r.Queued? then book.(queued := book.queued + [Entry(kind, line)])
      else if r.TeardownRequested? then book.(saturated := true)
      else book)
  }

  function CountedOutcome(c: Values, o: Outcome): Values {
    if !o.completion.Sent? then c
    else
      match o.kind
      case Telemetry => c.(telemetrySent := c.telemetrySent + 1)
      case EstopAck => c.(estopAckSent := c.estopAckSent + 1)
      case HeartbeatAck => c.(heartbeatAckSent := c.heartbeatAckSent + 1)
      case _ => c
  }

  function RouteOutcome(s: Server, o: Outcome): Server {
    var book := s.driver.record.book;
    var t := WithBook(WithCounters(s, CountedOutcome(s.driver.counters, o)),
                      if o == Outcome(EstopAck, Completion.Sent) then book.(acks := book.acks + 1) else book);
    t.(estop := Resolved(s.estop, o), queue := QueueAfterOutcome(s.estop, s.queue, o),
       ledger := s.ledger.(
         failed := s.ledger.failed + (if o == Outcome(Telemetry, SendFailed) then 1 else 0),
         canceled := s.ledger.canceled + (if o == Outcome(Telemetry, CanceledBySessionEnd) then 1 else 0)))
  }

  function RouteAll(s: Server, os: seq<Outcome>): Server {
    if os == [] then s else RouteOutcome(RouteAll(s, os[..|os| - 1]), os[|os| - 1])
  }

  function ClassOf(kind: Kind): MessageClass {
    if kind.Telemetry? then TelemetryMessage else CriticalMessage
  }

  /** The ledger once an entry was handed to the session. */
  function Handed(l: Ledger, e: Entry, sent: bool): Ledger {
    match e.kind
    case Telemetry => l.(handed := l.handed + [Numbered(l.pendingSeq, e.line)])
    case EstopTriggered => if sent then l.(confirmed := l.confirmed + [e.line]) else l
    case _ => l
  }

  /** The next line is sent and leaves the queue. */
  function Drain(s: Server, accepted: nat): Server
    requires HasPending(s.queue)
  {
    var e := Next(s.queue);
    var r := SendActiveLine(s.driver, e.line, ClassOf(e.kind), accepted);
    WithBook(s.(driver := r.driver, queue := Drained(s.queue), ledger := Handed(s.ledger, e, r.result == SendResult.Sent)),
             r.driver.record.book.(drained := r.driver.record.book.drained + [e]))
  }

  function DrainOutcome(s: Server, accepted: nat): Outcome
    requires HasPending(s.queue)
  {
    var e := Next(s.queue);
    var r := SendActiveLine(s.driver, e.line, ClassOf(e.kind), accepted).result;
    Outcome(e.kind, if r == SendResult.Sent then Completion.Sent else SendFailed)
  }

  function Torn(s: Server, why: TeardownReason): Server {
    s.(driver := RequestTeardown(s.driver, why))
  }

  function Released(s: Server): Server {
    s.(driver := ReleaseActiveLine(s.driver))
  }

  /** Cancel what is queued, route the cancellations, end the session. */
  function EndSession(b: Registry.Board, s: Server, a: Answers): Server {
    var t := RouteAll(s.(queue := Cleared(s.queue)), Cancellations(s.queue));
    var u := t.(cadence := Inactive(t.cadence), driver := Apply(b, t.driver, a.promotions));
    WithRequests(WithFacts(u, [Asked(ReasonsOf(a.endRequests))]), a.endRequests)
  }

  /** A stage of the call either finishes it or hands on. */
  datatype Flow = Done(server: Server) | Go(server: Server)

  function PollStage(b: Registry.Board, s: Server, a: Answers): Server {
    var t := s.(driver := Poll(b, s.driver, a.poll), ledger := s.ledger.(looks := s.ledger.looks + [AroundOf(a.poll)]));
    WithRequests(WithFacts(t, [Asked(ReasonsOf(a.pollRequests))]), a.pollRequests)
  }

  /** The server once a line was asked for, and the line. */
  function LineStage(s: Server, a: Answers): Server {
    s.(driver := AfterNextLine(s.driver, a.late))
  }

  /** Whatever was read was read to the end. */
  predicate ReadsAll(b: Registry.Board, s: Server, a: Answers) {
    PollReadsOut(s.driver, a.poll) && LineReadsOut(PollStage(b, s, a).driver, a.late)
  }

  predicate IsLive(s: Server) {
    IsActive(s.driver) && !s.driver.teardown
  }

  /** A due frame is attempted now; the cadence is moved, but no number is used yet. */
  function Attempted(s: Server, at: nat): Server {
    var book, t := s.driver.record.book, Activated(s.cadence);
    if IsDue(s.cadence, at % TWO_64)
    then WithBook(s.(cadence := t.(firstDue := false, lastDue := at % TWO_64),
                     ledger := s.ledger.(attempts := s.ledger.attempts + [at])),
                  book.(attempts := book.attempts + [at]))
    else s.(cadence := t)
  }

  /** One service of the telemetry scheduler; a frame it queues is numbered and noted in the connection's book. */
  function Framed(boardId: cstring, s: Server, p: Provided): Server {
    var f, n := Frame(s.cadence, boardId, p), Attempted(s, p.at);
    var book := n.driver.record.book;
    var t := WithCounters(n, CountedFrame(s.driver.counters, s.cadence, boardId, p, s.queue.telemetry.Some?));
    var u := t.(cadence := TelemetryScheduling.Serviced(s.cadence, boardId, p));
    if f.None? then u
    else WithBook(u.(queue := TelemetryReplaced(s.queue, f.value), ledger := t.ledger.(pendingSeq := s.cadence.nextSeq)),
                  book.(frames := book.frames + {f.value}))
  }

  function TelemetryStage(b: Registry.Board, s: Server, a: Answers): Server {
    if !IsLive(s) then s.(cadence := Inactive(s.cadence))
    else
      var t := WithFacts(Framed(b.identity.boardId, s, a.telemetry), ProviderFacts(s.cadence, a.telemetry, ReasonsOf(a.providerRequests)));
      if IsDue(s.cadence, a.telemetry.at % TWO_64) then WithRequests(t, a.providerRequests) else t
  }

  /** The pending e-stop event is offered to the scheduler. */
  function SafetyOffer(b: Registry.Board, s: Server): Server {
    var book := s.driver.record.book;
    var r := if s.estop.NotQueued? && EventLine(s.estop, b.identity.boardId).Some?
             then EnqueueResultOf(s.queue, EstopTriggered, EventLine(s.estop, b.identity.boardId).value) else EnqueueResult.InvalidLine;
    WithBook(s.(estop := EstopHandling.Serviced(s.estop, s.queue, b.identity.boardId),
                queue := ServicedQueue(s.estop, s.queue, b.identity.boardId)),
      if !s.estop.NotQueued? then book
      else if r.Queued? then
        book.(triggers := book.triggers + 1,
              queued := book.queued + [Entry(EstopTriggered, EventLine(s.estop, b.identity.boardId).value)])
      else book.(triggers := book.triggers + 1, saturated := book.saturated || r.TeardownRequested?))
  }

  function SafetyStage(b: Registry.Board, s: Server, a: Answers): Flow {
    if !IsLive(s) then Go(s)
    else
      var t := SafetyOffer(b, s);
      if ServiceFails(s.estop, s.queue, b.identity.boardId)
      then Done(EndSession(b, Torn(t, CriticalTransmitFailure), a)) else Go(t)
  }

  predicate DrainEnds(s: Server, o: Outcome) {
    s.driver.teardown || (o.completion.SendFailed? && !o.kind.Telemetry?)
  }

  function DrainStage(b: Registry.Board, s: Server, accepted: nat, a: Answers): Flow {
    if !HasPending(s.queue) then Go(s)
    else
      var o := DrainOutcome(s, accepted);
      var t := RouteOutcome(Drain(s, accepted), o);
      if DrainEnds(t, o) then Done(EndSession(b, Released(Torn(t, CriticalTransmitFailure)), a)) else Go(t)
  }

  /** The dispatcher's response is offered and, if it is queued, counted. */
  function Replied(s: Server, r: Dispatching.Response): Server {
    if r.line.None? then s
    else
      var u := OfferLine(s, CommandResponse, r.line.value);
      var c := u.driver.counters;
      if Unanswered(s.queue, r) then u
      else WithCounters(u, if r.ok then c.(commandsOk := c.commandsOk + 1) else c.(commandsError := c.commandsError + 1))
  }

  predicate Unanswered(q: Queue, r: Dispatching.Response) {
    r.line.None? || !EnqueueResultOf(q, CommandResponse, r.line.value).Queued?
  }

  function ResponseOf(b: Registry.Board, m: Message): Dispatching.Response
    requires m.CommandMessage?
  {
    Dispatching.ResponseTo(b.commands, b.identity.boardId, m.command, m.course)
  }

  /** Whether handler or hook runs, and so may ask for an e-stop event. */
  predicate Runs(b: Registry.Board, m: Message) {
    m.EstopMessage? || (m.CommandMessage? && Dispatching.Reaches(b.commands, m.command))
  }

  /** What the route of a message asks of the application. */
  function RouteFacts(b: Registry.Board, m: Message, rs: seq<Request>): seq<Fact> {
    match m
    case CommandMessage(command, x) => Dispatching.HandlerFacts(b.commands, command, x, ReasonsOf(rs))
    case EstopMessage(safe, _) => [HookRan(safe, ReasonsOf(rs))]
    case _ => []
  }

  /** The parser reads the line; then handler or hook runs, if either does. */
  function MessageFacts(b: Registry.Board, line: string, m: Message, rs: seq<Request>): seq<Fact> {
    [LineRead(line, ReceivedOf(m))] + RouteFacts(b, m, rs)
  }

  function Handle(b: Registry.Board, s: Server, line: string, a: Answers): Server {
    Route(b, WithFacts(s, MessageFacts(b, line, a.message, a.handlerRequests)), a.message,
          if Runs(b, a.message) then a.handlerRequests else [])
  }

  /** The routes for a message with the right target; each offers at most one line. */
  function Route(b: Registry.Board, s: Server, m: Message, rs: seq<Request>): Server {
    var c := s.driver.counters;
    match m
    case Unrouted => s
    case WrongTarget => WithCounters(s, c.(invalidTargets := c.invalidTargets + 1))
    case CommandMessage(_, _) =>
      var r := ResponseOf(b, m);
      var t := WithCounters(s, Dispatching.Faulted(c.(commandsReceived := c.commandsReceived + 1), r.fault));
      var u := WithRequests(Replied(t, r), rs);
      if Unanswered(t.queue, r) then Torn(u, CriticalTransmitFailure) else u
    case EstopMessage(safe, at) =>
      var t := WithRequests(WithCounters(s, c.(estopReceived := c.estopReceived + 1)), rs);
      if !safe then WithCounters(t, t.driver.counters.(estopApplyFailed := t.driver.counters.estopApplyFailed + 1))
      else AckSafeStop(b, t, at % TWO_64)
    case HeartbeatMessage(n) =>
      var t := WithCounters(s, c.(heartbeatReceived := c.heartbeatReceived + 1));
      match HeartbeatLine(b.identity.boardId, n)
      case None => Torn(t, CriticalTransmitFailure)
      case Some(line) =>
        var u := OfferLine(t, HeartbeatAck, line);
        if EnqueueResultOf(t.queue, HeartbeatAck, line).Queued? then u else Torn(u, CriticalTransmitFailure)
  }

  /** The hook has just reported a safe state. */
  function AckSafeStop(b: Registry.Board, s: Server, timestamp: uint64): Server {
    var book := s.driver.record.book;
    var t := WithBook(s, book.(safe := book.safe + 1)).(ledger := s.ledger.(safeReturns := s.ledger.safeReturns + 1));
    match AckLine(b.identity.boardId, timestamp)
    case None => Torn(WithCounters(t, t.driver.counters.(estopApplyFailed := t.driver.counters.estopApplyFailed + 1)), CriticalTransmitFailure)
    case Some(line) =>
      var u := OfferLine(t, EstopAck, line);
      if EnqueueResultOf(t.queue, EstopAck, line).Queued? then u else Torn(u, CriticalTransmitFailure)
  }

  function MessageStage(b: Registry.Board, s: Server, line: string, drained: bool, a: Answers): Server {
    var t := Released(Handle(b, s, line, a));
    if t.driver.teardown then EndSession(b, t, a)
    else if drained then t
    else DrainStage(b, t, a.secondAccepted, a).server
  }

  /** What follows when no teardown waits: telemetry, safety, one line out, then the line in. */
  function ServeStage(b: Registry.Board, s: Server, line: Option<string>, a: Answers): Server {
    match SafetyStage(b, TelemetryStage(b, s, a), a)
    case Done(t) => t
    case Go(t) =>
      match DrainStage(b, t, a.firstAccepted, a)
      case Done(u) => u
      case Go(u) => if line.Some? then MessageStage(b, u, line.value, HasPending(t.queue), a) else u
  }

  /** One call of `service()`. */
  function ServiceStep(b: Registry.Board, s: Server, a: Answers): Server {
    var polled := PollStage(b, s, a);
    var line := NextLine(polled.driver, a.late);
    var lined := LineStage(polled, a);
    if lined.driver.teardown then EndSession(b, if line.Some? then Released(lined) else lined, a)
    else ServeStage(b, lined, line, a)
  }
}
