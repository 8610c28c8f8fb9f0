/** The diagnostic counters against the log of what the application was asked and answered. */
module ServiceTallies {
  import opened Common
  import opened Connections
  import opened OutboundWriting
  import opened Scheduling
  import opened EventLines
  import opened EstopHandling
  import opened TelemetryScheduling
  import opened Sessions
  import opened Serving
  import opened ServiceInvariant
  import opened ServiceStages
  import opened ServiceRuns
  import opened Applications
  import opened ArgumentValidation
  import Dispatching
  import Registry
  import SchemaWriting
  import Limits

  datatype Tally = Tally(
    commands: nat, unknown: nat, invalid: nat,   // commands read, and those refused for their name or their arguments
    others: nat, stops: nat, heartbeats: nat,    // messages for another target, controller e-stops, heartbeats
    safe: nat, unsafe: nat)                      // e-stop hook calls by what they reported

  const NOTHING_TOLD := Tally(0, 0, 0, 0, 0, 0, 0, 0)

  function Refused(t: Tally, fault: Dispatching.Fault): Tally {
    match fault
    case NoFault => t
    case UnknownName => t.(unknown := t.unknown + 1)
    case BadArgument => t.(invalid := t.invalid + 1)
  }

  /** What is wrong with a command before any handler sees it. */
  function FaultBefore(commands: seq<Registry.Command>, command: Command): Dispatching.Fault {
    match Registry.Find(commands, command.name)
    case None => Dispatching.UnknownName
    case Some(i) =>
      match Verdict(commands[i].args, command.args)
      case None => Dispatching.NoFault
      case Some(p) => Dispatching.FaultOf(p.code)
  }

  /** One more entry of the log. */
  function Told(b: Registry.Board, t: Tally, f: Fact): Tally {
    match f
    case LineRead(_, Ignored) => t
    case LineRead(_, ForAnother) => t.(others := t.others + 1)
    case LineRead(_, ACommand(command)) => Refused(t.(commands := t.commands + 1), FaultBefore(b.commands, command))
    case LineRead(_, AnEstop) => t.(stops := t.stops + 1)
    case LineRead(_, AHeartbeat(_)) => t.(heartbeats := t.heartbeats + 1)
    case HandlerRan(_, answer, _, _) => if answer.ok then t else Refused(t, Dispatching.FaultOf(answer.code))
    case HookRan(safe, _) => if safe then t.(safe := t.safe + 1) else t.(unsafe := t.unsafe + 1)
    case ProviderRan(_, _, _) => t
    case Asked(_) => t
  }

  function Tallied(b: Registry.Board, log: seq<Fact>): Tally {
    if log == [] then NOTHING_TOLD else Told(b, Tallied(b, log[..|log| - 1]), log[|log| - 1])
  }

  /** The counters, as a tally. */
  function Shown(s: Server): Tally {
    var c := s.driver.counters;
    Tally(c.commandsReceived, c.unknownCommands, c.invalidArguments, c.invalidTargets, c.estopReceived, c.heartbeatReceived,
          s.ledger.safeReturns, c.estopApplyFailed)
  }

  predicate IsTrue(b: Registry.Board, s: Server) {
    Shown(s) == Tallied(b, s.ledger.app)
  }

  lemma TalliedOne(b: Registry.Board, log: seq<Fact>, f: Fact)
    ensures Tallied(b, log + [f]) == Told(b, Tallied(b, log), f)
  {
    assert (log + [f])[..|log|] == log;
  }

  lemma TalliedNone(b: Registry.Board, log: seq<Fact>)
    ensures Tallied(b, log + []) == Tallied(b, log)
  {
    assert log + [] == log;
  }

  // ---------------------------------------------------------------------------------------
  // Everything but handling a message leaves the tally alone.

  /** Neither the counters that tell, nor what they tell of. */
  predicate SameTally(b: Registry.Board, s: Server, t: Server) {
    Shown(t) == Shown(s) && Tallied(b, t.ledger.app) == Tallied(b, s.ledger.app)
  }

  lemma {:induction false} RequestsTell(b: Registry.Board, s: Server, rs: seq<Request>)
    ensures SameTally(b, s, WithRequests(s, rs))
    decreases |rs|
  {
    hide Tallied;
    if rs != [] {
      RequestsTell(b, WithRequest(s, rs[0]), rs[1..]);
    }
  }

  /** The application is asked, and may ask for e-stop events. */
  lemma AskingTells(b: Registry.Board, s: Server, rs: seq<Request>)
    ensures SameTally(b, s, WithRequests(WithFacts(s, [Asked(ReasonsOf(rs))]), rs))
  {
    hide Tallied, WithRequests;
    TalliedOne(b, s.ledger.app, Asked(ReasonsOf(rs)));
    RequestsTell(b, WithFacts(s, [Asked(ReasonsOf(rs))]), rs);
  }

  lemma {:induction false} RoutingTells(b: Registry.Board, s: Server, os: seq<Outcome>)
    ensures SameTally(b, s, RouteAll(s, os))
  {
    hide Tallied, Resolved, QueueAfterOutcome;
    if os != [] {
      RoutingTells(b, s, os[..|os| - 1]);
    }
  }

  lemma EndTells(b: Registry.Board, s: Server, a: Answers)
    ensures SameTally(b, s, Serving.EndSession(b, s, a))
  {
    hide Tallied, Apply, RouteAll, WithRequests, WithFacts, Cancellations;
    var t := RouteAll(s.(queue := Cleared(s.queue)), Cancellations(s.queue));
    RoutingTells(b, s.(queue := Cleared(s.queue)), Cancellations(s.queue));
    ApplyKeepsHistory(b, t.driver, a.promotions);
    AskingTells(b, t.(cadence := Inactive(t.cadence), driver := Apply(b, t.driver, a.promotions)), a.endRequests);
  }

  lemma PollTells(b: Registry.Board, s: Server, a: Answers)
    ensures SameTally(b, s, PollStage(b, s, a))
  {
    hide Tallied, Poll, WithRequests, WithFacts;
    PollKeepsHistory(b, s.driver, a.poll);
    AskingTells(b, s.(driver := Poll(b, s.driver, a.poll), ledger := s.ledger.(looks := s.ledger.looks + [AroundOf(a.poll)])), a.pollRequests);
  }

  lemma LineTells(b: Registry.Board, s: Server, a: Answers)
    ensures SameTally(b, s, LineStage(s, a))
  {
    hide Tallied, AfterNextLine;
    LineKeepsHistory(s.driver, a.late);
  }

  lemma TelemetryTells(b: Registry.Board, s: Server, a: Answers)
    ensures SameTally(b, s, TelemetryStage(b, s, a))
  {
    hide Tallied, WithRequests, Frame, IsDue;
    var t := Framed(b.identity.boardId, s, a.telemetry);
    var reasons := ReasonsOf(a.providerRequests);
    TalliedNone(b, s.ledger.app);
    TalliedOne(b, s.ledger.app, ProviderRan(a.telemetry.ok, a.telemetry.uses, reasons));
    RequestsTell(b, FramedAndNoted(b, s, a), a.providerRequests);
  }

  lemma DrainTells(b: Registry.Board, s: Server, accepted: nat, a: Answers)
    ensures SameTally(b, s, DrainStage(b, s, accepted, a).server)
  {
    hide Tallied, Serving.EndSession, WriteLine, DrainEnds, DrainOutcome, Next;
    if HasPending(s.queue) {
      var e := Next(s.queue);
      WriteKeepsHistory(s.driver, e.line, ClassOf(e.kind), accepted);
      var t := Routed(s, accepted);
      assert SameTally(b, s, t);
      EndTells(b, Released(Torn(t, CriticalTransmitFailure)), a);
    }
  }

  lemma SafetyTells(b: Registry.Board, s: Server, a: Answers)
    ensures SameTally(b, s, SafetyStage(b, s, a).server)
  {
    hide Tallied, Serving.EndSession, EventLine, ServiceFails, EnqueueResultOf;
    EndTells(b, Torn(SafetyOffer(b, s), CriticalTransmitFailure), a);
  }

  // ---------------------------------------------------------------------------------------
  // Handling a message.

  /** The tally of what the message is, and of what its route asks of the application. */
  function Handled(b: Registry.Board, t: Tally, m: Message): Tally {
    match m
    case Unrouted => t
    case WrongTarget => t.(others := t.others + 1)
    case CommandMessage(_, _) => Refused(t.(commands := t.commands + 1), ResponseOf(b, m).fault)
    case EstopMessage(safe, _) =>
      var u := t.(stops := t.stops + 1);
      if safe then u.(safe := u.safe + 1) else u.(unsafe := u.unsafe + 1)
    case HeartbeatMessage(_) => t.(heartbeats := t.heartbeats + 1)
  }

  lemma FaultIs(b: Registry.Board, m: Message)
    requires m.CommandMessage?
    ensures ResponseOf(b, m).fault ==
              if Dispatching.Reaches(b.commands, m.command)
              then if m.course.answer.ok then Dispatching.NoFault else Dispatching.FaultOf(m.course.answer.code)
              else FaultBefore(b.commands, m.command)
    ensures Dispatching.Reaches(b.commands, m.command) ==> FaultBefore(b.commands, m.command) == Dispatching.NoFault
  {
    hide Verdict, Registry.Find, Dispatching.Success, Dispatching.Refusal;
    Dispatching.SuccessIsNoFault();
  }

  lemma FactsTell(b: Registry.Board, line: string, m: Message, rs: seq<Request>, log: seq<Fact>)
    ensures Tallied(b, log + MessageFacts(b, line, m, rs)) == Handled(b, Tallied(b, log), m)
  {
    hide Tallied, Dispatching.Reaches, ResponseOf, FaultBefore, Dispatching.FaultOf;
    var read := LineRead(line, ReceivedOf(m));
    var facts := RouteFacts(b, m, rs);
    assert log + MessageFacts(b, line, m, rs) == (log + [read]) + facts;
    TalliedOne(b, log, read);
    TalliedNone(b, log + [read]);
    if |facts| == 1 {
      assert facts == [facts[0]];
      TalliedOne(b, log + [read], facts[0]);
    }
    if m.CommandMessage? {
      FaultIs(b, m);
    }
  }

  lemma OfferTells(s: Server, kind: Kind, line: string)
    ensures Shown(OfferLine(s, kind, line)) == Shown(s) && OfferLine(s, kind, line).ledger == s.ledger
  {
    hide EnqueueResultOf, Enqueued;
  }

  lemma RepliedTells(s: Server, r: Dispatching.Response)
    ensures Shown(Replied(s, r)) == Shown(s) && Replied(s, r).ledger == s.ledger
  {
    hide OfferLine, Unanswered;
    if r.line.Some? {
      OfferTells(s, CommandResponse, r.line.value);
    }
  }

  lemma TornTells(s: Server, why: TeardownReason)
    ensures Shown(Torn(s, why)) == Shown(s) && Torn(s, why).ledger == s.ledger
  {
  }

  lemma AckTells(b: Registry.Board, s: Server, timestamp: uint64)
    requires CanServe(b)
    ensures var t := AckSafeStop(b, s, timestamp);
            Shown(t) == Shown(s).(safe := Shown(s).safe + 1) && t.ledger.app == s.ledger.app
  {
    hide OfferLine, EnqueueResultOf, AckLine, Torn, CanServe;
    ServableId(b);
    AckLineFits(b.identity.boardId, timestamp);
    var line := AckLine(b.identity.boardId, timestamp).value;
    var t := SafeReported(s);
    OfferTells(t, EstopAck, line);
    TornTells(OfferLine(t, EstopAck, line), CriticalTransmitFailure);
  }

  lemma ServableId(b: Registry.Board)
    requires CanServe(b)
    ensures |b.identity.boardId| <= Limits.MAX_BOARD_ID_BYTES
  {
  }

  /** A route counts what its message is. */
  lemma RouteTells(b: Registry.Board, s: Server, m: Message, rs: seq<Request>)
    requires CanServe(b)
    ensures var t := Route(b, s, m, rs); Shown(t) == Handled(b, Shown(s), m) && t.ledger.app == s.ledger.app
  {
    hide WithRequests, OfferLine, EnqueueResultOf, Replied, AckSafeStop, Torn, CanServe, HeartbeatLine;
    var c := s.driver.counters;
    match m
    case Unrouted =>
    case WrongTarget =>
    case CommandMessage(_, _) => CommandTells(b, s, m, rs);
    case EstopMessage(safe, at) =>
      var t := WithCounters(s, c.(estopReceived := c.estopReceived + 1));
      RequestsShow(t, rs);
      AckTells(b, WithRequests(t, rs), at % TWO_64);
    case HeartbeatMessage(n) =>
      var t := WithCounters(s, c.(heartbeatReceived := c.heartbeatReceived + 1));
      TornTells(t, CriticalTransmitFailure);
      if HeartbeatLine(b.identity.boardId, n).Some? {
        var line := HeartbeatLine(b.identity.boardId, n).value;
        OfferTells(t, HeartbeatAck, line);
        TornTells(OfferLine(t, HeartbeatAck, line), CriticalTransmitFailure);
      }
  }

  lemma CommandTells(b: Registry.Board, s: Server, m: Message, rs: seq<Request>)
    requires m.CommandMessage?
    ensures var t := Route(b, s, m, rs); Shown(t) == Handled(b, Shown(s), m) && t.ledger.app == s.ledger.app
  {
    hide WithRequests, Replied, Unanswered, Torn, ResponseOf;
    var c, r := s.driver.counters, ResponseOf(b, m);
    var t := WithCounters(s, Dispatching.Faulted(c.(commandsReceived := c.commandsReceived + 1), r.fault));
    RepliedTells(t, r);
    RequestsShow(Replied(t, r), rs);
    TornTells(WithRequests(Replied(t, r), rs), CriticalTransmitFailure);
  }

  lemma {:induction false} RequestsShow(s: Server, rs: seq<Request>)
    ensures Shown(WithRequests(s, rs)) == Shown(s) && WithRequests(s, rs).ledger.app == s.ledger.app
    decreases |rs|
  {
    if rs != [] {
      RequestsShow(WithRequest(s, rs[0]), rs[1..]);
    }
  }

  lemma HandleTells(b: Registry.Board, s: Server, line: string, a: Answers)
    requires CanServe(b) && IsTrue(b, s)
    ensures IsTrue(b, Handle(b, s, line, a))
  {
    hide Route, Runs, MessageFacts, Tallied, CanServe, Handled;
    FactsTell(b, line, a.message, a.handlerRequests, s.ledger.app);
    RouteTells(b, WithFacts(s, MessageFacts(b, line, a.message, a.handlerRequests)), a.message,
               if Runs(b, a.message) then a.handlerRequests else []);
  }

  // ---------------------------------------------------------------------------------------
  // One call, and the whole run.

  lemma MessageTells(b: Registry.Board, s: Server, line: string, drained: bool, a: Answers)
    requires CanServe(b) && IsTrue(b, s)
    ensures IsTrue(b, MessageStage(b, s, line, drained, a))
  {
    hide Handle, DrainStage, Serving.EndSession, Tallied, CanServe;
    var t := Released(Handle(b, s, line, a));
    HandleTells(b, s, line, a);
    EndTells(b, t, a);
    DrainTells(b, t, a.secondAccepted, a);
  }

  lemma ServeTells(b: Registry.Board, s: Server, line: Option<string>, a: Answers)
    requires CanServe(b) && IsTrue(b, s)
    ensures IsTrue(b, ServeStage(b, s, line, a))
  {
    hide TelemetryStage, SafetyStage, DrainStage, MessageStage, HasPending, CanServe, Tallied, Shown;
    var framed := TelemetryStage(b, s, a);
    TelemetryTells(b, s, a);
    SafetyTells(b, framed, a);
    var safe := SafetyStage(b, framed, a).server;
    DrainTells(b, safe, a.firstAccepted, a);
    if line.Some? {
      MessageTells(b, DrainStage(b, safe, a.firstAccepted, a).server, line.value, HasPending(safe.queue), a);
    }
  }

  lemma StepTells(b: Registry.Board, s: Server, a: Answers)
    requires CanServe(b) && IsTrue(b, s)
    ensures IsTrue(b, ServiceStep(b, s, a))
  {
    hide PollStage, LineStage, NextLine, ServeStage, Serving.EndSession, CanServe, Tallied;
    var polled := PollStage(b, s, a);
    var line, lined := NextLine(polled.driver, a.late), LineStage(polled, a);
    PollTells(b, s, a);
    LineTells(b, polled, a);
    var t := if line.Some? then Released(lined) else lined;
    EndTells(b, t, a);
    ServeTells(b, lined, line, a);
  }

  lemma {:induction false} RunTells(b: Registry.Board, now: nat, events: seq<Event>)
    requires CanServe(b)
    ensures IsTrue(b, ServiceRuns.Play(b, now, events))
  {
    hide ServiceStep, CanServe, WithRequests;
    if events != [] {
      var n := |events| - 1;
      var s := ServiceRuns.Play(b, now, events[..n]);
      RunTells(b, now, events[..n]);
      match events[n]
      case ServiceCall(a) => StepTells(b, s, a);
      case AppRequest(r) =>
    }
  }

  /**
   The counters tell the truth over every run: they are the tally of what the parser made of the
   lines, what the handlers returned and what the e-stop hook reported. No more acknowledgements
   were sent, or wait, than the hook reported safe states.
   */
  lemma CountersTellTheTruth(registrations: seq<SchemaWriting.Action>, b: Registry.Board, now: nat, events: seq<Event>)
    requires IsBoot(registrations, b)
    ensures var s := ServiceRuns.Play(b, now, events); var told := Tallied(b, s.ledger.app);
            && Shown(s) == told
            && s.driver.counters.estopAckSent + Acks(s.queue.critical) <= told.safe
  {
    hide ServiceRuns.Play, CanServe, Tallied, Agree, Lossless, FramesAccounted, OpenBook, Sound, InTune, Settled;
    BootCanServe(registrations, b);
    RunTells(b, now, events);
    RunKeepsBoundary(b, now, events);
  }
}
