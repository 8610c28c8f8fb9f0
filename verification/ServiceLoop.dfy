/**
 The service loop with the server's routes wired in: one object that owns the session, the
 scheduler and the handlers. Each method is proved against the step function of the same name.
 */
module ServiceLooping {
  import opened Common
  import opened CounterBank
  import opened Connections
  import LineFraming
  import opened OutboundWriting
  import opened Scheduling
  import opened EventLines
  import opened EstopHandling
  import opened TelemetryScheduling
  import opened Platform
  import opened Sessions
  import opened SessionDriving
  import opened Serving
  import opened ServiceInvariant
  import opened ServiceStages
  import opened ServiceRuns
  import opened Applications
  import Dispatching
  import LineBuilding
  import Registry
  import Schema
  import SchemaWriting
  import Limits

  /** Answers of which none has come in yet. */
  function NoAnswers(at: nat): Answers {
    Answers(Quiet(Surroundings(false, false, false, false, false), at), [], [], Provided(at, false, [], at), [], 0, Unrouted, [], 0, [], [])
  }

  /** A dispatcher lives as long as one command. */
  method DispatchOnce(command: Command, counters: Counters, registry: Registry.CommandRegistry, boardId: cstring, clock: Clock,
                      application: Application, scheduler: OutboundScheduler)
    returns (teardown: bool, reasons: seq<reason>, ghost x: Dispatching.Course)
    requires scheduler.Valid() && registry.Valid()
    modifies counters, clock, application, scheduler, scheduler.critical
    ensures scheduler.Valid()
    ensures old(clock.ticks) <= x.now <= x.later <= clock.ticks
    ensures var commands := old(registry.Model()).commands;
            && application.log == old(application.log) + Dispatching.HandlerFacts(commands, command, x, reasons)
            && (!Dispatching.Reaches(commands, command) ==> reasons == [])
    ensures var c, r := old(counters.values), Dispatching.ResponseTo(old(registry.Model()).commands, boardId, command, x);
            && Dispatching.Answered(old(scheduler.Model()), scheduler.Model(),
                                    Dispatching.Faulted(c.(commandsReceived := c.commandsReceived + 1), r.fault),
                                    counters.values, teardown, r)
            && TookSoLong(old(clock.micros), clock.micros, x.us, r)
  {
    hide OutboundScheduler.Valid, OutboundScheduler.Model, Dispatching.ResponseTo, Dispatching.Faulted, Dispatching.Answered,
         Registry.CommandRegistry.Valid, Registry.CommandRegistry.Model;
    var dispatcher := new Dispatching.CommandDispatcher(counters, registry, boardId, clock, application, scheduler);
    var parsedUs := clock.MonotonicMicroseconds();
    teardown, reasons, x := dispatcher.Dispatch(command, parsedUs);
  }

  /** A success says what passed between two readings of the second counter: one before the command was dispatched, one after it was handled. */
  predicate TookSoLong(micros: seq<uint64>, micros': seq<uint64>, us: uint64, r: Dispatching.Response) {
    r.ok ==> |micros'| == |micros| + 2 && us == (micros'[|micros| + 1] - micros'[|micros|]) % TWO_64
  }

  class ServiceLoop {
    const session: SessionDriver
    const scheduler: OutboundScheduler
    const estop: EstopHandler
    const telemetry: TelemetryScheduler
    const application: Application
    const stack: NetworkStack
    ghost var ledger: Ledger

    /** Everything but the session. */
    ghost function Own(): set<object> {
      {this, scheduler, scheduler.critical, estop, telemetry, telemetry.line, telemetry.line.bytes, application, stack}
    }

    ghost function Repr(): set<object> {
      Own() + session.Repr()
    }

    ghost predicate Valid()
      reads Repr(), session.network, session.registry, session.registry.commands, session.registry.telemetryFields,
            session.registry.stateFields
    {
      && Own() !! session.Repr()
      && session.Valid() && scheduler.Valid() && telemetry.Valid()
      && telemetry.counters == session.counters && telemetry.boardId == session.Board().identity.boardId
      && telemetry.clock == session.clock && telemetry.application == application
      && ledger.app == application.log && ledger.looks == stack.looks
    }

    /** True time. */
    ghost function Now(): nat
      reads session.clock
    {
      session.clock.ticks
    }

    ghost function Board(): Registry.Board
      requires Valid()
      reads Repr(), session.network, session.registry, session.registry.commands, session.registry.telemetryFields,
            session.registry.stateFields
    {
      session.Board()
    }

    /** The server as a value. */
    ghost function State(): Server
      requires Valid()
      reads Repr(), session.network, session.registry, session.registry.commands, session.registry.telemetryFields,
            session.registry.stateFields
    {
      Server(session.State(), scheduler.Model(), estop.Model(), telemetry.Model(), ledger)
    }

    constructor (session: SessionDriver, scheduler: OutboundScheduler, estop: EstopHandler, telemetry: TelemetryScheduler,
                 application: Application, stack: NetworkStack)
      requires {scheduler, scheduler.critical, estop, telemetry, telemetry.line, telemetry.line.bytes, application, stack} !! session.Repr()
      requires session.Valid() && scheduler.Valid() && telemetry.Valid()
      requires telemetry.counters == session.counters && telemetry.boardId == session.Board().identity.boardId
      requires telemetry.clock == session.clock && telemetry.application == application && application.log == [] && stack.looks == []
      ensures Valid() && Board() == session.Board() && Now() == old(session.clock.ticks)
      ensures State() == Server(session.State(), scheduler.Model(), estop.Model(), telemetry.Model(), EMPTY_LEDGER)
      ensures this.session == session && this.scheduler == scheduler && this.estop == estop
              && this.telemetry == telemetry && this.application == application && this.stack == stack
    {
      hide SessionDriver.Valid, SessionDriver.State, SessionDriver.Board, OutboundScheduler.Valid,
           OutboundScheduler.Model, TelemetryScheduler.Valid, TelemetryScheduler.Model, EstopHandler.Model;
      this.session, this.scheduler, this.estop, this.telemetry := session, scheduler, estop, telemetry;
      this.application, this.stack := application, stack;
      ledger := EMPTY_LEDGER;
    }

    /** The last step of starting: the network may be brought up. */
    method Start() returns (ghost at: nat)
      requires Valid()
      modifies Repr()
      ensures Valid() && Board() == old(Board()) && old(Now()) <= at <= Now()
      ensures State() == old(State()).(driver := Sessions.Begin(old(State()).driver, at))
    {
      hide SessionDriver.Valid, SessionDriver.State, SessionDriver.Board, SessionDriver.Repr, OutboundScheduler.Valid,
           OutboundScheduler.Model, EstopHandler.Model, TelemetryScheduler.Valid, TelemetryScheduler.Model;
      at := session.Begin();
    }

    // -------------------------------------------------------------------------------------
    // What the application asks, and what is noted.

    /** What the application calls at any time; the server goes on as a run. */
    method RequestEstopTriggered(why: reason) returns (status: RequestStatus, ghost at: nat)
      requires Valid() && IsRun(Board(), State(), Now())
      modifies Repr()
      ensures Valid() && Board() == old(Board()) && old(Now()) <= at <= Now() && IsRun(Board(), State(), Now())
      ensures State() == WithRequest(old(State()), Request(why, at)) && status == RequestStatusOf(old(State()).estop, why)
    {
      hide Valid, State, Repr, Board, IsRun, WithRequest;
      ghost var b, s, start := Board(), State(), Now();
      status, at := TakeRequest(why);
      RunGoesOn(b, s, start, AppRequest(Request(why, at)), Now());
    }

    method TakeRequest(why: reason) returns (status: RequestStatus, ghost at: nat)
      requires Valid()
      modifies Repr()
      ensures Valid() && Board() == old(Board()) && old(Now()) <= at <= Now()
      ensures State() == WithRequest(old(State()), Request(why, at)) && status == RequestStatusOf(old(State()).estop, why)
    {
      hide SessionDriver.Valid, SessionDriver.State, SessionDriver.Board, OutboundScheduler.Valid,
           OutboundScheduler.Model, TelemetryScheduler.Valid, TelemetryScheduler.Model;
      session.ServesItsRegistry();
      status, at := estop.RequestEstopTriggered(why, session.clock, scheduler);
      session.OnlyCounted();
      if status == Accepted {
        ledger := ledger.(requested := ledger.requested + [Alarm(why.value, at % TWO_64)]);
      }
    }

    /** The application may ask from any handler, hook or provider. */
    method RequestAll(reasons: seq<reason>) returns (ghost rs: seq<Request>)
      requires Valid()
      modifies Repr()
      ensures Valid() && Board() == old(Board()) && old(Now()) <= Now()
      ensures ReasonsOf(rs) == reasons && RequestedWithin(rs, old(Now()), Now())
      ensures State() == WithRequests(old(State()), rs)
    {
      hide Valid, State, Repr, Board, WithRequest;
      ghost var start := State();
      var i := 0;
      rs := [];
      while i < |reasons|
        invariant i <= |reasons| && Valid() && Board() == old(Board()) && old(Now()) <= Now()
        invariant ReasonsOf(rs) == reasons[..i] && RequestedWithin(rs, old(Now()), Now())
        invariant State() == WithRequests(start, rs)
      {
        var status;
        ghost var at;
        status, at := TakeRequest(reasons[i]);
        RequestsOneMore(start, rs, Request(reasons[i], at));
        rs := rs + [Request(reasons[i], at)];
        i := i + 1;
      }
      assert reasons[..i] == reasons;
    }

    /** Whatever the application asks for now. */
    method AskAll() returns (ghost rs: seq<Request>)
      requires Valid()
      modifies Repr()
      ensures Valid() && Board() == old(Board()) && old(Now()) <= Now() && RequestedWithin(rs, old(Now()), Now())
      ensures State() == WithRequests(WithFacts(old(State()), [Asked(ReasonsOf(rs))]), rs)
    {
      hide Valid, State, Repr, Board, WithRequests;
      var reasons := AskNow();
      rs := RequestAll(reasons);
    }

    method AskNow() returns (reasons: seq<reason>)
      requires Valid()
      modifies Repr()
      ensures Valid() && Board() == old(Board()) && old(Now()) <= Now()
      ensures State() == WithFacts(old(State()), [Asked(reasons)])
    {
      hide SessionDriver.Valid, SessionDriver.State, SessionDriver.Board, OutboundScheduler.Valid,
           OutboundScheduler.Model, EstopHandler.Model, TelemetryScheduler.Valid, TelemetryScheduler.Model;
      reasons := application.Ask();
      ledger := ledger.(app := application.log);
    }

    ghost method Note(book: Book, l: Ledger)
      requires Valid() && l.app == State().ledger.app && l.looks == State().ledger.looks
      modifies Repr()
      ensures Valid() && Board() == old(Board()) && old(Now()) <= Now() && State() == WithBook(old(State()), book).(ledger := l)
    {
      hide SessionDriver.Valid, SessionDriver.State, SessionDriver.Board, SessionDriver.Repr, OutboundScheduler.Valid,
           OutboundScheduler.Model, EstopHandler.Model, TelemetryScheduler.Valid, TelemetryScheduler.Model;
      session.NoteBook(book);
      ledger := l;
    }

    method Count(c: Values)
      requires Valid()
      modifies Repr()
      ensures Valid() && Board() == old(Board()) && old(Now()) <= Now() && State() == WithCounters(old(State()), c)
    {
      hide SessionDriver.Valid, SessionDriver.State, SessionDriver.Board, SessionDriver.Repr, OutboundScheduler.Valid,
           OutboundScheduler.Model, EstopHandler.Model, TelemetryScheduler.Valid, TelemetryScheduler.Model;
      session.SetCounters(c);
    }

    method Counted() returns (c: Values)
      requires Valid()
      ensures Valid() && Board() == old(Board()) && State() == old(State()) && c == State().driver.counters
    {
      hide LineFraming.LineFramer.Model, NetworkServer.Model, OutboundScheduler.Model, TelemetryScheduler.Valid,
           EstopHandler.Model;
      c := session.counters.values;
    }

    method Identity() returns (boardId: cstring)
      requires Valid()
      ensures Valid() && Board() == old(Board()) && State() == old(State()) && boardId == Board().identity.boardId
    {
      hide SessionDriver.Valid, SessionDriver.State, SessionDriver.Board, SessionDriver.Repr, OutboundScheduler.Valid,
           OutboundScheduler.Model, EstopHandler.Model, TelemetryScheduler.Valid, TelemetryScheduler.Model;
      boardId := telemetry.boardId;
    }

    // -------------------------------------------------------------------------------------
    // The session, seen from the loop.

    method PollSession() returns (ghost a: PollAnswers)
      requires Valid()
      modifies Repr()
      ensures Valid() && Board() == old(Board()) && old(Now()) <= Now() && PolledWithin(a, old(Now()), Now())
      ensures PollReadsOut(old(State()).driver, a)
      ensures var s := old(State());
              State() == s.(driver := Sessions.Poll(Board(), s.driver, a), ledger := s.ledger.(looks := s.ledger.looks + [AroundOf(a)]))
    {
      hide Valid, State, Repr, Board;
      var around := ObserveNetwork();
      a := PollIn(around);
    }

    method ObserveNetwork() returns (around: Surroundings)
      requires Valid()
      modifies Repr()
      ensures Valid() && Board() == old(Board()) && old(Now()) <= Now()
      ensures State() == old(State()).(ledger := old(State()).ledger.(looks := old(State()).ledger.looks + [around]))
    {
      hide SessionDriver.Valid, SessionDriver.State, SessionDriver.Board, OutboundScheduler.Valid,
           OutboundScheduler.Model, EstopHandler.Model, TelemetryScheduler.Valid, TelemetryScheduler.Model;
      around := stack.LookAround();
      ledger := ledger.(looks := stack.looks);
    }

    method PollIn(around: Surroundings) returns (ghost a: PollAnswers)
      requires Valid()
      modifies Repr()
      ensures Valid() && Board() == old(Board()) && old(Now()) <= Now()
      ensures AroundOf(a) == around && PolledWithin(a, old(Now()), Now()) && PollReadsOut(old(State()).driver, a)
      ensures State() == old(State()).(driver := Sessions.Poll(Board(), old(State()).driver, a))
    {
      hide SessionDriver.Valid, SessionDriver.State, SessionDriver.Board, SessionDriver.Repr, OutboundScheduler.Valid,
           OutboundScheduler.Model, EstopHandler.Model, TelemetryScheduler.Valid, TelemetryScheduler.Model;
      a := session.Poll(around);
    }

    method NextLine() returns (line: Option<string>, ghost late: seq<ReadEvent>)
      requires Valid()
      modifies Repr()
      ensures Valid() && Board() == old(Board()) && old(Now()) <= Now()
      ensures State() == old(State()).(driver := AfterNextLine(old(State()).driver, late))
      ensures line == Sessions.NextLine(old(State()).driver, late) && LineReadsOut(old(State()).driver, late)
    {
      hide SessionDriver.Valid, SessionDriver.State, SessionDriver.Board, SessionDriver.Repr, OutboundScheduler.Valid,
           OutboundScheduler.Model, EstopHandler.Model, TelemetryScheduler.Valid, TelemetryScheduler.Model;
      line, late := session.NextLine();
    }

    method ReleaseLine()
      requires Valid()
      modifies Repr()
      ensures Valid() && Board() == old(Board()) && old(Now()) <= Now()
      ensures State() == Released(old(State()))
    {
      hide SessionDriver.Valid, SessionDriver.State, SessionDriver.Board, SessionDriver.Repr, OutboundScheduler.Valid,
           OutboundScheduler.Model, EstopHandler.Model, TelemetryScheduler.Valid, TelemetryScheduler.Model;
      session.ReleaseLine();
    }

    method RequestTeardown(why: TeardownReason)
      requires Valid()
      modifies Repr()
      ensures Valid() && Board() == old(Board()) && old(Now()) <= Now()
      ensures State() == Torn(old(State()), why)
    {
      hide SessionDriver.Valid, SessionDriver.State, SessionDriver.Board, SessionDriver.Repr, OutboundScheduler.Valid,
           OutboundScheduler.Model, EstopHandler.Model, TelemetryScheduler.Valid, TelemetryScheduler.Model;
      session.AskTeardown(why);
    }

    method ApplyPendingTeardown() returns (ghost ps: seq<Promotion>)
      requires Valid()
      modifies Repr()
      ensures Valid() && Board() == old(Board()) && old(Now()) <= Now() && PromotedWithin(ps, old(Now()), Now())
      ensures State() == old(State()).(driver := Apply(Board(), old(State()).driver, ps))
    {
      hide SessionDriver.Valid, SessionDriver.State, SessionDriver.Board, SessionDriver.Repr, OutboundScheduler.Valid,
           OutboundScheduler.Model, EstopHandler.Model, TelemetryScheduler.Valid, TelemetryScheduler.Model;
      ps := session.ApplyPendingTeardown();
    }

    method SendActiveLine(line: string, cls: MessageClass) returns (result: SendResult, ghost accepted: nat)
      requires Valid()
      modifies Repr()
      ensures result == DeadlineExpired ==> Now() >= old(Now()) + Limits.TRANSMIT_DEADLINE_MS
      ensures Valid() && Board() == old(Board()) && old(Now()) <= Now()
      ensures var r := Sessions.SendActiveLine(old(State()).driver, line, cls, accepted);
              result == r.result && State() == old(State()).(driver := r.driver)
    {
      hide SessionDriver.Valid, SessionDriver.State, SessionDriver.Board, SessionDriver.Repr, OutboundScheduler.Valid,
           OutboundScheduler.Model, EstopHandler.Model, TelemetryScheduler.Valid, TelemetryScheduler.Model;
      result, accepted := session.SendActiveLine(line, cls);
    }

    method IsTeardownPending() returns (pending: bool)
      requires Valid()
      ensures Valid() && Board() == old(Board()) && State() == old(State()) && pending == State().driver.teardown
    {
      hide SessionDriver.State, OutboundScheduler.Valid, OutboundScheduler.Model, EstopHandler.Model,
           TelemetryScheduler.Valid;
      pending := session.IsTeardownPending();
    }

    method IsSessionLive() returns (live: bool)
      requires Valid()
      ensures Valid() && Board() == old(Board()) && State() == old(State()) && live == Serving.IsLive(State())
    {
      hide SessionDriver.Valid, SessionDriver.State, SessionDriver.Board, SessionDriver.Repr, OutboundScheduler.Valid,
           OutboundScheduler.Model, EstopHandler.Model, TelemetryScheduler.Valid, TelemetryScheduler.Model;
      live := session.IsSessionActive();
      if live {
        var pending := IsTeardownPending();
        live := !pending;
      }
    }

    // -------------------------------------------------------------------------------------
    // Telemetry and the safety event.

    method RunTelemetryDueCheck() returns (ghost p: Provided, ghost rs: seq<Request>)
      requires Valid()
      modifies Repr()
      ensures Valid() && Board() == old(Board()) && old(Now()) <= p.at <= p.stamped <= Now()
      ensures RequestedWithin(rs, old(Now()), Now())
      ensures forall a: Answers :: a.telemetry == p && a.providerRequests == rs ==>
                State() == TelemetryStage(Board(), old(State()), a)
    {
      hide Valid, State, Repr, Board, Framed, WithRequests, IsDue;
      p, rs := Provided(Now(), false, [], Now()), [];
      var live := IsSessionLive();
      if !live {
        TelemetryInactive();
        return;
      }
      ghost var t := State();
      var reasons;
      p, reasons := ServiceTelemetry();
      rs := RequestAll(reasons);
      NothingRequested(WithFacts(Framed(Board().identity.boardId, t, p), ProviderFacts(t.cadence, p, reasons)), rs);
    }

    method TelemetryInactive()
      requires Valid()
      modifies Repr()
      ensures Valid() && Board() == old(Board()) && old(Now()) <= Now()
      ensures State() == old(State()).(cadence := Inactive(old(State()).cadence))
    {
      hide SessionDriver.Valid, SessionDriver.State, SessionDriver.Board, OutboundScheduler.Valid,
           OutboundScheduler.Model, EstopHandler.Model, LineBuilding.LineBuffer.Valid;
      telemetry.OnSessionInactive();
    }

    method ReadClock() returns (now: uint64, ghost at: nat)
      requires Valid()
      modifies Repr()
      ensures Valid() && Board() == old(Board()) && old(Now()) <= at <= Now() && now == at % TWO_64
      ensures State() == old(State())
    {
      hide SessionDriver.Valid, SessionDriver.State, SessionDriver.Board, SessionDriver.Repr, OutboundScheduler.Valid,
           OutboundScheduler.Model, EstopHandler.Model, TelemetryScheduler.Valid, TelemetryScheduler.Model;
      now, at := session.ReadClock();
    }

    method ServiceTelemetry() returns (ghost p: Provided, reasons: seq<reason>)
      requires Valid()
      modifies Repr()
      ensures Valid() && Board() == old(Board()) && old(Now()) <= p.at <= p.stamped <= Now()
      ensures !IsDue(old(State()).cadence, p.at % TWO_64) ==> reasons == []
      ensures State() == WithFacts(Framed(Board().identity.boardId, old(State()), p), ProviderFacts(old(State()).cadence, p, reasons))
    {
      hide Valid, State, Repr, Board, Frame, CountedFrame, TelemetryScheduling.Serviced, TelemetryReplaced, IsDue;
      ghost var s := State();
      p, reasons := ServiceScheduler();
      ghost var t := WithFacts(Framed(Board().identity.boardId, s, p), ProviderFacts(s.cadence, p, reasons));
      Note(t.driver.record.book, t.ledger);
    }

    method ServiceScheduler() returns (ghost p: Provided, reasons: seq<reason>)
      requires Valid()
      modifies Repr()
      ensures Valid() && Board() == old(Board()) && old(Now()) <= p.at <= p.stamped <= Now()
      ensures !IsDue(old(State()).cadence, p.at % TWO_64) ==> reasons == []
      ensures var s, id := old(State()), Board().identity.boardId;
              var f := Frame(s.cadence, id, p);
              State() == WithFacts(
                WithCounters(s, CountedFrame(s.driver.counters, s.cadence, id, p, s.queue.telemetry.Some?)).(
                  cadence := TelemetryScheduling.Serviced(s.cadence, id, p),
                  queue := if f.Some? then TelemetryReplaced(s.queue, f.value) else s.queue),
                ProviderFacts(s.cadence, p, reasons))
    {
      hide SessionDriver.Valid, SessionDriver.State, SessionDriver.Board,
           OutboundScheduler.Valid, OutboundScheduler.Model, EstopHandler.Model, TelemetryScheduler.Valid,
           TelemetryScheduler.Model, Frame, CountedFrame, TelemetryScheduling.Serviced, TelemetryReplaced, IsDue;
      session.ServesItsRegistry();
      p, reasons := telemetry.Service(scheduler);
      session.OnlyCounted();
      ledger := ledger.(app := application.log);
    }

    method RunSafetyDueCheck() returns (teardown: bool)
      requires Valid()
      modifies Repr()
      ensures Valid() && Board() == old(Board()) && old(Now()) <= Now()
      ensures State() == if Serving.IsLive(old(State())) then SafetyOffer(Board(), old(State())) else old(State())
      ensures teardown <==> Serving.IsLive(old(State())) && ServiceFails(old(State()).estop, old(State()).queue, Board().identity.boardId)
    {
      hide Valid, State, Repr, Board, EventLine, EnqueueResultOf, EstopHandling.Serviced, ServicedQueue, ServiceFails;
      var live := IsSessionLive();
      if !live {
        return false;
      }
      ghost var s := State();
      teardown := ServiceEvent();
      ghost var t := SafetyOffer(Board(), s);
      Note(t.driver.record.book, t.ledger);
    }

    method ServiceEvent() returns (teardown: bool)
      requires Valid()
      modifies Repr()
      ensures Valid() && Board() == old(Board()) && old(Now()) <= Now()
      ensures var s, id := old(State()), Board().identity.boardId;
              && State() == s.(estop := EstopHandling.Serviced(s.estop, s.queue, id), queue := ServicedQueue(s.estop, s.queue, id))
              && (teardown <==> ServiceFails(s.estop, s.queue, id))
    {
      hide SessionDriver.Valid, SessionDriver.State, SessionDriver.Board, OutboundScheduler.Valid,
           OutboundScheduler.Model, EstopHandler.Model, TelemetryScheduler.Valid, TelemetryScheduler.Model,
           EstopHandling.Serviced, ServicedQueue, ServiceFails;
      teardown := estop.Service(scheduler, telemetry.boardId);
    }

    // -------------------------------------------------------------------------------------
    // Outbound lines.

    method HasPendingLine() returns (pending: bool)
      requires Valid()
      ensures Valid() && Board() == old(Board()) && State() == old(State()) && pending == HasPending(State().queue)
    {
      hide SessionDriver.Valid, SessionDriver.State, SessionDriver.Board, SessionDriver.Repr, EstopHandler.Model,
           TelemetryScheduler.Valid, TelemetryScheduler.Model;
      pending := scheduler.criticalCount > 0 || scheduler.telemetryActive;
    }

    method SelectNext() returns (next: Entry, index: int)
      requires Valid() && HasPending(State().queue)
      ensures Valid() && Board() == old(Board()) && State() == old(State()) && next == Next(State().queue)
      ensures index == if State().queue.critical == [] then -1 else Selected(State().queue.critical)
    {
      hide SessionDriver.Valid, SessionDriver.State, SessionDriver.Board, EstopHandler.Model, TelemetryScheduler.Valid,
           TelemetryScheduler.Model, Selected;
      index := scheduler.SelectCriticalIndex();
      if index >= 0 {
        next := Entry(scheduler.critical[index].kind, scheduler.critical[index].line);
      } else {
        next := Entry(Telemetry, scheduler.telemetryLine);
      }
    }

    method Remove(index: int)
      requires Valid() && HasPending(State().queue)
      requires index == if State().queue.critical == [] then -1 else Selected(State().queue.critical)
      modifies Repr()
      ensures Valid() && Board() == old(Board()) && old(Now()) <= Now()
      ensures State() == old(State()).(queue := Drained(old(State()).queue))
    {
      hide SessionDriver.Valid, SessionDriver.State, SessionDriver.Board, EstopHandler.Model, TelemetryScheduler.Valid,
           TelemetryScheduler.Model, OutboundScheduler.Entries, Selected, Without;
      if index >= 0 {
        scheduler.RemoveCritical(index);
      } else {
        scheduler.ClearTelemetry();
      }
    }

    /** Sends the next line, if any, and takes it from the queue whatever became of it. */
    method DrainOne() returns (drained: bool, outcome: Outcome, ghost accepted: nat)
      requires Valid()
      modifies Repr()
      ensures Valid() && Board() == old(Board()) && old(Now()) <= Now() && drained == HasPending(old(State()).queue)
      ensures !drained ==> State() == old(State())
      ensures drained ==> State() == Serving.Drain(old(State()), accepted) && outcome == DrainOutcome(old(State()), accepted)
      ensures drained && GivesUp(old(State()), accepted) ==> Now() >= old(Now()) + Limits.TRANSMIT_DEADLINE_MS
    {
      hide Valid, State, Repr, Board, Sessions.SendActiveLine, Drained, Next, Handed;
      drained := HasPendingLine();
      outcome, accepted := Outcome(Telemetry, SendFailed), 0;
      if !drained {
        return;
      }
      ghost var s := State();
      var next, index := SelectNext();
      var result: SendResult;
      result, accepted := SendActiveLine(next.line, ClassOf(next.kind));
      QueueKept(s, next, accepted);
      Remove(index);
      outcome := Outcome(next.kind, if result == SendResult.Sent then Completion.Sent else SendFailed);
      ghost var t := Serving.Drain(s, accepted);
      HandedKeepsLogs(s.ledger, next, result == SendResult.Sent);
      Note(t.driver.record.book, t.ledger);
    }

    // -------------------------------------------------------------------------------------
    // Outcomes and the end of a session.

    method RouteOutcome(o: Outcome)
      requires Valid()
      modifies Repr()
      ensures Valid() && Board() == old(Board()) && old(Now()) <= Now()
      ensures State() == Serving.RouteOutcome(old(State()), o)
    {
      hide Valid, State, Repr, Board, Resolved, QueueAfterOutcome;
      ghost var s := State();
      var c := Counted();
      if o.completion == Completion.Sent {
        match o.kind
        case Telemetry => Count(c.(telemetrySent := c.telemetrySent + 1));
        case EstopAck => Count(c.(estopAckSent := c.estopAckSent + 1));
        case HeartbeatAck => Count(c.(heartbeatAckSent := c.heartbeatAckSent + 1));
        case _ =>
      }
      CountingNothing(s);
      ResolveEvent(o);
      ghost var t := Serving.RouteOutcome(s, o);
      Note(t.driver.record.book, t.ledger);
    }

    method ResolveEvent(o: Outcome)
      requires Valid()
      modifies Repr()
      ensures Valid() && Board() == old(Board()) && old(Now()) <= Now()
      ensures State() == old(State()).(estop := Resolved(old(State()).estop, o),
                                       queue := QueueAfterOutcome(old(State()).estop, old(State()).queue, o))
    {
      hide SessionDriver.Valid, SessionDriver.State, SessionDriver.Board, OutboundScheduler.Valid,
           OutboundScheduler.Model, EstopHandler.Model, TelemetryScheduler.Valid, TelemetryScheduler.Model, Resolved,
           QueueAfterOutcome;
      estop.OnOutboundOutcome(o, scheduler);
    }

    method ClearForSessionEnd() returns (batch: seq<Outcome>)
      requires Valid()
      modifies Repr()
      ensures Valid() && Board() == old(Board()) && old(Now()) <= Now()
      ensures batch == Cancellations(old(State()).queue)
              && State() == old(State()).(queue := Cleared(old(State()).queue))
    {
      hide SessionDriver.Valid, SessionDriver.State, SessionDriver.Board, OutboundScheduler.Valid,
           OutboundScheduler.Model, EstopHandler.Model, TelemetryScheduler.Valid, TelemetryScheduler.Model,
           Cancellations, Cleared;
      batch := scheduler.ClearForSessionEnd();
    }

    method RouteBatch(batch: seq<Outcome>)
      requires Valid()
      modifies Repr()
      ensures Valid() && Board() == old(Board()) && old(Now()) <= Now()
      ensures State() == RouteAll(old(State()), batch)
    {
      hide Valid, State, Repr, Board, Serving.RouteOutcome;
      ghost var s := State();
      var i := 0;
      while i < |batch|
        invariant i <= |batch| && Valid() && Board() == old(Board()) && old(Now()) <= Now()
        invariant State() == RouteAll(s, batch[..i])
      {
        assert batch[..i + 1][..i] == batch[..i];
        RouteOutcome(batch[i]);
        i := i + 1;
      }
      assert batch[..i] == batch;
    }

    /** Everything queued is canceled and routed, then the session ends; the loss hook may ask for an e-stop event. */
    method CancelRouteAndApply() returns (ghost ps: seq<Promotion>, ghost rs: seq<Request>)
      requires Valid()
      modifies Repr()
      ensures Valid() && Board() == old(Board()) && old(Now()) <= Now()
      ensures PromotedWithin(ps, old(Now()), Now()) && RequestedWithin(rs, old(Now()), Now())
      ensures forall x: Answers :: x.promotions == ps && x.endRequests == rs ==> State() == Serving.EndSession(Board(), old(State()), x)
    {
      hide Valid, State, Repr, Board, RouteAll, WithRequests, Apply, Cancellations, Cleared;
      var batch := ClearForSessionEnd();
      RouteBatch(batch);
      TelemetryInactive();
      ps := ApplyPendingTeardown();
      rs := AskAll();
    }

    // -------------------------------------------------------------------------------------
    // Messages.

    method EnqueueCritical(kind: Kind, line: string) returns (result: EnqueueResult)
      requires Valid()
      modifies Repr()
      ensures Valid() && Board() == old(Board()) && old(Now()) <= Now()
      ensures State() == OfferLine(old(State()), kind, line)
              && result == EnqueueResultOf(old(State()).queue, kind, line)
    {
      hide Valid, State, Repr, Board, Enqueued, EnqueueResultOf;
      ghost var s := State();
      result := EnqueueInScheduler(kind, line);
      ghost var t := OfferLine(s, kind, line);
      Note(t.driver.record.book, t.ledger);
    }

    method EnqueueInScheduler(kind: Kind, line: string) returns (result: EnqueueResult)
      requires Valid()
      modifies Repr()
      ensures Valid() && Board() == old(Board()) && old(Now()) <= Now()
      ensures State() == old(State()).(queue := Enqueued(old(State()).queue, kind, line))
              && result == EnqueueResultOf(old(State()).queue, kind, line)
    {
      hide SessionDriver.Valid, SessionDriver.State, SessionDriver.Board, OutboundScheduler.Valid,
           OutboundScheduler.Model, EstopHandler.Model, TelemetryScheduler.Valid, TelemetryScheduler.Model, Enqueued,
           EnqueueResultOf;
      result := scheduler.EnqueueCritical(kind, line);
    }

    method ParseLine(line: string) returns (r: Received)
      requires Valid()
      modifies Repr()
      ensures Valid() && Board() == old(Board()) && old(Now()) <= Now()
      ensures State() == WithFacts(old(State()), [LineRead(line, r)])
      ensures r.ACommand? ==> |r.command.literal| < Limits.MAX_DOUBLE_LITERAL_BYTES
    {
      hide SessionDriver.Valid, SessionDriver.State, SessionDriver.Board, OutboundScheduler.Valid,
           OutboundScheduler.Model, EstopHandler.Model, TelemetryScheduler.Valid, TelemetryScheduler.Model;
      r := application.Parse(line);
      ledger := ledger.(app := application.log);
    }

    /** One line through the parser and its route. */
    method ProcessLine(line: string) returns (ghost m: Message, ghost rs: seq<Request>)
      requires Valid()
      modifies Repr()
      ensures Valid() && Board() == old(Board()) && old(Now()) <= Now()
      ensures IsReadable(m) && SaidWithin(m, old(Now()), Now()) && RequestedWithin(rs, old(Now()), Now())
      ensures forall a: Answers :: a.message == m && a.handlerRequests == rs ==> State() == Handle(Board(), old(State()), line, a)
    {
      hide Valid, State, Repr, Board, Handle, Route, RouteFacts, WithFacts, Runs;
      ghost var s := State();
      var received := ParseLine(line);
      ghost var t := State();
      m, rs := Unrouted, [];
      match received {
        case Ignored => UnroutedStays(Board(), t);
        case ForAnother =>
          m := WrongTarget;
          RouteToAnother();
        case ACommand(command) => m, rs := RouteCommand(command);
        case AnEstop => m, rs := RouteEstop();
        case AHeartbeat(n) =>
          m := HeartbeatMessage(n);
          RouteHeartbeat(n);
      }
      RoutesAsk(Board(), t, m, rs);
      forall a: Answers | a.message == m && a.handlerRequests == rs ensures State() == Handle(Board(), s, line, a) {
        HandlingRoutes(Board(), s, line, t, a);
      }
    }

    method RouteToAnother()
      requires Valid()
      modifies Repr()
      ensures Valid() && Board() == old(Board()) && old(Now()) <= Now()
      ensures State() == Route(Board(), old(State()), WrongTarget, [])
    {
      hide Valid, State, Repr, Board;
      var c := Counted();
      Count(c.(invalidTargets := c.invalidTargets + 1));
    }

    /** A dispatcher answers the command; without a queued response the session has to end. */
    method RouteCommand(command: Command) returns (ghost m: Message, ghost rs: seq<Request>)
      requires Valid() && |command.literal| < Limits.MAX_DOUBLE_LITERAL_BYTES
      modifies Repr()
      ensures Valid() && Board() == old(Board()) && old(Now()) <= Now()
      ensures m.CommandMessage? && m.command == command && SaidWithin(m, old(Now()), Now()) && RequestedWithin(rs, old(Now()), Now())
      ensures State() == Route(Board(), WithFacts(old(State()), RouteFacts(Board(), m, rs)), m, if Runs(Board(), m) then rs else [])
    {
      hide Valid, State, Repr, Board, Serving.Torn, WithRequests, Unanswered, Replied, Dispatching.Faulted,
           Dispatching.ResponseTo, Dispatching.Answered, Dispatching.Reaches, Dispatching.HandlerFacts;
      ghost var s := State();
      var teardown, reasons;
      ghost var x;
      teardown, reasons, x := DispatchCommand(command);
      m := CommandMessage(command, x);
      ghost var r, c := ResponseOf(Board(), m), s.driver.counters;
      ghost var f := WithFacts(s, Dispatching.HandlerFacts(Board().commands, command, x, reasons));
      ghost var u := WithCounters(f, Dispatching.Faulted(c.(commandsReceived := c.commandsReceived + 1), r.fault));
      ghost var t := Replied(u, r);
      AnsweringIsReplying(f, u, r, State(), teardown);
      Note(t.driver.record.book, t.ledger);
      rs := RequestAll(reasons);
      NoReasons(rs);
      if teardown {
        RequestTeardown(CriticalTransmitFailure);
      }
    }

    /** The route's dispatcher; all but the connection's book. */
    method DispatchCommand(command: Command) returns (teardown: bool, reasons: seq<reason>, ghost x: Dispatching.Course)
      requires Valid()
      modifies Repr()
      ensures Valid() && Board() == old(Board()) && old(Now()) <= x.now <= x.later <= Now()
      ensures !Dispatching.Reaches(Board().commands, command) ==> reasons == []
      ensures var facts := Dispatching.HandlerFacts(Board().commands, command, x, reasons);
              var s, c, t := WithFacts(old(State()), facts), old(State()).driver.counters, State();
              var r := Dispatching.ResponseTo(Board().commands, Board().identity.boardId, command, x);
              && t == WithCounters(s, t.driver.counters).(queue := t.queue)
              && Dispatching.Answered(s.queue, t.queue, Dispatching.Faulted(c.(commandsReceived := c.commandsReceived + 1), r.fault),
                                      t.driver.counters, teardown, r)
              && TookSoLong(old(session.clock.micros), session.clock.micros, x.us, r)
    {
      hide SessionDriver.Valid, SessionDriver.State, SessionDriver.Board, OutboundScheduler.Valid, OutboundScheduler.Model,
           EstopHandler.Model, TelemetryScheduler.Valid, TelemetryScheduler.Model, Dispatching.ResponseTo, Dispatching.HandlerFacts,
           Dispatching.Faulted, Dispatching.Answered, Dispatching.Reaches, Registry.CommandRegistry.Valid, Registry.CommandRegistry.Model;
      session.ServesItsRegistry();
      teardown, reasons, x := DispatchOnce(command, session.counters, session.registry, telemetry.boardId, session.clock, application,
                                           scheduler);
      session.OnlyCounted();
      ledger := ledger.(app := application.log);
    }

    method ApplyStop() returns (safe: bool, reasons: seq<reason>)
      requires Valid()
      modifies Repr()
      ensures Valid() && Board() == old(Board()) && old(Now()) <= Now()
      ensures State() == WithFacts(old(State()), [HookRan(safe, reasons)])
    {
      hide SessionDriver.Valid, SessionDriver.State, SessionDriver.Board, OutboundScheduler.Valid,
           OutboundScheduler.Model, EstopHandler.Model, TelemetryScheduler.Valid, TelemetryScheduler.Model;
      safe, reasons := application.RunEstopHook();
      ledger := ledger.(app := application.log);
    }

    /** The hook runs once; only the safe state it reports is acknowledged. */
    method RouteEstop() returns (ghost m: Message, ghost rs: seq<Request>)
      requires Valid()
      modifies Repr()
      ensures Valid() && Board() == old(Board()) && old(Now()) <= Now()
      ensures m.EstopMessage? && SaidWithin(m, old(Now()), Now()) && RequestedWithin(rs, old(Now()), Now())
      ensures State() == Route(Board(), WithFacts(old(State()), RouteFacts(Board(), m, rs)), m, rs)
      ensures application.log == old(application.log) + [HookRan(m.safe, ReasonsOf(rs))]
      ensures State().ledger.safeReturns == old(State()).ledger.safeReturns + if m.safe then 1 else 0
    {
      hide Valid, State, Repr, Board, Serving.Torn, OfferLine, EnqueueResultOf, WithRequests, AckSafeStop, Route;
      LogsAreNoted();
      ghost var s := State();
      var c := Counted();
      Count(c.(estopReceived := c.estopReceived + 1));
      var safe, reasons := ApplyStop();
      rs := RequestAll(reasons);
      ghost var t := WithFacts(s, [HookRan(safe, reasons)]);
      c := Counted();
      if !safe {
        Count(c.(estopApplyFailed := c.estopApplyFailed + 1));
        m := EstopMessage(false, Now());
      } else {
        var timestamp;
        ghost var at;
        timestamp, at := ReadClock();
        AcknowledgeSafe(timestamp);
        m := EstopMessage(true, at);
      }
      EstopRoute(Board(), t, m, rs);
      LogsAreNoted();
    }

    /** The ledger keeps the logs of what was asked and answered. */
    lemma LogsAreNoted()
      requires Valid()
      ensures State().ledger == ledger && ledger.app == application.log && ledger.looks == stack.looks
    {
      hide SessionDriver.Valid, SessionDriver.State, SessionDriver.Board, OutboundScheduler.Valid,
           OutboundScheduler.Model, EstopHandler.Model, TelemetryScheduler.Valid, TelemetryScheduler.Model;
    }

    method AcknowledgeSafe(timestamp: uint64)
      requires Valid()
      modifies Repr()
      ensures Valid() && Board() == old(Board()) && old(Now()) <= Now()
      ensures State() == AckSafeStop(Board(), old(State()), timestamp)
    {
      hide Valid, State, Repr, Board, Serving.Torn, OfferLine, EnqueueResultOf, AckLine;
      ghost var s := State();
      Note(s.driver.record.book.(safe := s.driver.record.book.safe + 1), s.ledger.(safeReturns := s.ledger.safeReturns + 1));
      var boardId := Identity();
      var line := BuildAck(boardId, timestamp);
      if line == None {
        var c := Counted();
        Count(c.(estopApplyFailed := c.estopApplyFailed + 1));
        RequestTeardown(CriticalTransmitFailure);
        return;
      }
      var result := EnqueueCritical(EstopAck, line.value);
      if result != Queued {
        RequestTeardown(CriticalTransmitFailure);
      }
    }

    method BuildAck(boardId: cstring, timestamp: uint64) returns (line: Option<string>)
      requires Valid()
      ensures Valid() && Board() == old(Board()) && State() == old(State()) && line == AckLine(boardId, timestamp)
    {
      hide SessionDriver.Valid, SessionDriver.State, SessionDriver.Board, OutboundScheduler.Valid,
           OutboundScheduler.Model, EstopHandler.Model, TelemetryScheduler.Valid, TelemetryScheduler.Model, AckLine;
      line := BuildAckLine(boardId, timestamp);
    }

    method BuildHeartbeat(boardId: cstring, n: uint64) returns (line: Option<string>)
      requires Valid()
      ensures Valid() && Board() == old(Board()) && State() == old(State()) && line == HeartbeatLine(boardId, n)
    {
      hide SessionDriver.Valid, SessionDriver.State, SessionDriver.Board, OutboundScheduler.Valid,
           OutboundScheduler.Model, EstopHandler.Model, TelemetryScheduler.Valid, TelemetryScheduler.Model,
           HeartbeatLine;
      line := BuildHeartbeatLine(boardId, n);
    }

    method RouteHeartbeat(n: uint64)
      requires Valid()
      modifies Repr()
      ensures Valid() && Board() == old(Board()) && old(Now()) <= Now()
      ensures State() == Route(Board(), old(State()), HeartbeatMessage(n), [])
    {
      hide Valid, State, Repr, Board, Serving.Torn, OfferLine, EnqueueResultOf, HeartbeatLine;
      var c := Counted();
      Count(c.(heartbeatReceived := c.heartbeatReceived + 1));
      var boardId := Identity();
      var line := BuildHeartbeat(boardId, n);
      if line == None {
        RequestTeardown(CriticalTransmitFailure);
        return;
      }
      var result := EnqueueCritical(HeartbeatAck, line.value);
      if result != Queued {
        RequestTeardown(CriticalTransmitFailure);
      }
    }

    // -------------------------------------------------------------------------------------
    // The call.

    /** Drains and routes one line; `ended` says whether that ended the session. */
    method DrainRouteAndMaybeTeardown(lineAcquired: bool)
      returns (ended: bool, ghost accepted: nat, ghost ps: seq<Promotion>, ghost rs: seq<Request>)
      requires Valid() && HasPending(State().queue) && (lineAcquired || !State().driver.framer.acquired)
      modifies Repr()
      ensures Valid() && Board() == old(Board()) && old(Now()) <= Now()
      ensures PromotedWithin(ps, old(Now()), Now()) && RequestedWithin(rs, old(Now()), Now())
      ensures forall x: Answers :: x.promotions == ps && x.endRequests == rs ==>
                DrainStage(Board(), old(State()), accepted, x) == if ended then Done(State()) else Go(State())
      ensures !ended ==> forall x: Answers :: DrainStage(Board(), old(State()), accepted, x) == Go(State())
    {
      hide Valid, State, Repr, Board, Serving.Drain, DrainOutcome, Serving.RouteOutcome, Serving.EndSession,
           Sessions.RequestTeardown;
      ghost var s := State();
      var drained, outcome, taken := DrainOne();
      accepted := taken;
      RouteOutcome(outcome);
      ghost var t := State();
      DrainKeepsFramer(s, accepted);
      var pending := IsTeardownPending();
      ended := pending || (outcome.completion == SendFailed && outcome.kind != Telemetry);
      ps, rs := [], [];
      if ended {
        if !pending {
          RequestTeardown(CriticalTransmitFailure);
        }
        TornKeeps(t, CriticalTransmitFailure);
        if lineAcquired {
          ReleaseLine();
        }
        ps, rs := CancelRouteAndApply();
      }
    }

    /** The acquired line is handled and given back; a line is drained unless one was already. */
    method ServeMessage(line: string, drained: bool)
      returns (ghost m: Message, ghost asked: seq<Request>, ghost second: nat, ghost ps: seq<Promotion>, ghost rs: seq<Request>)
      requires Valid()
      modifies Repr()
      ensures Valid() && Board() == old(Board()) && old(Now()) <= Now()
      ensures IsReadable(m) && SaidWithin(m, old(Now()), Now()) && RequestedWithin(asked, old(Now()), Now())
      ensures PromotedWithin(ps, old(Now()), Now()) && RequestedWithin(rs, old(Now()), Now())
      ensures forall x: Answers ::
                (&& x.message == m && x.handlerRequests == asked && x.secondAccepted == second
                 && x.promotions == ps && x.endRequests == rs) ==> State() == MessageStage(Board(), old(State()), line, drained, x)
    {
      hide Valid, State, Repr, Board, Serving.EndSession, Handle, DrainStage, HasPending;
      second, ps, rs := 0, [], [];
      m, asked := ProcessLine(line);
      ReleaseLine();
      var pending := IsTeardownPending();
      if pending {
        ps, rs := CancelRouteAndApply();
        return;
      }
      var waiting := HasPendingLine();
      if !drained && waiting {
        var ended;
        ended, second, ps, rs := DrainRouteAndMaybeTeardown(false);
      } else {
        NothingToDrainStage(Board(), State());
      }
    }

    /** One call of `service()`: what it did is the step for the answers it got while it ran. */
    method Service() returns (ghost a: Answers)
      requires Valid() && IsRun(Board(), State(), Now())
      modifies Repr()
      ensures Valid() && Board() == old(Board()) && IsRun(Board(), State(), Now())
      ensures IsReadable(a.message) && AnsweredWithin(a, old(Now()), Now()) && ReadsAll(Board(), old(State()), a)
      ensures State() == ServiceStep(Board(), old(State()), a) && Boundary(Board(), State())
    {
      hide Valid, State, Repr, Board, Boundary, IsRun, ServiceStep, IsReadable, PolledWithin, RequestedWithin, SaidWithin, ReadsAll;
      ghost var b, s, start := Board(), State(), Now();
      RunIsBoundary(b, s, start);
      a := Work();
      RunGoesOn(b, s, start, ServiceCall(a), Now());
      StepKeepsBoundary(b, s, a);
    }

    method Work() returns (ghost a: Answers)
      requires Valid() && Boundary(Board(), State())
      modifies Repr()
      ensures Valid() && Board() == old(Board()) && old(Now()) <= Now()
      ensures IsReadable(a.message) && AnsweredWithin(a, old(Now()), Now()) && ReadsAll(Board(), old(State()), a)
      ensures State() == ServiceStep(Board(), old(State()), a)
    {
      hide Valid, State, Repr, Board, Boundary, PollStage, LineStage, Serving.EndSession, ServeStage,
           Sessions.NextLine, HasPending, Serving.IsLive, AnsweredWithin, RequestedWithin, PromotedWithin, ReadsAll;
      ghost var s := State();
      var line;
      line, a := Listen();
      ghost var heard := Now();
      ListeningAcquires(Board(), s, a);
      var pending := IsTeardownPending();
      if pending {
        if line.Some? {
          ReleaseLine();
        }
        ghost var torn := Now();
        AnsweredNext(a, a, old(Now()), heard, torn);
        ghost var ps, rs := CancelRouteAndApply();
        ghost var b := a.(promotions := ps, endRequests := rs);
        ListenedTo(Board(), s, a, b);
        AnsweredNext(a, b, old(Now()), torn, Now());
        a := b;
      } else {
        ghost var b := Serve(line, a, old(Now()));
        ListenedTo(Board(), s, a, b);
        a := b;
      }
    }

    method Listen() returns (line: Option<string>, ghost a: Answers)
      requires Valid()
      modifies Repr()
      ensures Valid() && Board() == old(Board()) && old(Now()) <= Now() && AnsweredWithin(a, old(Now()), Now()) && IsReadable(a.message)
      ensures var t := PollStage(Board(), old(State()), a);
              State() == LineStage(t, a) && line == Sessions.NextLine(t.driver, a.late)
      ensures ReadsAll(Board(), old(State()), a)
    {
      hide Valid, State, Repr, Board, Sessions.Poll, WithRequests, AfterNextLine, Sessions.NextLine, PollReadsOut, LineReadsOut;
      ghost var poll := PollSession();
      ghost var rs := AskAll();
      ghost var late;
      line, late := NextLine();
      a := NoAnswers(Now()).(poll := poll, pollRequests := rs, late := late);
    }

    method Serve(line: Option<string>, ghost a: Answers, ghost from: nat) returns (ghost b: Answers)
      requires Valid() && (line.Some? || !State().driver.framer.acquired) && IsReadable(a.message) && AnsweredWithin(a, from, Now())
      modifies Repr()
      ensures Valid() && Board() == old(Board()) && old(Now()) <= Now()
      ensures SameListening(a, b) && IsReadable(b.message) && AnsweredWithin(b, from, Now())
      ensures State() == ServeStage(Board(), old(State()), line, b)
    {
      hide Valid, State, Repr, Board, Serving.EndSession, TelemetryStage, SafetyOffer, ServiceFails, DrainStage,
           MessageStage, HasPending, Serving.IsLive, Sessions.RequestTeardown, AnsweredWithin, RequestedWithin, PromotedWithin;
      ghost var s := State();
      ghost var p, asked := RunTelemetryDueCheck();
      b := a.(telemetry := p, providerRequests := asked);
      AnsweredNext(a, b, from, old(Now()), Now());
      TelemetryKeepsFramer(Board(), s, b);
      ghost var framed, read := State(), Now();
      var failed := RunSafetyDueCheck();
      SafetyKeepsFramer(Board(), framed);
      if failed {
        RequestTeardown(CriticalTransmitFailure);
        ghost var torn := Now();
        AnsweredNext(b, b, from, read, torn);
        ghost var ps, rs := CancelRouteAndApply();
        ghost var c := b.(promotions := ps, endRequests := rs);
        AnsweredNext(b, c, from, torn, Now());
        TelemetryOnly(Board(), s, b, c);
        b := c;
        return;
      }
      AnsweredNext(b, b, from, read, Now());
      ghost var c := DrainAndServe(line, b, from);
      TelemetryOnly(Board(), s, b, c);
      b := c;
    }

    /** One line out, then the line in. */
    method DrainAndServe(line: Option<string>, ghost a: Answers, ghost from: nat) returns (ghost b: Answers)
      requires Valid() && (line.Some? || !State().driver.framer.acquired) && IsReadable(a.message) && AnsweredWithin(a, from, Now())
      modifies Repr()
      ensures Valid() && Board() == old(Board()) && old(Now()) <= Now()
      ensures SameListening(a, b) && b.telemetry == a.telemetry && b.providerRequests == a.providerRequests
      ensures IsReadable(b.message) && AnsweredWithin(b, from, Now())
      ensures State() == match DrainStage(Board(), old(State()), b.firstAccepted, b)
                         case Done(u) => u
                         case Go(u) => if line.Some? then MessageStage(Board(), u, line.value, HasPending(old(State()).queue), b) else u
    {
      hide Valid, State, Repr, Board, DrainStage, MessageStage, HasPending, AnsweredWithin, RequestedWithin, PromotedWithin;
      ghost var safe, start := State(), Now();
      b := a;
      var waiting := HasPendingLine();
      if waiting {
        var ended;
        ghost var first, ps, rs;
        ended, first, ps, rs := DrainRouteAndMaybeTeardown(line.Some?);
        b := b.(firstAccepted := first, promotions := ps, endRequests := rs);
        AnsweredNext(a, b, from, start, Now());
        if ended {
          return;
        }
      } else {
        NothingToDrainStage(Board(), safe);
      }
      ghost var drained, sent := State(), Now();
      if line.Some? {
        ghost var m, handled, second, ps, rs := ServeMessage(line.value, waiting);
        ghost var c := b.(message := m, handlerRequests := handled, secondAccepted := second, promotions := ps, endRequests := rs);
        AnsweredNext(b, c, from, sent, Now());
        b := c;
      }
      assert DrainStage(Board(), safe, b.firstAccepted, b) == Go(drained);
    }
  }

  /** What the dispatcher does to queue and counters is what the loop's route does, but for the book. */
  lemma AnsweringIsReplying(s: Server, u: Server, r: Dispatching.Response, t: Server, teardown: bool)
    requires u == WithCounters(s, u.driver.counters)
    requires t == WithCounters(s, t.driver.counters).(queue := t.queue)
    requires Dispatching.Answered(s.queue, t.queue, u.driver.counters, t.driver.counters, teardown, r)
    ensures teardown <==> Unanswered(u.queue, r)
    ensures Replied(u, r) == WithBook(t, Replied(u, r).driver.record.book) && Replied(u, r).ledger == t.ledger
  {
    hide Enqueued, EnqueueResultOf;
  }

  lemma {:induction false} RequestsOneMore(s: Server, rs: seq<Request>, r: Request)
    ensures WithRequests(s, rs + [r]) == WithRequest(WithRequests(s, rs), r)
    decreases |rs|
  {
    hide WithRequest;
    if rs == [] {
      assert [r][1..] == [];
    } else {
      assert (rs + [r])[1..] == rs[1..] + [r];
      RequestsOneMore(WithRequest(s, rs[0]), rs[1..], r);
    }
  }

  lemma NothingRequested(s: Server, rs: seq<Request>)
    ensures ReasonsOf(rs) == [] ==> WithRequests(s, rs) == s
  {
    assert |ReasonsOf(rs)| == |rs|;
  }

  lemma NoReasons(rs: seq<Request>)
    ensures ReasonsOf(rs) == [] ==> rs == []
  {
    assert |ReasonsOf(rs)| == |rs|;
  }

  /** What asks the application nothing leaves the log as it is; the hook of a stop always runs. */
  lemma RoutesAsk(b: Registry.Board, t: Server, m: Message, rs: seq<Request>)
    ensures !m.CommandMessage? && !m.EstopMessage? ==> WithFacts(t, RouteFacts(b, m, rs)) == t && !Runs(b, m)
    ensures m.EstopMessage? ==> Runs(b, m)
  {
    hide Dispatching.HandlerFacts, ReasonsOf;
  }

  /** The line is read first, then the message goes its route. */
  lemma HandlingRoutes(b: Registry.Board, s: Server, line: string, t: Server, a: Answers)
    requires t == WithFacts(s, [LineRead(line, ReceivedOf(a.message))])
    ensures var m, rs := a.message, a.handlerRequests;
            Handle(b, s, line, a) == Route(b, WithFacts(t, RouteFacts(b, m, rs)), m, if Runs(b, m) then rs else [])
  {
    hide Route, RouteFacts, Runs;
    var facts := RouteFacts(b, a.message, a.handlerRequests);
    var read := [LineRead(line, ReceivedOf(a.message))];
    assert s.ledger.app + read + facts == s.ledger.app + (read + facts);
  }

  lemma UnroutedStays(b: Registry.Board, s: Server)
    ensures Route(b, s, Unrouted, []) == s
  {
  }

  /** The route of a controller's stop, in the order the source takes. */
  lemma EstopRoute(b: Registry.Board, s: Server, m: Message, rs: seq<Request>)
    requires m.EstopMessage?
    ensures var c := s.driver.counters;
            var t := WithRequests(WithCounters(s, c.(estopReceived := c.estopReceived + 1)), rs);
            Route(b, s, m, rs) == if m.safe then AckSafeStop(b, t, m.at % TWO_64)
                                  else WithCounters(t, t.driver.counters.(estopApplyFailed := t.driver.counters.estopApplyFailed + 1))
    ensures Route(b, s, m, rs).ledger.app == s.ledger.app
    ensures Route(b, s, m, rs).ledger.safeReturns == s.ledger.safeReturns + if m.safe then 1 else 0
  {
    hide WithRequests, AckLine, EnqueueResultOf, Enqueued;
    var c := s.driver.counters;
    RequestsNoteNothing(WithCounters(s, c.(estopReceived := c.estopReceived + 1)), rs);
  }

  lemma {:induction false} RequestsNoteNothing(s: Server, rs: seq<Request>)
    ensures var l := WithRequests(s, rs).ledger; l.app == s.ledger.app && l.safeReturns == s.ledger.safeReturns
    decreases |rs|
  {
    if rs != [] {
      RequestsNoteNothing(WithRequest(s, rs[0]), rs[1..]);
    }
  }

  /** Answers that came in later are newer; the others are as they were. */
  lemma AnsweredNext(a: Answers, b: Answers, from: nat, mid: nat, until: nat)
    requires AnsweredWithin(a, from, mid) && mid <= until && SameListening(a, b)
    requires b.telemetry == a.telemetry || mid <= b.telemetry.at <= b.telemetry.stamped <= until
    requires b.providerRequests == a.providerRequests || RequestedWithin(b.providerRequests, mid, until)
    requires b.message == a.message || SaidWithin(b.message, mid, until)
    requires b.handlerRequests == a.handlerRequests || RequestedWithin(b.handlerRequests, mid, until)
    requires b.promotions == a.promotions || PromotedWithin(b.promotions, mid, until)
    requires b.endRequests == a.endRequests || RequestedWithin(b.endRequests, mid, until)
    ensures AnsweredWithin(b, from, until)
  {
  }

  /** The telemetry stage depends on no other answers. */
  lemma TelemetryOnly(b: Registry.Board, s: Server, x: Answers, y: Answers)
    requires y.telemetry == x.telemetry && y.providerRequests == x.providerRequests
    ensures TelemetryStage(b, s, y) == TelemetryStage(b, s, x)
  {
    hide Framed, WithRequests, ProviderFacts;
  }

  predicate SameListening(a: Answers, b: Answers) {
    b.poll == a.poll && b.pollRequests == a.pollRequests && b.late == a.late
  }

  /** Polling and asking for a line depend on no other answers. */
  lemma ListenedTo(b: Registry.Board, s: Server, x: Answers, y: Answers)
    requires SameListening(x, y)
    ensures PollStage(b, s, x) == PollStage(b, s, y)
    ensures LineStage(PollStage(b, s, x), x) == LineStage(PollStage(b, s, y), y)
    ensures ReadsAll(b, s, x) <==> ReadsAll(b, s, y)
  {
    hide Sessions.Poll, WithRequests, AfterNextLine, PollReadsOut, LineReadsOut;
  }

  method BoardIdOf(registry: Registry.CommandRegistry) returns (boardId: cstring)
    requires registry.Valid()
    ensures boardId == registry.Model().identity.boardId
  {
    boardId := registry.identity.boardId;
  }

  method NewHandlers(counters: Counters, boardId: cstring, clock: Clock)
    returns (scheduler: OutboundScheduler, estop: EstopHandler, telemetry: TelemetryScheduler, application: Application, stack: NetworkStack)
    ensures scheduler.Valid() && telemetry.Valid() && telemetry.counters == counters && telemetry.boardId == boardId
            && telemetry.clock == clock && telemetry.application == application
    ensures scheduler.Model() == EMPTY_QUEUE && estop.Model() == NothingPending
            && telemetry.Model() == TelemetryScheduling.INITIAL && application.log == [] && stack.looks == []
    ensures fresh({scheduler, scheduler.critical, estop, telemetry, telemetry.line, telemetry.line.bytes, application, stack})
  {
    hide OutboundScheduler.Valid, OutboundScheduler.Model, TelemetryScheduler.Valid, TelemetryScheduler.Model,
         EstopHandler.Model;
    scheduler := new OutboundScheduler();
    estop := new EstopHandler();
    application := new Application();
    stack := new NetworkStack();
    telemetry := new TelemetryScheduler(counters, boardId, clock, application);
  }

  method NewLoop(session: SessionDriver, boardId: cstring) returns (server: ServiceLoop)
    requires session.Valid() && boardId == session.Board().identity.boardId
    ensures server.Valid() && server.session == session && fresh(server.Own())
    ensures server.Board() == old(session.Board())
    ensures server.State() == Server(old(session.State()), EMPTY_QUEUE, NothingPending, TelemetryScheduling.INITIAL, EMPTY_LEDGER)
  {
    hide SessionDriver.Valid, SessionDriver.State, SessionDriver.Board, OutboundScheduler.Valid,
         OutboundScheduler.Model, TelemetryScheduler.Valid, TelemetryScheduler.Model, EstopHandler.Model;
    var scheduler, estop, telemetry, application, stack := NewHandlers(session.counters, boardId, session.clock);
    server := new ServiceLoop(session, scheduler, estop, telemetry, application, stack);
  }

  method NewSession(clock: Clock, registry: Registry.CommandRegistry) returns (session: SessionDriver)
    requires registry.Valid()
    ensures session.Valid() && session.Board() == registry.Model() && session.State() == NEW_DRIVER && session.clock == clock
    ensures fresh(session.Repr() - {clock})
  {
    hide SessionDriver.Valid, SessionDriver.State, SessionDriver.Board, Registry.CommandRegistry.Model,
         Registry.CommandRegistry.Valid;
    var counters := new Counters();
    session := new SessionDriver(clock, counters, registry);
  }

  /** A fresh server over a sealed registry. */
  method NewServer(clock: Clock, registry: Registry.CommandRegistry) returns (server: ServiceLoop)
    requires registry.Valid()
    ensures server.Valid() && server.Board() == registry.Model() && server.State() == NEW_SERVER && server.session.clock == clock
    ensures fresh(server.Repr() - {clock})
  {
    hide ServiceLoop.Valid, ServiceLoop.State, ServiceLoop.Board, ServiceLoop.Own, SessionDriver.Valid,
         SessionDriver.State, SessionDriver.Board, SessionDriver.Repr, Registry.CommandRegistry.Model,
         Registry.CommandRegistry.Valid;
    var boardId := BoardIdOf(registry);
    var session := NewSession(clock, registry);
    server := NewLoop(session, boardId);
  }

  /**
   Starting: validate, check the size, seal, then build the server and let it begin. A server that
   starts satisfies the invariant every later call keeps.
   */
  method StartServer(clock: Clock, registry: Registry.CommandRegistry, networkConfigured: bool)
    returns (status: Registry.Status, server: ServiceLoop?, ghost boot: nat)
    requires registry.Valid() && Registry.WellFormed(registry.Model())
    modifies registry, clock
    ensures status == SchemaWriting.SealStatus(old(registry.Model()), networkConfigured)
    ensures server != null <==> status == Registry.Ok
    ensures server != null ==>
              && server.Valid() && server.Board() == old(registry.Model()).(isSealed := true)
              && server.State() == ServiceRuns.Play(server.Board(), boot, []) && IsRun(server.Board(), server.State(), server.Now())
              && server.session.clock == clock && old(clock.ticks) <= boot <= clock.ticks
  {
    hide ServiceLoop.Valid, ServiceLoop.State, ServiceLoop.Board, IsRun, ServiceRuns.Play, ServiceLoop.Repr, Registry.CommandRegistry.Model,
         Registry.CommandRegistry.Valid, Sessions.Begin, CanServe;
    boot := clock.ticks;
    ghost var b := registry.Model();
    status := SchemaWriting.Seal(registry, networkConfigured);
    if status != Registry.Ok {
      return status, null, boot;
    }
    SealedCanServe(b, networkConfigured);
    var s := NewServer(clock, registry);
    boot := s.Start();
    server := s;
    StartOfPlay(s.Board(), boot);
    StartIsRun(s.Board(), boot, s.Now());
  }

  lemma StartOfPlay(b: Registry.Board, boot: nat)
    ensures ServiceRuns.Play(b, boot, []) == NEW_SERVER.(driver := Sessions.Begin(NEW_DRIVER, boot))
  {
  }

  lemma SealedCanServe(b: Registry.Board, networkConfigured: bool)
    requires Registry.WellFormed(b) && SchemaWriting.SealStatus(b, networkConfigured) == Registry.Ok
    ensures CanServe(b.(isSealed := true))
  {
    SchemaWriting.SealingKeepsTheSchema(b, Schema.MAX_TIMESTAMP);
  }

  /** A line is handed out exactly when the framer is left holding one. */
  lemma ListeningAcquires(b: Registry.Board, s: Server, a: Answers)
    requires Boundary(b, s)
    ensures var t := PollStage(b, s, a); Sessions.NextLine(t.driver, a.late).Some? <==> LineStage(t, a).driver.framer.acquired
  {
    hide Boundary, PollStage, LineStage, Sessions.NextLine, Running, MayFollow;
    PollRuns(b, s, a);
    LineRuns(b, PollStage(b, s, a), a);
  }

  lemma TelemetryKeepsFramer(b: Registry.Board, s: Server, a: Answers)
    ensures TelemetryStage(b, s, a).driver.framer == s.driver.framer
  {
    hide WithRequests, Frame, CountedFrame, IsDue;
    RequestsRemember(FramedAndNoted(b, s, a), a.providerRequests);
  }

  lemma SafetyKeepsFramer(b: Registry.Board, s: Server)
    ensures SafetyOffer(b, s).driver.framer == s.driver.framer
  {
  }

  lemma DrainKeepsFramer(s: Server, accepted: nat)
    requires HasPending(s.queue)
    ensures Serving.RouteOutcome(Serving.Drain(s, accepted), DrainOutcome(s, accepted)).driver.framer == s.driver.framer
  {
    hide Next, Drained, IsValidWireLine, Transmitted, CountedOutcome;
    SendKeepsFramer(s.driver, Next(s.queue).line, ClassOf(Next(s.queue).kind), accepted);
  }

  lemma SendKeepsFramer(d: Driver, line: string, cls: MessageClass, accepted: nat)
    ensures Sessions.SendActiveLine(d, line, cls, accepted).driver.framer == d.framer
  {
  }

  lemma TornKeeps(s: Server, why: TeardownReason)
    ensures s.driver.teardown ==> Torn(s, why) == s
    ensures Torn(s, why).driver.framer == s.driver.framer
    ensures !s.driver.framer.acquired ==> Released(Torn(s, why)) == Torn(s, why)
  {
  }

  lemma NothingToDrainStage(b: Registry.Board, s: Server)
    ensures !HasPending(s.queue) ==> forall n: nat, x: Answers :: DrainStage(b, s, n, x) == Go(s)
  {
  }

  /** The next line is given up for want of time. */
  predicate GivesUp(s: Server, accepted: nat)
    requires HasPending(s.queue)
  {
    Sessions.SendActiveLine(s.driver, Next(s.queue).line, ClassOf(Next(s.queue).kind), accepted).result == DeadlineExpired
  }

  lemma HandedKeepsLogs(l: Ledger, e: Entry, sent: bool)
    ensures Handed(l, e, sent).app == l.app && Handed(l, e, sent).looks == l.looks
  {
  }

  lemma QueueKept(s: Server, next: Entry, accepted: nat)
    ensures s.(driver := Sessions.SendActiveLine(s.driver, next.line, ClassOf(next.kind), accepted).driver).queue == s.queue
  {
  }

  lemma CountingNothing(s: Server)
    ensures WithCounters(s, s.driver.counters) == s
  {
  }
}
