/** Every command that reaches the dispatcher in a live session gets its one response. */
module CommandRouting {
  import opened Common
  import opened CounterBank
  import opened Connections
  import opened Scheduling
  import opened Sessions
  import opened Serving
  import opened ServiceInvariant
  import opened ServiceStages
  import opened ServiceRuns
  import opened Applications
  import Registry
  import Schema
  import SchemaWriting
  import Payloads
  import Dispatching
  import ResponseParsing
  import Limits

  lemma CommandsAreServed(b: Registry.Board, command: Command, x: Dispatching.Course)
    requires CanServe(b) && |command.literal| < Limits.MAX_DOUBLE_LITERAL_BYTES
    ensures var r := Dispatching.ResponseTo(b.commands, b.identity.boardId, command, x);
            && r.line.Some? && Dispatching.IsOneLine(r.line.value) && IsValidLine(r.line.value)
            && (ResponseParsing.SaysOk(r.line.value) <==> r.ok)
  {
    hide Dispatching.Respond, Payloads.Filled, Schema.MaximumSchemaFits, ResponseParsing.SaysOk;
    var h := Dispatching.Handled(x.answer.ok, x.answer.code, x.answer.message, Payloads.Filled(x.uses));
    Dispatching.AlwaysAnswers(b.commands, Dispatching.OriginOf(command, b.identity.boardId, x.now), command.name, command.args, h,
                              x.uses, x.us, x.later % TWO_64);
    ResponseParsing.ResponseSaysWhich(b.commands, Dispatching.OriginOf(command, b.identity.boardId, x.now), command.name, command.args, h,
                                      x.uses, x.us, x.later % TWO_64);
  }

  /** Offering the response and applying the handler's requests, on the lines that wait. */
  lemma CommandQueues(b: Registry.Board, s: Server, m: Message, rs: seq<Request>, r: Dispatching.Response)
    requires Running(b, s, 0) && IsValidHandle(s.driver.active) && !s.driver.teardown
    requires m.CommandMessage? && r == ResponseOf(b, m) && r.line.Some? && IsValidLine(r.line.value)
    ensures var t := Route(b, s, m, rs);
            && t.queue.telemetry == s.queue.telemetry
            && (t.driver.teardown <==> |s.queue.critical| >= CAPACITY)
            && t.queue.critical == (if |s.queue.critical| >= CAPACITY then s.queue.critical
                                    else s.queue.critical + [Entry(CommandResponse, r.line.value)])
            && IsCounted(s.driver.counters, t.driver.counters, |s.queue.critical| < CAPACITY, r.ok)
  {
    hide Running, WithRequests, IsValidLine, ResponseOf;
    var c := s.driver.counters;
    var k := Dispatching.Faulted(c.(commandsReceived := c.commandsReceived + 1), r.fault);
    CountersRun(b, s, k, 0);
    RepliedRuns(b, WithCounters(s, k), r);
    RequestsRun(b, Replied(WithCounters(s, k), r), rs, 1);
  }

  /** A queued response is counted by what it is. */
  predicate IsCounted(c: Values, d: Values, queued: bool, ok: bool) {
    && d.commandsOk == c.commandsOk + (if queued && ok then 1 else 0)
    && d.commandsError == c.commandsError + (if queued && !ok then 1 else 0)
  }

  /** One response queued behind what waits, and counted by what it says, or a queue that took four e-stop events to fill. */
  predicate GetsItsResponse(s: Server, t: Server, r: Dispatching.Response) {
    && r.line.Some? && Dispatching.IsOneLine(r.line.value)
    && (if |s.queue.critical| < CAPACITY
        then !t.driver.teardown && t.queue.critical == s.queue.critical + [Entry(CommandResponse, r.line.value)]
        else t.driver.teardown && t.queue.critical == s.queue.critical && s.driver.record.book.triggers >= 4)
    && t.queue.telemetry == s.queue.telemetry
    && IsCounted(s.driver.counters, t.driver.counters, |s.queue.critical| < CAPACITY, ResponseParsing.SaysOk(r.line.value))
  }

  lemma AnsweredWhileRunning(b: Registry.Board, s: Server, line: string, a: Answers)
    requires Running(b, s, 0) && IsValidHandle(s.driver.active) && !s.driver.teardown
    requires a.message.CommandMessage? && |a.message.command.literal| < Limits.MAX_DOUBLE_LITERAL_BYTES
    ensures GetsItsResponse(s, Handle(b, s, line, a), ResponseOf(b, a.message))
  {
    hide Running, Route, Runs, MessageFacts, ResponseParsing.SaysOk, Dispatching.ResponseTo, Dispatching.IsOneLine, IsValidLine, CanServe;
    var t := WithFacts(s, MessageFacts(b, line, a.message, a.handlerRequests));
    NotesRun(b, s, t.ledger, 0);
    QueueIsBounded(b, s);
    CommandsAreServed(b, a.message.command, a.message.course);
    CommandQueues(b, t, a.message, if Runs(b, a.message) then a.handlerRequests else [], ResponseOf(b, a.message));
  }

  /**
   Every command of every run is answered: whatever came before, and whatever the command, its
   arguments, its handler, the payload and the e-stop requests the handler makes, exactly one line is
   queued behind what waits, counted as the success or error it says it is, and the session goes on. The one exception is a full queue, which takes
   four e-stop events in the session, and then the session ends.
   */
  lemma EveryCommandIsAnswered(registrations: seq<SchemaWriting.Action>, b: Registry.Board, now: nat, events: seq<Event>,
                               line: string, a: Answers)
    requires IsBoot(registrations, b) && BeforeHandling(b, ServiceRuns.Play(b, now, events), a).Some?
    requires a.message.CommandMessage? && |a.message.command.literal| < Limits.MAX_DOUBLE_LITERAL_BYTES
    ensures var s := BeforeHandling(b, ServiceRuns.Play(b, now, events), a).value;
            GetsItsResponse(s, Handle(b, s, line, a), ResponseOf(b, a.message))
  {
    hide Boundary, Running, BeforeHandling, Handle, GetsItsResponse, ResponseOf, ServiceStep;
    BootIsBoundary(registrations, b, now, events);
    HandlesWhileRunning(b, ServiceRuns.Play(b, now, events), a);
    AnsweredWhileRunning(b, BeforeHandling(b, ServiceRuns.Play(b, now, events), a).value, line, a);
  }

  lemma QueueIsBounded(b: Registry.Board, s: Server)
    requires Running(b, s, 0)
    ensures CanServe(b) && |s.queue.critical| <= s.driver.record.book.triggers && CAPACITY == 4
  {
    hide CanServe, Sound, Balanced, MatchesWrites, Fifo, Sessions.CriticalOnly, ReadingsSpaced;
  }
}
