/**
 The session driver: one object that moves the framer, the writer and the slot table through the
 lifecycle. Every method is proved against the lifecycle's functions on a value; the network's and
 the clock's answers are what the method found out, and come back as ghost results.
 */
module SessionDriving {
  import opened Common
  import opened CounterBank
  import opened Connections
  import opened LineFraming
  import opened OutboundWriting
  import opened Platform
  import opened Sessions
  import opened Registry
  import Schema
  import SchemaWriting
  import JsonScripts
  import Limits

  // ---------------------------------------------------------------------------------------
  // The read loop, one event at a time from the front.

  /** Every event so far was a chunk that was wanted: the loop is still running. */
  predicate StillReading(d: Driver, events: seq<ReadEvent>)
    decreases |events|
  {
    events == [] || (!HasLine(d.framer) && events[0].Chunk? && events[0].bytes != "" && StillReading(TakeChunk(d, events[0].bytes), events[1..]))
  }

  lemma {:induction false} ReadLoopContinues(d: Driver, events: seq<ReadEvent>, more: seq<ReadEvent>)
    requires StillReading(d, events)
    ensures Sessions.ReadLoop(d, events + more) == Sessions.ReadLoop(Sessions.ReadLoop(d, events), more)
    decreases |events|
  {
    hide TakeChunk, LinkLoss, DetectLoss;
    if events == [] {
      assert events + more == more;
    } else {
      assert (events + more)[1..] == events[1..] + more;
      ReadLoopContinues(TakeChunk(d, events[0].bytes), events[1..], more);
    }
  }

  lemma {:induction false} StillReadingOneMore(d: Driver, events: seq<ReadEvent>, bytes: string)
    requires StillReading(d, events) && !HasLine(Sessions.ReadLoop(d, events).framer) && bytes != ""
    ensures StillReading(d, events + [Chunk(bytes)])
    ensures Sessions.ReadLoop(d, events + [Chunk(bytes)]) == TakeChunk(Sessions.ReadLoop(d, events), bytes)
    decreases |events|
  {
    hide TakeChunk, LinkLoss, DetectLoss;
    ReadLoopContinues(d, events, [Chunk(bytes)]);
    assert [Chunk(bytes)][1..] == [];
    if events == [] {
      assert events + [Chunk(bytes)] == [Chunk(bytes)];
    } else {
      assert (events + [Chunk(bytes)])[1..] == events[1..] + [Chunk(bytes)];
      StillReadingOneMore(TakeChunk(d, events[0].bytes), events[1..], bytes);
    }
  }

  lemma StartReading(d: Driver)
    ensures StillReading(d, []) && Sessions.ReadLoop(d, []) == d
  {
  }

  /** The event that ends the loop. */
  lemma ReadingStops(d: Driver, events: seq<ReadEvent>, last: ReadEvent)
    requires StillReading(d, events) && !last.Chunk? && !HasLine(Sessions.ReadLoop(d, events).framer)
    ensures var e := Sessions.ReadLoop(d, events);
            Sessions.ReadLoop(d, events + [last]) == if last.LinkIs? then LinkLoss(e, last.link) else DetectLoss(Noted(e, ReadSights("")), last.link)
  {
    hide TakeChunk, LinkLoss, DetectLoss;
    ReadLoopContinues(d, events, [last]);
  }

  lemma {:induction false} LineEndsReading(d: Driver, events: seq<ReadEvent>)
    requires StillReading(d, events) && HasLine(Sessions.ReadLoop(d, events).framer)
    ensures ReadsOut(d, events)
    decreases |events|
  {
    hide TakeChunk, LinkLoss, DetectLoss;
    if events != [] {
      LineEndsReading(TakeChunk(d, events[0].bytes), events[1..]);
    }
  }

  lemma {:induction false} SilenceEndsReading(d: Driver, events: seq<ReadEvent>, last: ReadEvent)
    requires StillReading(d, events) && !last.Chunk? && last != LinkIs(BytesAvailable)
    ensures ReadsOut(d, events + [last])
    decreases |events|
  {
    hide TakeChunk, LinkLoss, DetectLoss;
    if events != [] {
      assert (events + [last])[1..] == events[1..] + [last];
      SilenceEndsReading(TakeChunk(d, events[0].bytes), events[1..], last);
    }
  }

  /** The size of one read. */
  const READ_CHUNK_BYTES: nat := 64

  /** The length of the text before the terminator. */
  method BoundedCStringLength(value: array<char>, capacity: nat) returns (length: nat)
    requires capacity <= value.Length
    ensures length <= capacity && '\0' !in value[..length] && (length < capacity ==> value[length] == '\0')
  {
    length := 0;
    while length < capacity && value[length] != '\0'
      invariant length <= capacity && '\0' !in value[..length]
    {
      length := length + 1;
    }
  }

  // ---------------------------------------------------------------------------------------
  // The parts of ending and activating a session.

  function Hooked(d: Driver): Driver {
    d.(hookRuns := d.hookRuns + 1, past := d.past + [Ended(d.record, Heard(d.received, d.active.slot), Said(d), d.reason)],
       record := NewRecord(INVALID_CONNECTION))
  }

  function Dropped(d: Driver): Driver {
    d.(slots := Aborted(d.slots, d.active), active := INVALID_CONNECTION,
       counters := d.counters.(controllerDisconnects := d.counters.controllerDisconnects + 1))
  }

  function Activated(d: Driver): Driver {
    Sessions.TransitionTo(d.(counters := d.counters.(schemasSent := d.counters.schemasSent + 1)), SessionActive)
  }

  /** Everything the driver has still to find out is at rest. */
  function Quiet(s: Surroundings, at: nat): PollAnswers {
    PollAnswers(s.ready, at, s.begun, at, s.listening, s.client, s.clientStays, Open, [], [])
  }

  lemma NotedTwice(d: Driver, bytes: string)
    requires d.active.slot < |d.sights|
    ensures Noted(Noted(d, [Saw(BytesAvailable)]), [Took(bytes)]) == Noted(d, ReadSights(bytes))
  {
    assert Said(d) + [Saw(BytesAvailable)] + [Took(bytes)] == Said(d) + ReadSights(bytes);
  }

  lemma AcceptingTakesNoTime(d: Driver, around: Surroundings, at: nat)
    ensures Sessions.AcceptReplacement(d, Quiet(around, 0)) == Sessions.AcceptReplacement(d, Quiet(around, at))
    ensures IsPending(d, Quiet(around, 0)) <==> IsPending(d, Quiet(around, at))
  {
    hide Resolves, Accepted, Issued, FirstReusable;
  }

  lemma DetectingKeepsState(d: Driver, link: Link)
    ensures !DetectLoss(d, link).teardown ==> DetectLoss(d, link).state == d.state
  {
    hide Resolves, Noted;
  }

  method NewPeers() returns (first: Transport, second: Transport, lossHook: LossHook)
    ensures fresh({first, second, lossHook}) && first != second
    ensures first.received == second.received == "" && first.sights == second.sights == [] && lossHook.runs == 0
  {
    first := new Transport();
    second := new Transport();
    lossHook := new LossHook();
  }

  method NewLines(clock: Clock, counters: Counters) returns (framer: LineFramer, writer: OutboundWriter)
    ensures fresh({framer, framer.activeLine, framer.pendingLine, writer}) && framer.Valid()
    ensures framer.Model() == EMPTY && framer.counters == counters && writer.counters == counters && writer.clock == clock
    ensures writer.transport == null && writer.failures == 0 && !writer.sendInProgress
  {
    hide LineFramer.Valid, LineFramer.Model;
    framer := new LineFramer(counters);
    writer := new OutboundWriter(clock, counters);
  }

  class SessionDriver {
    const clock: Clock
    const counters: Counters
    const network: NetworkServer
    const first: Transport
    const second: Transport
    const framer: LineFramer
    const lossHook: LossHook
    const writer: OutboundWriter
    const registry: CommandRegistry
    var state: SessionState
    var activeHandle: ConnectionHandle
    var replacementHandle: ConnectionHandle
    var teardownPending: bool
    var pendingTeardownReason: TeardownReason
    var networkInitAttempted: bool
    var nextNetworkInitMs: uint64
    ghost var record: Record
    ghost var past: seq<Ended>
    ghost var refused: bool

    ghost function Repr(): set<object> {
      {this, clock, counters, network.slots, first, second, lossHook, framer, framer.activeLine, framer.pendingLine, writer}
    }

    ghost predicate Valid()
      reads Repr(), network, registry
    {
      && network.Valid() && framer.Valid() && registry.Valid()
      && framer.counters == counters && writer.counters == counters && writer.clock == clock
      && !writer.sendInProgress
      && first != second && (writer.transport == null || writer.transport == first || writer.transport == second)
    }

    ghost function Board(): Registry.Board
      requires Valid()
      reads Repr(), network, registry, registry.commands, registry.telemetryFields, registry.stateFields
    {
      registry.Model()
    }

    ghost function BoundSlot(): Option<nat>
      reads this, writer
    {
      if writer.transport == null then None else if writer.transport == first then Some(0) else Some(1)
    }

    /** The driver as a value. */
    ghost function State(): Driver
      requires Valid()
      reads Repr(), network, registry
    {
      Driver(state, activeHandle, replacementHandle, teardownPending, pendingTeardownReason,
             networkInitAttempted, nextNetworkInitMs,
             framer.Model(), BoundSlot(), writer.failures,
             network.Model(), [first.received, second.received], [first.sights, second.sights], counters.values,
             record, past, lossHook.runs, refused)
    }

    lemma ServesItsRegistry()
      requires Valid()
      ensures registry.Valid() && registry.Model() == Board() && State().counters == counters.values
    {
      hide LineFramer.Valid, LineFramer.Model, NetworkServer.Valid, NetworkServer.Model, CommandRegistry.Valid,
           CommandRegistry.Model;
    }

    /** Counting and reading the clock leave the rest of the driver alone. */
    twostate lemma OnlyCounted()
      requires old(Valid())
      requires unchanged(this) && unchanged(network.slots) && unchanged(first) && unchanged(second) && unchanged(framer) && unchanged(lossHook)
      requires unchanged(framer.activeLine) && unchanged(framer.pendingLine) && unchanged(writer) && unchanged(network)
      requires unchanged(registry) && unchanged(registry.commands) && unchanged(registry.telemetryFields) && unchanged(registry.stateFields)
      ensures Valid() && Board() == old(Board()) && State() == old(State()).(counters := counters.values)
    {
      hide LineFramer.Valid, LineFramer.Model, NetworkServer.Valid, NetworkServer.Model, CommandRegistry.Valid,
           CommandRegistry.Model;
    }

    constructor (clock: Clock, counters: Counters, registry: CommandRegistry)
      requires registry.Valid()
      ensures Valid() && State() == NEW_DRIVER.(counters := counters.values) && Board() == registry.Model()
      ensures this.clock == clock && this.counters == counters && this.registry == registry
      ensures fresh(Repr() - {clock, counters})
    {
      hide LineFramer.Valid, LineFramer.Model, NetworkServer.Valid, NetworkServer.Model, CommandRegistry.Valid,
           CommandRegistry.Model;
      this.clock, this.counters, this.registry := clock, counters, registry;
      network := new NetworkServer();
      var a, b, hook := NewPeers();
      var lines, sender := NewLines(clock, counters);
      first, second, lossHook, framer, writer := a, b, hook, lines, sender;
      state, activeHandle, replacementHandle := BootSafe, INVALID_CONNECTION, INVALID_CONNECTION;
      teardownPending, pendingTeardownReason := false, ExplicitShutdown;
      networkInitAttempted, nextNetworkInitMs := false, 0;
      record, past, refused := NewRecord(INVALID_CONNECTION), [], false;
    }

    method TransitionTo(next: SessionState)
      requires Valid()
      modifies this`state, this`refused
      ensures Valid() && State() == Sessions.TransitionTo(old(State()), next)
    {
      hide LineFramer.Valid, LineFramer.Model, NetworkServer.Valid, NetworkServer.Model, CommandRegistry.Valid;
      if state == next {
        return;
      }
      if IsValidTransition(state, next) {
        state := next;
      } else {
        refused := true;
      }
    }

    method Begin() returns (ghost now: nat)
      requires Valid()
      modifies Repr()
      ensures old(clock.ticks) <= now <= clock.ticks
      ensures Valid() && Board() == old(Board()) && State() == Sessions.Begin(old(State()), now)
    {
      hide LineFramer.Valid, LineFramer.Model, NetworkServer.Valid, NetworkServer.Model, CommandRegistry.Valid,
           CommandRegistry.Model;
      now := clock.ticks;
      if state != BootSafe {
        return;
      }
      TransitionTo(NetworkStarting);
      nextNetworkInitMs := clock.MonotonicMilliseconds();
      now := clock.ticks;
    }

    method RequestTeardown(why: TeardownReason)
      requires Valid()
      modifies this`state, this`refused, this`teardownPending, this`pendingTeardownReason
      ensures Valid() && State() == Sessions.RequestTeardown(old(State()), why)
    {
      if teardownPending {
        return;
      }
      teardownPending := true;
      pendingTeardownReason := why;
      if state == SessionConnected || state == SessionActive {
        TransitionTo(SessionClosing);
      }
    }

    method ReplacePendingTeardownReason(why: TeardownReason)
      requires Valid()
      modifies this`state, this`refused, this`teardownPending, this`pendingTeardownReason
      ensures Valid() && State() == ReplaceReason(old(State()), why)
    {
      if !teardownPending {
        RequestTeardown(why);
        return;
      }
      pendingTeardownReason := why;
    }

    predicate SessionIsActive()
      reads this
    {
      state == SessionActive && IsValidHandle(activeHandle)
    }

    /** The line goes to the writer; nothing is noted yet. */
    method SendThroughWriter(line: string, cls: MessageClass)
      returns (result: SendResult, why: Option<TeardownReason>, ghost accepted: nat)
      requires Valid()
      modifies Repr()
      ensures result == DeadlineExpired ==> clock.ticks >= old(clock.ticks) + Limits.TRANSMIT_DEADLINE_MS
      ensures old(clock.ticks) <= clock.ticks
      ensures Valid() && Board() == old(Board()) && accepted <= |line|
      ensures var d := old(State());
              if !IsValidWireLine(line) then result == InvalidLine && why == None && State() == d
              else if d.transport.None? then result == NoActiveTransport && why == None && State() == d
              else
                && State() == Transmitted(d, d.transport.value, line, cls, accepted).(record := d.record)
                && result == (if accepted == |line| then Sent else DeadlineExpired)
                && why == TeardownAfter(d.failures, cls, accepted == |line|)
    {
      hide LineFramer.Valid, LineFramer.Model, NetworkServer.Valid, NetworkServer.Model, CommandRegistry.Valid,
           CommandRegistry.Model, IsValidWireLine, StreakAfter, TeardownAfter, CountedAfter;
      ghost var d := State();
      ghost var started: nat;
      result, why, accepted, started := writer.SendLine(line, cls);
      if IsValidWireLine(line) && writer.transport != null {
        assert [first.received, second.received] ==
               At(d.received, d.transport.value, Heard(d.received, d.transport.value) + line[..accepted]);
      }
    }

    ghost method NoteWrite(w: Write)
      requires Valid()
      modifies Repr()
      ensures old(clock.ticks) <= clock.ticks
      ensures Valid() && Board() == old(Board())
      ensures State() == old(State()).(record := Wrote(old(State()).record, w))
    {
      hide LineFramer.Valid, LineFramer.Model, NetworkServer.Valid, NetworkServer.Model, CommandRegistry.Valid,
           CommandRegistry.Model;
      record := Wrote(record, w);
    }

    /** The writer sends the line and reports back a request for teardown. */
    /** The line goes to the transport; it is given up only after the deadline has passed. */
    method WriteLine(line: string, cls: MessageClass) returns (result: SendResult, ghost accepted: nat)
      requires Valid()
      modifies Repr()
      ensures result == DeadlineExpired ==> clock.ticks >= old(clock.ticks) + Limits.TRANSMIT_DEADLINE_MS
      ensures old(clock.ticks) <= clock.ticks
      ensures Valid() && Board() == old(Board())
      ensures var s := Sessions.WriteLine(old(State()), line, cls, accepted); State() == s.driver && result == s.result
    {
      hide Valid, State, Repr, Board, IsValidWireLine, TeardownAfter, StreakAfter, CountedAfter, Wrote;
      ghost var bound := State().transport.Some?;
      var why: Option<TeardownReason>;
      result, why, accepted := SendThroughWriter(line, cls);
      if !IsValidWireLine(line) {
        NoteWrite(Write(line, cls, 0));
      } else if bound {
        NoteWrite(Write(line, cls, accepted));
      }
      if why.Some? {
        AskTeardown(why.value);
      }
    }

    method SendActiveLine(line: string, cls: MessageClass) returns (result: SendResult, ghost accepted: nat)
      requires Valid()
      modifies Repr()
      ensures result == DeadlineExpired ==> clock.ticks >= old(clock.ticks) + Limits.TRANSMIT_DEADLINE_MS
      ensures old(clock.ticks) <= clock.ticks
      ensures Valid() && Board() == old(Board())
      ensures var s := Sessions.SendActiveLine(old(State()), line, cls, accepted); State() == s.driver && result == s.result
    {
      hide Sessions.WriteLine;
      accepted := 0;
      if !SessionIsActive() || teardownPending {
        return NoActiveTransport, 0;
      }
      result, accepted := WriteLine(line, cls);
    }

    // -------------------------------------------------------------------------------------
    // Promotion and teardown.

    /** Whether a teardown waits to be applied. */
    predicate IsTeardownPending()
      requires Valid()
      reads Repr(), network, registry
      ensures IsTeardownPending() <==> State().teardown
    {
      teardownPending
    }

    predicate HoldsReplacement()
      requires Valid()
      reads Repr(), network, registry
      ensures HoldsReplacement() <==> IsValidHandle(State().replacement)
    {
      IsValidHandle(replacementHandle)
    }

    method BindWriter(h: ConnectionHandle, slot: nat)
      requires Valid() && slot == h.slot < SLOT_COUNT
      modifies Repr()
      ensures old(clock.ticks) <= clock.ticks
      ensures Valid() && Board() == old(Board())
      ensures State() == old(State()).(active := h, transport := Some(slot), failures := 0)
    {
      hide LineFramer.Valid, LineFramer.Model, NetworkServer.Valid, NetworkServer.Model, CommandRegistry.Valid,
           CommandRegistry.Model;
      activeHandle := h;
      writer.BindTransport(if slot == 0 then first else second);
    }

    method CloseFramer()
      requires Valid()
      modifies Repr()
      ensures old(clock.ticks) <= clock.ticks
      ensures Valid() && Board() == old(Board())
      ensures State() == old(State()).(framer := EMPTY)
    {
      hide LineFramer.Valid, NetworkServer.Valid, NetworkServer.Model, CommandRegistry.Valid, CommandRegistry.Model;
      framer.CloseSession();
    }

    method StartRecord(h: ConnectionHandle)
      requires Valid()
      modifies Repr()
      ensures old(clock.ticks) <= clock.ticks
      ensures Valid() && Board() == old(Board())
      ensures State() == Sessions.TransitionTo(old(State()).(record := NewRecord(h)), SessionConnected)
    {
      hide LineFramer.Valid, LineFramer.Model, NetworkServer.Valid, NetworkServer.Model, CommandRegistry.Valid,
           CommandRegistry.Model;
      record := NewRecord(h);
      TransitionTo(SessionConnected);
    }

    method Bind(h: ConnectionHandle, slot: nat)
      requires Valid() && slot == h.slot < SLOT_COUNT
      modifies Repr()
      ensures old(clock.ticks) <= clock.ticks
      ensures Valid() && Board() == old(Board()) && State() == Bound(old(State()), h)
    {
      hide Valid, State, Repr, Board, Sessions.TransitionTo;
      BindWriter(h, slot);
      CloseFramer();
      StartRecord(h);
    }

    /** The schema line at the clock's reading, built in a buffer and measured to its terminator. */
    method BuildSchema() returns (line: Option<string>, ghost timestamp: nat)
      requires Valid()
      modifies Repr()
      ensures old(clock.ticks) <= timestamp <= clock.ticks
      ensures Valid() && Board() == old(Board())
      ensures State() == old(State()) && line == Schema.SchemaLine(Board(), timestamp % TWO_64)
    {
      hide Valid, State, Repr, Board, Schema.SchemaLine;
      var now;
      now, timestamp := ReadClock();
      line := BuildSchemaAt(now);
    }

    method BuildSchemaAt(now: uint64) returns (line: Option<string>)
      requires Valid()
      ensures Valid() && Board() == old(Board()) && State() == old(State()) && line == Schema.SchemaLine(Board(), now)
    {
      hide LineFramer.Valid, LineFramer.Model, NetworkServer.Valid, NetworkServer.Model, Schema.SchemaCalls,
           JsonScripts.Line, JsonScripts.IsScript, JsonScripts.AllContent;
      var buffer := new char[Limits.BOARD_TX_MAX_LINE_BYTES](_ => '\0');
      var status := SchemaWriting.BuildSchemaLineWithTimestamp(registry, now, buffer, buffer.Length);
      if status != Ok {
        return None;
      }
      var length := BoundedCStringLength(buffer, buffer.Length);
      SchemaHasNoTerminator(Board(), now, buffer[..], length);
      return Some(buffer[..length]);
    }

    /** The application's hook runs here; the record of the connection ends with it. */
    method RunControllerLossHook()
      requires Valid()
      modifies Repr()
      ensures old(clock.ticks) <= clock.ticks
      ensures Valid() && Board() == old(Board())
      ensures State() == Hooked(old(State()))
    {
      hide LineFramer.Valid, LineFramer.Model, NetworkServer.Valid, NetworkServer.Model, CommandRegistry.Valid,
           CommandRegistry.Model;
      lossHook.Run();
      past := past + [Ended(record, Heard([first.received, second.received], activeHandle.slot),
                           Heard([first.sights, second.sights], activeHandle.slot), pendingTeardownReason)];
      record := NewRecord(INVALID_CONNECTION);
    }

    method ClearWriter()
      requires Valid()
      modifies Repr()
      ensures old(clock.ticks) <= clock.ticks
      ensures Valid() && Board() == old(Board())
      ensures State() == old(State()).(transport := None, failures := 0)
    {
      hide LineFramer.Valid, LineFramer.Model, NetworkServer.Valid, NetworkServer.Model, CommandRegistry.Valid,
           CommandRegistry.Model;
      writer.ClearTransport();
    }

    method AbortActive()
      requires Valid()
      modifies Repr()
      ensures old(clock.ticks) <= clock.ticks
      ensures Valid() && Board() == old(Board())
      ensures State() == Dropped(old(State()))
    {
      hide LineFramer.Valid, LineFramer.Model, NetworkServer.Valid, CommandRegistry.Valid, CommandRegistry.Model,
           Aborted;
      network.Abort(activeHandle);
      activeHandle := INVALID_CONNECTION;
      counters.values := counters.values.(controllerDisconnects := counters.values.controllerDisconnects + 1);
    }

    method HasActiveHandle() returns (had: bool)
      requires Valid()
      ensures Valid() && Board() == old(Board()) && State() == old(State()) && had == IsValidHandle(State().active)
    {
      hide LineFramer.Valid, LineFramer.Model, NetworkServer.Valid, NetworkServer.Model, CommandRegistry.Valid,
           CommandRegistry.Model;
      had := IsValidHandle(activeHandle);
    }

    /** The bound connection, if any, ends. */
    method Unbind()
      requires Valid()
      modifies Repr()
      ensures old(clock.ticks) <= clock.ticks
      ensures Valid() && Board() == old(Board()) && State() == Unbound(old(State()))
    {
      hide Valid, State, Repr, Board, Aborted;
      var hadActive := HasActiveHandle();
      if hadActive {
        RunControllerLossHook();
      }
      CloseFramer();
      ClearWriter();
      if hadActive {
        AbortActive();
      }
    }

    method PromoteAcceptedConnection(h: ConnectionHandle) returns (ghost ps: seq<Promotion>)
      requires Valid()
      modifies Repr()
      ensures old(clock.ticks) <= clock.ticks
      ensures PromotedWithin(ps, old(clock.ticks), clock.ticks)
      ensures Valid() && Board() == old(Board())
      ensures State() == Sessions.Promote(Board(), old(State()), h, ps)
      decreases Held(State()), 1
    {
      hide Valid, State, Repr, Board, Sessions.WriteLine, Sessions.Apply, Schema.SchemaLine;
      var slot := LookupSlot(h);
      if slot == None {
        Reject();
        return [];
      }
      Bind(h, slot.value);
      var line, timestamp := BuildSchema();
      if line == None {
        AskTeardown(SchemaSendFailure);
        ghost var more := ApplyPendingTeardown();
        return [Promotion(timestamp, 0)] + more;
      }
      var result, accepted := WriteLine(line.value, CriticalMessage);
      if result != Sent {
        AskTeardownInstead(SchemaSendFailure);
        ghost var more := ApplyPendingTeardown();
        return [Promotion(timestamp, accepted)] + more;
      }
      ActivateSession();
      return [Promotion(timestamp, accepted)];
    }

    method LookupSlot(h: ConnectionHandle) returns (slot: Option<nat>)
      requires Valid()
      ensures Valid() && Board() == old(Board()) && State() == old(State())
      ensures slot == Lookup(State().slots, h) && (slot.Some? ==> slot.value == h.slot < SLOT_COUNT)
    {
      hide LineFramer.Valid, LineFramer.Model, CommandRegistry.Valid, CommandRegistry.Model;
      slot := network.Transport(h);
    }

    method AskTeardown(why: TeardownReason)
      requires Valid()
      modifies Repr()
      ensures old(clock.ticks) <= clock.ticks
      ensures Valid() && Board() == old(Board())
      ensures State() == Sessions.RequestTeardown(old(State()), why)
    {
      hide Valid, State;
      RequestTeardown(why);
    }

    method AskTeardownInstead(why: TeardownReason)
      requires Valid()
      modifies Repr()
      ensures old(clock.ticks) <= clock.ticks
      ensures Valid() && Board() == old(Board())
      ensures State() == ReplaceReason(old(State()), why)
    {
      hide Valid, State;
      ReplacePendingTeardownReason(why);
    }

    method Reject()
      requires Valid()
      modifies Repr()
      ensures old(clock.ticks) <= clock.ticks
      ensures Valid() && Board() == old(Board())
      ensures State() == Rejected(old(State()))
    {
      hide LineFramer.Valid, LineFramer.Model, NetworkServer.Valid, NetworkServer.Model, CommandRegistry.Valid,
           CommandRegistry.Model;
      counters.values := counters.values.(sessionsRejected := counters.values.sessionsRejected + 1);
    }

    method ActivateSession()
      requires Valid()
      modifies Repr()
      ensures old(clock.ticks) <= clock.ticks
      ensures Valid() && Board() == old(Board())
      ensures State() == Activated(old(State()))
    {
      hide LineFramer.Valid, LineFramer.Model, NetworkServer.Valid, NetworkServer.Model, CommandRegistry.Valid,
           CommandRegistry.Model;
      counters.values := counters.values.(schemasSent := counters.values.schemasSent + 1);
      TransitionTo(SessionActive);
    }

    /** Ends the bound connection; a held replacement is promoted, so this and promotion call each other at most once more. */
    method ApplyPendingTeardown() returns (ghost ps: seq<Promotion>)
      requires Valid()
      modifies Repr()
      ensures old(clock.ticks) <= clock.ticks
      ensures PromotedWithin(ps, old(clock.ticks), clock.ticks)
      ensures Valid() && Board() == old(Board())
      ensures State() == Sessions.Apply(Board(), old(State()), ps)
      decreases Held(State()), 0
    {
      hide Valid, State, Repr, Board, Sessions.Promote, Sessions.TransitionTo, Aborted;
      if !IsTeardownPending() {
        return [];
      }
      Unbind();
      ReturnToListening();
      if HoldsReplacement() {
        var replacement := TakeReplacement();
        ps := PromoteAcceptedConnection(replacement);
      } else {
        ps := [];
      }
    }

    method ReturnToListening()
      requires Valid()
      modifies Repr()
      ensures old(clock.ticks) <= clock.ticks
      ensures Valid() && Board() == old(Board())
      ensures State() == Sessions.TransitionTo(old(State()).(teardown := false, reason := ExplicitShutdown), Listening)
    {
      hide LineFramer.Valid, LineFramer.Model, NetworkServer.Valid, NetworkServer.Model, CommandRegistry.Valid,
           CommandRegistry.Model;
      teardownPending := false;
      pendingTeardownReason := ExplicitShutdown;
      TransitionTo(Listening);
    }

    method TakeReplacement() returns (h: ConnectionHandle)
      requires Valid()
      modifies Repr()
      ensures old(clock.ticks) <= clock.ticks
      ensures Valid() && Board() == old(Board())
      ensures h == old(State()).replacement && State() == old(State()).(replacement := INVALID_CONNECTION)
    {
      hide LineFramer.Valid, LineFramer.Model, NetworkServer.Valid, NetworkServer.Model, CommandRegistry.Valid,
           CommandRegistry.Model;
      h := replacementHandle;
      replacementHandle := INVALID_CONNECTION;
    }

    // -------------------------------------------------------------------------------------
    // Polling and reading.

    /** The network may have brought more bytes; nothing the driver knows changes. */
    method NetworkProgress()
      requires Valid()
      modifies Repr()
      ensures old(clock.ticks) <= clock.ticks
      ensures Valid() && Board() == old(Board()) && State() == old(State())
    {
      hide LineFramer.Valid, LineFramer.Model, NetworkServer.Valid, NetworkServer.Model, CommandRegistry.Valid,
           CommandRegistry.Model;
      first.Progress();
      second.Progress();
    }

    /** One poll in the given surroundings; `a` is all it found out. */
    method Poll(around: Surroundings) returns (ghost a: PollAnswers)
      requires Valid()
      modifies Repr()
      ensures old(clock.ticks) <= clock.ticks
      ensures AroundOf(a) == around && PolledWithin(a, old(clock.ticks), clock.ticks)
      ensures Valid() && Board() == old(Board()) && State() == Sessions.Poll(Board(), old(State()), a)
      ensures PollReadsOut(old(State()), a)
    {
      hide Valid, State, Repr, Board, Sessions.PumpNetworkStarting, Sessions.PumpListening, Sessions.PollSession;
      NetworkProgress();
      var now := CurrentState();
      match now
      case NetworkStarting => a := PumpNetworkStarting(around);
      case Listening => a := PumpListening(around);
      case SessionConnected => a := PollSession(around);
      case SessionActive => a := PollSession(around);
      case _ => a := Quiet(around, clock.ticks);
    }

    method CurrentState() returns (now: SessionState)
      requires Valid()
      ensures Valid() && Board() == old(Board()) && State() == old(State()) && now == State().state
    {
      now := state;
    }

    method PumpNetworkStarting(around: Surroundings) returns (ghost a: PollAnswers)
      requires Valid()
      modifies Repr()
      ensures old(clock.ticks) <= clock.ticks
      ensures AroundOf(a) == around && PolledWithin(a, old(clock.ticks), clock.ticks)
      ensures Valid() && Board() == old(Board()) && State() == Sessions.PumpNetworkStarting(old(State()), a)
    {
      hide Valid, State, Repr, Board, Sessions.TransitionTo;
      a := Quiet(around, clock.ticks);
      if !around.ready {
        return;
      }
      var waiting: bool;
      ghost var now: nat;
      waiting, now := IsRetryWaiting();
      a := a.(now := now);
      if waiting {
        return;
      }
      if !around.begun {
        ghost var failed := NoteFailedInit();
        a := a.(failedAt := failed);
        return;
      }
      NoteAttempt();
      StartListening();
    }

    /** After a first attempt the next one waits for the retry period. */
    method IsRetryWaiting() returns (waiting: bool, ghost now: nat)
      requires Valid()
      modifies Repr()
      ensures old(clock.ticks) <= now <= clock.ticks
      ensures Valid() && Board() == old(Board()) && State() == old(State())
      ensures waiting <==> State().initAttempted && (now % TWO_64 - State().nextInitMs) % TWO_64 < Limits.NETWORK_INIT_RETRY_MS
    {
      hide LineFramer.Valid, LineFramer.Model, NetworkServer.Valid, NetworkServer.Model, CommandRegistry.Valid,
           CommandRegistry.Model;
      now := clock.ticks;
      if !networkInitAttempted {
        return false, now;
      }
      var ms := clock.MonotonicMilliseconds();
      now := clock.ticks;
      waiting := (ms - nextNetworkInitMs) % TWO_64 < Limits.NETWORK_INIT_RETRY_MS;
    }

    method NoteFailedInit() returns (ghost failed: nat)
      requires Valid()
      modifies Repr()
      ensures old(clock.ticks) <= failed <= clock.ticks
      ensures Valid() && Board() == old(Board())
              && State() == old(State()).(initAttempted := true, nextInitMs := failed % TWO_64)
    {
      hide LineFramer.Valid, LineFramer.Model, NetworkServer.Valid, NetworkServer.Model, CommandRegistry.Valid,
           CommandRegistry.Model;
      networkInitAttempted := true;
      nextNetworkInitMs := clock.MonotonicMilliseconds();
      failed := clock.ticks;
    }

    method NoteAttempt()
      requires Valid()
      modifies Repr()
      ensures old(clock.ticks) <= clock.ticks
      ensures Valid() && Board() == old(Board()) && State() == old(State()).(initAttempted := true)
    {
      hide LineFramer.Valid, LineFramer.Model, NetworkServer.Valid, NetworkServer.Model, CommandRegistry.Valid,
           CommandRegistry.Model;
      networkInitAttempted := true;
    }

    method StartListening()
      requires Valid()
      modifies Repr()
      ensures old(clock.ticks) <= clock.ticks
      ensures Valid() && Board() == old(Board()) && State() == Sessions.TransitionTo(old(State()), Listening)
    {
      hide Valid, State;
      TransitionTo(Listening);
    }

    /** The network takes the waiting peer into a slot; its transport starts afresh. */
    method Accept(around: Surroundings) returns (h: ConnectionHandle)
      requires Valid() && around.listening && around.client
      modifies Repr()
      ensures old(clock.ticks) <= clock.ticks
      ensures Valid() && Board() == old(Board())
      ensures h == AcceptHandle(old(State()), Quiet(around, 0))
              && State() == Sessions.AcceptNext(old(State()), Quiet(around, 0))
    {
      hide LineFramer.Valid, LineFramer.Model, NetworkServer.Valid, CommandRegistry.Valid, CommandRegistry.Model,
           FirstReusable;
      h := network.Accept(around.listening, around.client && around.clientStays);
      if h.slot == 0 && around.clientStays {
        first.Reset();
      } else if h.slot == 1 && around.clientStays {
        second.Reset();
      }
    }

    method HasPendingConnection(around: Surroundings) returns (pending: bool)
      requires Valid()
      ensures Valid() && Board() == old(Board()) && State() == old(State())
      ensures pending <==> IsPending(State(), Quiet(around, 0))
    {
      hide LineFramer.Valid, LineFramer.Model, CommandRegistry.Valid, CommandRegistry.Model;
      pending := network.HasPendingConnection(around.listening, around.client);
    }

    method PumpListening(around: Surroundings) returns (ghost a: PollAnswers)
      requires Valid()
      modifies Repr()
      ensures old(clock.ticks) <= clock.ticks
      ensures AroundOf(a) == around && PolledWithin(a, old(clock.ticks), clock.ticks)
      ensures Valid() && Board() == old(Board()) && State() == Sessions.PumpListening(Board(), old(State()), a)
    {
      hide Valid, State, Repr, Board, Sessions.Promote, FirstReusable, Connections.Accepted, Lookup;
      a := Quiet(around, clock.ticks);
      var pending := HasPendingConnection(around);
      if !pending {
        return;
      }
      var accepted := Accept(around);
      var slot := LookupSlot(accepted);
      if !IsValidHandle(accepted) || slot == None {
        Reject();
        return;
      }
      CountAcceptedSession();
      ghost var ps := PromoteAcceptedConnection(accepted);
      a := a.(promotions := ps);
    }

    method CountAcceptedSession()
      requires Valid()
      modifies Repr()
      ensures old(clock.ticks) <= clock.ticks
      ensures Valid() && Board() == old(Board())
      ensures State() == CountAccepted(old(State()))
    {
      hide LineFramer.Valid, LineFramer.Model, NetworkServer.Valid, NetworkServer.Model, CommandRegistry.Valid,
           CommandRegistry.Model;
      counters.values := counters.values.(sessionsAccepted := counters.values.sessionsAccepted + 1);
    }

    method HoldReplacement(h: ConnectionHandle)
      requires Valid()
      modifies Repr()
      ensures old(clock.ticks) <= clock.ticks
      ensures Valid() && Board() == old(Board())
      ensures var d := old(State());
              State() == d.(counters := d.counters.(sessionsSuperseded := d.counters.sessionsSuperseded + 1), replacement := h)
    {
      hide LineFramer.Valid, LineFramer.Model, NetworkServer.Valid, NetworkServer.Model, CommandRegistry.Valid,
           CommandRegistry.Model;
      counters.values := counters.values.(sessionsSuperseded := counters.values.sessionsSuperseded + 1);
      replacementHandle := h;
    }

    method AcceptReplacement(around: Surroundings)
      requires Valid() && around.listening && around.client
      modifies Repr()
      ensures old(clock.ticks) <= clock.ticks
      ensures Valid() && Board() == old(Board()) && State() == Sessions.AcceptReplacement(old(State()), Quiet(around, 0))
    {
      hide Valid, State, Repr, Board, Sessions.RequestTeardown, FirstReusable, Connections.Accepted, Lookup;
      var accepted := Accept(around);
      var slot := LookupSlot(accepted);
      if !IsValidHandle(accepted) || slot == None {
        Reject();
        return;
      }
      CountAcceptedSession();
      HoldReplacement(accepted);
      AskTeardown(Superseded);
    }

    /** The link of the bound connection. */
    method LinkState(slot: nat) returns (link: Link)
      requires Valid() && slot == State().active.slot < SLOT_COUNT
      modifies Repr()
      ensures old(clock.ticks) <= clock.ticks
      ensures Valid() && Board() == old(Board()) && State() == Noted(old(State()), [Saw(link)])
      ensures link == BytesAvailable ==> Available(slot) > 0
      ensures Available(slot) == old(Available(slot))
    {
      hide LineFramer.Valid, LineFramer.Model, NetworkServer.Valid, NetworkServer.Model, CommandRegistry.Valid,
           CommandRegistry.Model;
      if slot == 0 {
        link := first.ConnectionState();
      } else {
        link := second.ConnectionState();
      }
    }

    ghost function Available(slot: nat): nat
      reads first, second
    {
      if slot == 0 then first.available else second.available
    }

    method DetectActiveLoss() returns (ghost link: Link)
      requires Valid()
      modifies Repr()
      ensures old(clock.ticks) <= clock.ticks
      ensures Valid() && Board() == old(Board()) && State() == DetectLoss(old(State()), link)
    {
      hide Valid, State, Repr, Board, Sessions.RequestTeardown, Lookup;
      var slot := LookupActive();
      link := Open;
      if slot == None {
        AskTeardown(ConnectionLost);
        return;
      }
      ghost var d := State();
      var found := LinkState(slot.value);
      link := found;
      ActOnLink(d, found);
    }

    method LookupActive() returns (slot: Option<nat>)
      requires Valid()
      ensures Valid() && Board() == old(Board()) && State() == old(State())
      ensures slot == Lookup(State().slots, State().active) && (slot.Some? ==> slot.value == State().active.slot < SLOT_COUNT)
    {
      slot := LookupSlot(activeHandle);
    }

    method PollSession(around: Surroundings) returns (ghost a: PollAnswers)
      requires Valid()
      modifies Repr()
      ensures old(clock.ticks) <= clock.ticks
      ensures AroundOf(a) == around && PolledWithin(a, old(clock.ticks), clock.ticks)
      ensures Valid() && Board() == old(Board()) && State() == Sessions.PollSession(old(State()), a)
      ensures PollReadsOut(old(State()), a)
    {
      hide Valid, State, Repr, Board, Sessions.AcceptReplacement, DetectLoss, Sessions.ReadAvailable, FirstReusable,
           Lookup, ReadsOut;
      a := Quiet(around, clock.ticks);
      var pending := HasPendingConnection(around);
      if pending {
        AcceptingTakesNoTime(State(), around, clock.ticks);
        AcceptReplacement(around);
        return;
      }
      ghost var d := State();
      ghost var link := DetectActiveLoss();
      DetectingKeepsState(d, link);
      a := a.(link := link);
      var now := CurrentState();
      if now == SessionActive && !IsTeardownPending() {
        ghost var events := ReadAvailable();
        a := a.(events := events);
      }
    }

    /** Reads in chunks until a line is ready or the network has no more; what the framer leaves of a chunk is lost. */
    method ReadAvailable() returns (ghost events: seq<ReadEvent>)
      requires Valid()
      modifies Repr()
      ensures old(clock.ticks) <= clock.ticks
      ensures Valid() && Board() == old(Board()) && State() == Sessions.ReadAvailable(old(State()), events)
      ensures Resolves(old(State()).slots, old(State()).active) ==> ReadsOut(old(State()), events)
    {
      hide Valid, State, Repr, Board, Sessions.RequestTeardown, Lookup, ReadsOut, ReadLoop;
      var slot := LookupActive();
      events := [];
      if slot == None {
        AskTeardown(ConnectionLost);
        return;
      }
      events := ReadFrom(slot.value);
    }

    method ReadFrom(slot: nat) returns (ghost events: seq<ReadEvent>)
      requires Valid() && slot == State().active.slot < SLOT_COUNT
      modifies Repr()
      ensures old(clock.ticks) <= clock.ticks
      ensures Valid() && Board() == old(Board()) && State() == ReadLoop(old(State()), events)
      ensures ReadsOut(old(State()), events)
    {
      hide Valid, State, Repr, Board, ReadLoop, StillReading, LinkLoss, TakeChunk, Noted, ReadsOut;
      ghost var start := State();
      events := [];
      StartReading(start);
      var buffer := NewReadBuffer();
      var ready := HasLineReady();
      while !ready
        invariant Valid() && Board() == old(Board()) && fresh(buffer) && buffer !in Repr()
        invariant StillReading(start, events) && State() == ReadLoop(start, events)
        invariant ready <==> HasLine(State().framer)
        invariant State().active.slot == slot && old(clock.ticks) <= clock.ticks
        decreases Available(slot)
      {
        ghost var d := State();
        SightsOfBoth();
        var link := LinkState(slot);
        if link != BytesAvailable {
          ActOnLink(d, link);
          ReadingStops(start, events, LinkIs(link));
          SilenceEndsReading(start, events, LinkIs(link));
          events := events + [LinkIs(link)];
          return;
        }
        var read := ReadChunk(slot, buffer);
        NotedTwice(d, buffer[..read]);
        if read == 0 {
          assert buffer[..read] == "";
          ghost var found := DetectActiveLoss();
          ReadingStops(start, events, NothingRead(found));
          SilenceEndsReading(start, events, NothingRead(found));
          events := events + [NothingRead(found)];
          return;
        }
        StillReadingOneMore(start, events, buffer[..read]);
        events := events + [Chunk(buffer[..read])];
        TakenKeepsSlot(d, buffer[..read]);
        AppendChunk(d, buffer, read);
        ready := HasLineReady();
      }
      LineEndsReading(start, events);
    }

    method NewReadBuffer() returns (buffer: array<char>)
      requires Valid()
      ensures Valid() && Board() == old(Board()) && State() == old(State())
      ensures fresh(buffer) && buffer.Length == READ_CHUNK_BYTES && buffer !in Repr()
    {
      hide LineFramer.Valid, LineFramer.Model, NetworkServer.Valid, NetworkServer.Model, CommandRegistry.Valid,
           CommandRegistry.Model;
      buffer := new char[READ_CHUNK_BYTES];
    }

    method HasLineReady() returns (ready: bool)
      requires Valid()
      ensures Valid() && Board() == old(Board()) && State() == old(State()) && ready == HasLine(State().framer)
      ensures forall slot :: Available(slot) == old(Available(slot))
    {
      hide LineFramer.Model, NetworkServer.Valid, NetworkServer.Model, CommandRegistry.Valid, CommandRegistry.Model;
      ready := framer.HasActiveLine();
    }

    lemma SightsOfBoth()
      requires Valid()
      ensures |State().sights| == SLOT_COUNT
    {
      hide LineFramer.Valid, LineFramer.Model, NetworkServer.Valid, NetworkServer.Model, CommandRegistry.Valid,
           CommandRegistry.Model;
    }

    /** The link has just been looked at. */
    method ActOnLink(ghost d: Driver, link: Link)
      requires Valid() && State() == Noted(d, [Saw(link)])
      modifies Repr()
      ensures old(clock.ticks) <= clock.ticks
      ensures Valid() && Board() == old(Board()) && State() == LinkLoss(d, link)
    {
      hide Valid, State, Repr, Board, Sessions.RequestTeardown, Noted;
      if link == Closed {
        AskTeardown(ConnectionLost);
      } else if link == Down {
        AskTeardown(LinkLost);
      }
    }

    method ReadChunk(slot: nat, buffer: array<char>) returns (read: nat)
      requires Valid() && slot == State().active.slot < SLOT_COUNT && buffer !in Repr()
      modifies Repr(), buffer
      ensures old(clock.ticks) <= clock.ticks
      ensures Valid() && Board() == old(Board()) && read <= buffer.Length
      ensures State() == Noted(old(State()), [Took(buffer[..read])])
      ensures Available(slot) == old(Available(slot)) - read
    {
      hide LineFramer.Valid, LineFramer.Model, NetworkServer.Valid, NetworkServer.Model, CommandRegistry.Valid,
           CommandRegistry.Model;
      if slot == 0 {
        read := first.ReadSome(buffer);
      } else {
        read := second.ReadSome(buffer);
      }
    }

    /** The framer's count of what it took is not looked at: the rest of the chunk is lost. */
    method AppendChunk(ghost d: Driver, buffer: array<char>, read: nat)
      requires Valid() && read <= buffer.Length && buffer !in Repr() && State() == Noted(d, ReadSights(buffer[..read]))
      modifies Repr()
      ensures old(clock.ticks) <= clock.ticks
      ensures Valid() && Board() == old(Board()) && State() == TakeChunk(d, old(buffer[..read]))
      ensures forall slot :: Available(slot) == old(Available(slot))
    {
      hide LineFramer.Valid, NetworkServer.Valid, NetworkServer.Model, CommandRegistry.Valid, CommandRegistry.Model,
           Feed, Noted;
      var consumed := framer.Append(buffer, read);
      record := record.(consumed := record.consumed + buffer[..read][..consumed]);
    }

    // -------------------------------------------------------------------------------------
    // Lines.

    method NextLine() returns (line: Option<string>, ghost events: seq<ReadEvent>)
      requires Valid()
      modifies Repr()
      ensures old(clock.ticks) <= clock.ticks
      ensures Valid() && Board() == old(Board())
      ensures State() == AfterNextLine(old(State()), events) && line == Sessions.NextLine(old(State()), events)
      ensures LineReadsOut(old(State()), events)
    {
      hide Valid, State, Repr, Board, Sessions.ReadAvailable, ReadsOut;
      events := [];
      var active := IsSessionActive();
      if !active || IsTeardownPending() {
        return None, [];
      }
      var ready := HasLineReady();
      if !ready {
        events := ReadAvailable();
      }
      ready := HasLineReady();
      if !ready {
        return None, events;
      }
      line := AcquireLine();
    }

    method IsSessionActive() returns (active: bool)
      requires Valid()
      ensures Valid() && Board() == old(Board()) && State() == old(State()) && active == IsActive(State())
    {
      active := SessionIsActive();
    }

    method AcquireLine() returns (line: Option<string>)
      requires Valid() && HasLine(State().framer)
      modifies Repr()
      ensures old(clock.ticks) <= clock.ticks
      ensures Valid() && Board() == old(Board())
      ensures var d := old(State());
              && line == d.framer.active && line.Some?
              && State() == d.(framer := Acquire(d.framer), record := d.record.(delivered := d.record.delivered + [line.value]))
    {
      hide LineFramer.Valid, NetworkServer.Valid, NetworkServer.Model, CommandRegistry.Valid, CommandRegistry.Model;
      line := framer.AcquireLine();
      record := record.(delivered := record.delivered + [line.value]);
    }

    method ReleaseLine()
      requires Valid()
      modifies Repr()
      ensures old(clock.ticks) <= clock.ticks
      ensures Valid() && Board() == old(Board()) && State() == ReleaseActiveLine(old(State()))
    {
      hide LineFramer.Valid, NetworkServer.Valid, NetworkServer.Model, CommandRegistry.Valid, CommandRegistry.Model;
      framer.ReleaseLine();
    }

    // -------------------------------------------------------------------------------------
    // What the service loop moves through the driver.

    ghost method NoteBook(book: Book)
      requires Valid()
      modifies Repr()
      ensures old(clock.ticks) <= clock.ticks
      ensures Valid() && Board() == old(Board())
      ensures State() == old(State()).(record := old(State()).record.(book := book))
    {
      hide LineFramer.Valid, LineFramer.Model, NetworkServer.Valid, NetworkServer.Model, CommandRegistry.Valid,
           CommandRegistry.Model;
      record := record.(book := book);
    }

    method SetCounters(c: Values)
      requires Valid()
      modifies Repr()
      ensures old(clock.ticks) <= clock.ticks
      ensures Valid() && Board() == old(Board()) && State() == old(State()).(counters := c)
    {
      hide LineFramer.Valid, LineFramer.Model, NetworkServer.Valid, NetworkServer.Model, CommandRegistry.Valid,
           CommandRegistry.Model;
      counters.values := c;
    }

    method ReadClock() returns (now: uint64, ghost at: nat)
      requires Valid()
      modifies Repr()
      ensures old(clock.ticks) <= at <= clock.ticks && now == at % TWO_64
      ensures Valid() && Board() == old(Board()) && State() == old(State())
    {
      hide LineFramer.Valid, LineFramer.Model, NetworkServer.Valid, NetworkServer.Model, CommandRegistry.Valid,
           CommandRegistry.Model;
      now := clock.MonotonicMilliseconds();
      at := clock.ticks;
    }
  }

  lemma TakenKeepsSlot(d: Driver, bytes: string)
    ensures TakeChunk(d, bytes).active == d.active && Noted(d, ReadSights(bytes)).active == d.active
  {
  }

  /** A schema has no terminator in it, so measuring the buffer finds its end. */
  lemma SchemaHasNoTerminator(b: Registry.Board, timestamp: uint64, text: string, length: nat)
    requires Schema.SchemaLine(b, timestamp).Some?
    requires var line := Schema.SchemaLine(b, timestamp).value;
             && |line| <= |text| && text[..|line|] == line && (|line| < |text| ==> text[|line|] == '\0')
    requires length <= |text| && '\0' !in text[..length] && (length < |text| ==> text[length] == '\0')
    ensures text[..length] == Schema.SchemaLine(b, timestamp).value
  {
    hide Schema.SchemaCalls, JsonScripts.Line, JsonScripts.IsScript, JsonScripts.AllContent;
    var line := Schema.SchemaLine(b, timestamp).value;
    Schema.SchemaIsScript(b, timestamp);
    JsonScripts.FullRun(Schema.SchemaCalls(b, timestamp));
    JsonScripts.LineIsWireText(Limits.BOARD_TX_MAX_LINE_BYTES, Schema.SchemaCalls(b, timestamp));
    assert JsonScripts.IsWireText(line);
    assert length == |line|;
  }
}
