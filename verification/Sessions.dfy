/**
 The session lifecycle as functions on a value: accept, schema first, supersession, deferred
 teardown. The value also carries a record of what happened on the bound connection, and the
 records of the connections before it; nothing in the lifecycle reads them.
 */
module Sessions {
  import opened Common
  import opened CounterBank
  import opened Connections
  import opened LineFraming
  import opened OutboundWriting
  import opened Platform
  import Registry
  import opened Schema
  import Scheduling
  import JsonScripts
  import Limits

  datatype SessionState = BootSafe | NetworkStarting | Listening | SessionConnected | SessionActive | SessionClosing

  predicate IsValidTransition(from: SessionState, to: SessionState) {
    match from
    case BootSafe => to.NetworkStarting?
    case NetworkStarting => to.Listening?
    case Listening => to.SessionConnected?
    case SessionConnected => to.SessionActive? || to.SessionClosing?
    case SessionActive => to.SessionClosing?
    case SessionClosing => to.Listening?
  }

  /** A line handed to the transport, and how much of it was taken. */
  datatype Write = Write(line: string, cls: MessageClass, accepted: nat)

  /** What the service loop did while one connection was active. */
  datatype Book = Book(
    queued: seq<Scheduling.Entry>,   // critical entries queued
    frames: set<string>,             // telemetry lines queued
    drained: seq<Scheduling.Entry>,  // entries drained, telemetry included
    triggers: nat,                   // attempts to queue the e-stop event
    saturated: bool,                 // an entry was refused because the queue was full
    safe: nat,                       // e-stop hook calls that reported a safe state
    acks: nat,                       // e-stop acknowledgements sent
    attempts: seq<nat>)              // true times at which a telemetry frame was attempted

  const EMPTY_BOOK := Book([], {}, [], 0, false, 0, 0, [])

  /** One connection: the lines written to it, the bytes framed and the lines delivered from it, and its book. */
  datatype Record = Record(handle: ConnectionHandle, writes: seq<Write>, consumed: string, delivered: seq<string>, book: Book)

  function NewRecord(h: ConnectionHandle): Record {
    Record(h, [], "", [], EMPTY_BOOK)
  }

  /** A connection that has ended, everything its peer was sent, all that was seen of it, and why it ended. */
  datatype Ended = Ended(record: Record, heard: string, said: seq<Sight>, reason: TeardownReason)

  datatype Driver = Driver(
    state: SessionState, active: ConnectionHandle, replacement: ConnectionHandle,
    teardown: bool, reason: TeardownReason,
    initAttempted: bool, nextInitMs: uint64,
    framer: Framer, transport: Option<nat>, failures: nat,
    slots: seq<Slot>,
    received: seq<string>,        // per slot, what its current peer was sent
    sights: seq<seq<Sight>>,      // per slot, what was seen of its current peer
    counters: Values,
    record: Record, past: seq<Ended>,
    hookRuns: nat,           // controller-loss hook runs
    refused: bool)           // a state change was asked for that the relation does not allow

  const NEW_DRIVER := Driver(
    BootSafe, INVALID_CONNECTION, INVALID_CONNECTION, false, ExplicitShutdown, false, 0, EMPTY, None, 0,
    NO_CONNECTIONS, ["", ""], [[], []], ZERO, NewRecord(INVALID_CONNECTION), [], 0, false)

  // ---------------------------------------------------------------------------------------
  // What the environment answers.

  /** For one promotion: the true time put in the schema, and how much of the line the transport took. */
  datatype Promotion = Promotion(timestamp: nat, accepted: nat)

  /** For one turn of the read loop. */
  datatype ReadEvent = LinkIs(link: Link) | Chunk(bytes: string) | NothingRead(link: Link)

  datatype PollAnswers = PollAnswers(
    ready: bool, now: nat, begun: bool, failedAt: nat,
    listening: bool, client: bool, clientStays: bool,
    link: Link, events: seq<ReadEvent>, promotions: seq<Promotion>)

  predicate PromotedWithin(ps: seq<Promotion>, from: nat, to: nat) {
    forall i :: 0 <= i < |ps| ==> from <= ps[i].timestamp <= to
  }

  /** The clock was read between these times. */
  predicate PolledWithin(a: PollAnswers, from: nat, to: nat) {
    from <= a.now <= to && from <= a.failedAt <= to && PromotedWithin(a.promotions, from, to)
  }

  function AroundOf(a: PollAnswers): Surroundings {
    Surroundings(a.ready, a.begun, a.listening, a.client, a.clientStays)
  }

  // ---------------------------------------------------------------------------------------
  // State changes and transmissions.

  function TransitionTo(d: Driver, next: SessionState): (e: Driver)
    ensures e == d.(state := e.state, refused := e.refused)
  {
    if d.state == next then d
    else if IsValidTransition(d.state, next) then d.(state := next)
    else d.(refused := true)
  }

  function RequestTeardown(d: Driver, why: TeardownReason): (e: Driver)
    ensures e.teardown && e == d.(teardown := true, reason := e.reason, state := e.state, refused := e.refused)
  {
    if d.teardown then d
    else
      var e := d.(teardown := true, reason := why);
      if d.state.SessionConnected? || d.state.SessionActive? then TransitionTo(e, SessionClosing) else e
  }

  function ReplaceReason(d: Driver, why: TeardownReason): (e: Driver)
    ensures e.teardown && e == d.(teardown := true, reason := e.reason, state := e.state, refused := e.refused)
  {
    if d.teardown then d.(reason := why) else RequestTeardown(d, why)
  }

  predicate IsActive(d: Driver) {
    d.state.SessionActive? && IsValidHandle(d.active)
  }

  function At<T>(logs: seq<seq<T>>, slot: nat, log: seq<T>): seq<seq<T>> {
    if slot < |logs| then logs[slot := log] else logs
  }

  function Heard<T>(logs: seq<seq<T>>, slot: nat): seq<T> {
    if slot < |logs| then logs[slot] else []
  }

  /** All that was seen of the bound connection. */
  function Said(d: Driver): seq<Sight> {
    Heard(d.sights, d.active.slot)
  }

  function Noted(d: Driver, more: seq<Sight>): (e: Driver)
    ensures e == d.(sights := e.sights)
  {
    d.(sights := At(d.sights, d.active.slot, Said(d) + more))
  }

  datatype Sending = Sending(driver: Driver, result: SendResult)

  /** The transport takes `n` bytes of a line. */
  function Transmitted(d: Driver, slot: nat, line: string, cls: MessageClass, n: nat): (e: Driver)
    requires n <= |line|
    ensures e == d.(received := e.received, failures := e.failures, counters := e.counters, record := e.record)
  {
    d.(received := At(d.received, slot, Heard(d.received, slot) + line[..n]),
       failures := StreakAfter(d.failures, cls, n == |line|),
       counters := CountedAfter(d.counters, cls, n == |line|),
       record := Wrote(d.record, Write(line, cls, n)))
  }

  function TeardownIfAny(d: Driver, why: Option<TeardownReason>): (e: Driver)
    ensures e == d.(teardown := e.teardown, reason := e.reason, state := e.state, refused := e.refused)
    ensures e.teardown <==> d.teardown || why.Some?
  {
    if why.Some? then RequestTeardown(d, why.value) else d
  }

  /** One line through the writer; `accepted` is cut to the line's length. */
  function WriteLine(d: Driver, line: string, cls: MessageClass, accepted: nat): (s: Sending)
    ensures s.driver.replacement == d.replacement && s.driver.record.book == d.record.book && s.driver.sights == d.sights
            && s.driver.active == d.active
  {
    if !IsValidWireLine(line) then Sending(d.(record := Wrote(d.record, Write(line, cls, 0))), InvalidLine)
    else if d.transport.None? then Sending(d, NoActiveTransport)
    else
      var n := if accepted <= |line| then accepted else |line|;
      Sending(TeardownIfAny(Transmitted(d, d.transport.value, line, cls, n), TeardownAfter(d.failures, cls, n == |line|)),
              if n == |line| then Sent else DeadlineExpired)
  }

  function Wrote(r: Record, w: Write): Record {
    r.(writes := r.writes + [w])
  }

  function SendActiveLine(d: Driver, line: string, cls: MessageClass, accepted: nat): Sending {
    if !IsActive(d) || d.teardown then Sending(d, NoActiveTransport) else WriteLine(d, line, cls, accepted)
  }

  // ---------------------------------------------------------------------------------------
  // Promotion and teardown.

  function NextPromotion(ps: seq<Promotion>): Promotion {
    if ps == [] then Promotion(0, 0) else ps[0]
  }

  function LaterPromotions(ps: seq<Promotion>): seq<Promotion> {
    if ps == [] then [] else ps[1..]
  }

  function Bound(d: Driver, h: ConnectionHandle): Driver {
    TransitionTo(d.(active := h, transport := Some(h.slot), failures := 0, framer := EMPTY, record := NewRecord(h)),
                 SessionConnected)
  }

  function Held(d: Driver): nat {
    if IsValidHandle(d.replacement) then 1 else 0
  }

  function Promote(b: Registry.Board, d: Driver, h: ConnectionHandle, ps: seq<Promotion>): Driver
    decreases Held(d), 1
  {
    hide SchemaLine, WriteLine;
    if !Resolves(d.slots, h) then d.(counters := d.counters.(sessionsRejected := d.counters.sessionsRejected + 1))
    else
      var p := NextPromotion(ps);
      var e := Bound(d, h);
      match SchemaLine(b, p.timestamp % TWO_64)
      case None => Apply(b, RequestTeardown(e, SchemaSendFailure), LaterPromotions(ps))
      case Some(line) =>
        var s := WriteLine(e, line, CriticalMessage, p.accepted);
        if s.result != Sent then Apply(b, ReplaceReason(s.driver, SchemaSendFailure), LaterPromotions(ps))
        else
          TransitionTo(s.driver.(counters := s.driver.counters.(schemasSent := s.driver.counters.schemasSent + 1)), SessionActive)
  }

  /** The bound connection, if any, ends: hook, abort, count. */
  function Unbound(d: Driver): Driver {
    var e := d.(framer := EMPTY, transport := None, failures := 0);
    if !IsValidHandle(d.active) then e
    else
      e.(hookRuns := d.hookRuns + 1, slots := Aborted(d.slots, d.active), active := INVALID_CONNECTION,
         counters := d.counters.(controllerDisconnects := d.counters.controllerDisconnects + 1),
         past := d.past + [Ended(d.record, Heard(d.received, d.active.slot), Said(d), d.reason)], record := NewRecord(INVALID_CONNECTION))
  }

  function Apply(b: Registry.Board, d: Driver, ps: seq<Promotion>): Driver
    decreases Held(d), 0
  {
    if !d.teardown then d
    else
      var e := TransitionTo(Unbound(d).(teardown := false, reason := ExplicitShutdown), Listening);
      if IsValidHandle(e.replacement)
      then Promote(b, e.(replacement := INVALID_CONNECTION), e.replacement, ps) else e
  }

  // ---------------------------------------------------------------------------------------
  // Polling.

  function Begin(d: Driver, now: nat): Driver {
    if !d.state.BootSafe? then d else TransitionTo(d, NetworkStarting).(nextInitMs := now % TWO_64)
  }

  function PumpNetworkStarting(d: Driver, a: PollAnswers): Driver {
    if !a.ready then d
    else if d.initAttempted && (a.now % TWO_64 - d.nextInitMs) % TWO_64 < Limits.NETWORK_INIT_RETRY_MS then d
    else if !a.begun then d.(initAttempted := true, nextInitMs := a.failedAt % TWO_64)
    else TransitionTo(d.(initAttempted := true), Listening)
  }

  predicate IsPending(d: Driver, a: PollAnswers) {
    a.listening && a.client && FirstReusable(d.slots) < |d.slots|
  }

  /** The handle an accept yields, and the driver once the slot is taken by a new peer. */
  function AcceptHandle(d: Driver, a: PollAnswers): ConnectionHandle {
    if a.clientStays then Issued(d.slots) else INVALID_CONNECTION
  }

  function AcceptNext(d: Driver, a: PollAnswers): Driver {
    if !a.clientStays then d
    else d.(slots := Accepted(d.slots), received := At(d.received, Issued(d.slots).slot, ""), sights := At(d.sights, Issued(d.slots).slot, []))
  }

  function Rejected(d: Driver): Driver {
    d.(counters := d.counters.(sessionsRejected := d.counters.sessionsRejected + 1))
  }

  function CountAccepted(d: Driver): Driver {
    d.(counters := d.counters.(sessionsAccepted := d.counters.sessionsAccepted + 1))
  }

  function PumpListening(b: Registry.Board, d: Driver, a: PollAnswers): Driver {
    if !IsPending(d, a) then d
    else
      var h, e := AcceptHandle(d, a), AcceptNext(d, a);
      if !IsValidHandle(h) || !Resolves(e.slots, h) then Rejected(e)
      else Promote(b, CountAccepted(e), h, a.promotions)
  }

  function AcceptReplacement(d: Driver, a: PollAnswers): Driver {
    var h, e := AcceptHandle(d, a), AcceptNext(d, a);
    if !IsValidHandle(h) || !Resolves(e.slots, h) then Rejected(e)
    else
      var c := CountAccepted(e);
      RequestTeardown(c.(counters := c.counters.(sessionsSuperseded := c.counters.sessionsSuperseded + 1), replacement := h), Superseded)
  }

  /** The link was looked at. */
  function LinkLoss(d: Driver, link: Link): Driver {
    var e := Noted(d, [Saw(link)]);
    if link.Closed? then RequestTeardown(e, ConnectionLost)
    else if link.Down? then RequestTeardown(e, LinkLost)
    else e
  }

  function DetectLoss(d: Driver, link: Link): Driver {
    if !Resolves(d.slots, d.active) then RequestTeardown(d, ConnectionLost) else LinkLoss(d, link)
  }

  /** A read is made only when bytes are said to be there. */
  function ReadSights(bytes: string): seq<Sight> {
    [Saw(BytesAvailable), Took(bytes)]
  }

  /** A chunk read from the bound connection. What the framer does not consume is dropped. */
  function TakeChunk(d: Driver, bytes: string): Driver {
    var r := Feed(d.framer, bytes);
    Noted(d, ReadSights(bytes)).(
      framer := r.framer, counters := d.counters.(oversizedLines := d.counters.oversizedLines + r.oversized),
      record := d.record.(consumed := d.record.consumed + bytes[..r.consumed]))
  }

  function ReadLoop(d: Driver, events: seq<ReadEvent>): Driver
    decreases |events|
  {
    if HasLine(d.framer) || events == [] then d
    else
      match events[0]
      case LinkIs(link) => LinkLoss(d, link)
      case NothingRead(link) => DetectLoss(Noted(d, ReadSights("")), link)
      case Chunk(bytes) => ReadLoop(TakeChunk(d, bytes), events[1..])
  }

  /** The events run the read loop to its end: a line is ready, or the transport has no more. */
  predicate ReadsOut(d: Driver, events: seq<ReadEvent>)
    decreases |events|
  {
    HasLine(d.framer) ||
    (events != [] &&
      match events[0]
      case LinkIs(link) => !link.BytesAvailable?
      case NothingRead(_) => true
      case Chunk(bytes) => bytes != "" && ReadsOut(TakeChunk(d, bytes), events[1..]))
  }

  function ReadAvailable(d: Driver, events: seq<ReadEvent>): Driver {
    if !Resolves(d.slots, d.active) then RequestTeardown(d, ConnectionLost) else ReadLoop(d, events)
  }

  function Poll(b: Registry.Board, d: Driver, a: PollAnswers): Driver {
    match d.state
    case NetworkStarting => PumpNetworkStarting(d, a)
    case Listening => PumpListening(b, d, a)
    case SessionConnected => PollSession(d, a)
    case SessionActive => PollSession(d, a)
    case _ => d
  }

  function PollSession(d: Driver, a: PollAnswers): Driver {
    if IsPending(d, a) then AcceptReplacement(d, a)
    else
      var e := DetectLoss(d, a.link);
      if e.state.SessionActive? && !e.teardown then ReadAvailable(e, a.events) else e
  }

  /** A poll reads what there is, unless something else comes first. */
  predicate PollReadsOut(d: Driver, a: PollAnswers) {
    var e := DetectLoss(d, a.link);
    d.state.SessionActive? && !IsPending(d, a) && !e.teardown && Resolves(e.slots, e.active) ==> ReadsOut(e, a.events)
  }

  /** And so does asking for a line, when none is ready. */
  predicate LineReadsOut(d: Driver, events: seq<ReadEvent>) {
    IsActive(d) && !d.teardown && !HasLine(d.framer) && Resolves(d.slots, d.active) ==> ReadsOut(d, events)
  }

  /** The driver once the consumer has asked for a line. */
  function AfterNextLine(d: Driver, events: seq<ReadEvent>): Driver {
    if !IsActive(d) || d.teardown then d
    else
      var e := if HasLine(d.framer) then d else ReadAvailable(d, events);
      if !HasLine(e.framer) then e
      else e.(framer := Acquire(e.framer), record := e.record.(delivered := e.record.delivered + [e.framer.active.value]))
  }

  function NextLine(d: Driver, events: seq<ReadEvent>): Option<string> {
    if !IsActive(d) || d.teardown then None
    else
      var e := if HasLine(d.framer) then d else ReadAvailable(d, events);
      if HasLine(e.framer) then e.framer.active else None
  }

  function ReleaseActiveLine(d: Driver): Driver {
    d.(framer := Release(d.framer))
  }

  // ---------------------------------------------------------------------------------------
  // What was sent on a connection.

  function Bytes(ws: seq<Write>): string {
    if ws == [] then ""
    else
      var w := ws[|ws| - 1];
      Bytes(ws[..|ws| - 1]) + if w.accepted <= |w.line| then w.line[..w.accepted] else w.line
  }

  predicate IsComplete(w: Write) {
    w.accepted == |w.line|
  }

  ghost predicate IsSchema(b: Registry.Board, line: string) {
    exists timestamp: uint64 :: SchemaLine(b, timestamp) == Some(line)
  }

  /** Schema first; a line cut short is telemetry, unless it is the last. */
  ghost predicate GoodWrites(b: Registry.Board, ws: seq<Write>) {
    && (forall i :: 0 <= i < |ws| ==> ws[i].accepted <= |ws[i].line|)
    && (ws != [] ==> IsSchema(b, ws[0].line) && ws[0].cls.CriticalMessage?)
    && (forall i :: 0 <= i < |ws| - 1 ==> IsComplete(ws[i]) || ws[i].cls.TelemetryMessage?)
  }

  /** Nothing prevents another line from following. */
  predicate MayFollow(ws: seq<Write>) {
    ws != [] && (IsComplete(ws[|ws| - 1]) || ws[|ws| - 1].cls.TelemetryMessage?)
  }

  /** The inbound side of a connection is a framing session over the bytes it consumed. */
  function Framing(f: Framer, r: Record): Session {
    Session(f, r.consumed, r.delivered, Oversized(r.consumed))
  }

  ghost predicate GoodInbound(r: Record) {
    r.delivered <= Kept(r.consumed)
  }

  // ---------------------------------------------------------------------------------------
  // The invariant of the lifecycle.

  /** The critical entries among those drained. */
  function CriticalOnly(es: seq<Scheduling.Entry>): seq<Scheduling.Entry> {
    if es == [] then []
    else
      var last := es[|es| - 1];
      CriticalOnly(es[..|es| - 1]) + if last.kind.Telemetry? then [] else [last]
  }

  predicate SameLine(w: Write, e: Scheduling.Entry) {
    w.line == e.line && (w.cls.TelemetryMessage? <==> e.kind.Telemetry?)
  }

  /** After the schema, the lines written are the entries drained, in order. */
  predicate MatchesWrites(ws: seq<Write>, drained: seq<Scheduling.Entry>) {
    || (ws == [] && drained == [])
    || (|ws| == |drained| + 1 && forall i :: 0 <= i < |drained| ==> SameLine(ws[i + 1], drained[i]))
  }

  /**
   What a connection's book says at any time: writes follow drains; per priority class what was
   drained is the head of what was queued; telemetry drained was queued; acknowledgements do not
   exceed safe hook returns; the queue was never full before a fourth e-stop event; and telemetry
   was attempted no more often than its period.
   */
  ghost predicate GoodBook(r: Record) {
    && MatchesWrites(r.writes, r.book.drained)
    && (forall p :: Scheduling.OfClass(CriticalOnly(r.book.drained), p) <= Scheduling.OfClass(r.book.queued, p))
    && (forall i :: 0 <= i < |r.book.drained| && r.book.drained[i].kind.Telemetry? ==> r.book.drained[i].line in r.book.frames)
    && r.book.acks <= r.book.safe
    && (r.book.saturated ==> r.book.triggers > Scheduling.CAPACITY - 1)
    && ReadingsSpaced(r.book.attempts)
  }

  /** By the clock's readings, consecutive attempts are a telemetry period apart, measured modulo 2^64. */
  predicate ReadingsSpaced(attempts: seq<nat>) {
    forall i :: 0 < i < |attempts| ==>
      (attempts[i] % TWO_64 - attempts[i - 1] % TWO_64) % TWO_64 >= Limits.TELEMETRY_PERIOD_MS
  }

  /**
   What isolation means for one connection: its peer was sent exactly the written parts of its own
   lines, schema first, and what was delivered from it are lines of bytes read from itself.
   */
  ghost predicate IsolatedRecord(b: Registry.Board, r: Record, heard: string, said: seq<Sight>) {
    heard == Bytes(r.writes) && GoodWrites(b, r.writes) && GoodInbound(r) && GoodBook(r) && FramedFrom(r.consumed, said)
  }

  /** The bytes framed are, in order, the first so many of each chunk read from the connection. */
  ghost predicate FramedFrom(consumed: string, said: seq<Sight>)
    decreases |said|
  {
    if said == [] then consumed == ""
    else
      var front := said[..|said| - 1];
      match said[|said| - 1]
      case Saw(_) => FramedFrom(consumed, front)
      case Took(bytes) => exists had: string, k: nat :: k <= |bytes| && consumed == had + bytes[..k] && FramedFrom(had, front)
  }

  predicate WasLost(said: seq<Sight>) {
    Saw(Closed) in said || Saw(Down) in said
  }

  /** A lost link ends its connection; and one that ends for a lost connection or link was seen to lose it. */
  predicate LossExplains(said: seq<Sight>, ended: bool, why: TeardownReason) {
    && (WasLost(said) ==> ended)
    && (ended && why.ConnectionLost? ==> Saw(Closed) in said)
    && (ended && why.LinkLost? ==> Saw(Down) in said)
  }

  /** The transmissions among the lines written; what is no wire line never reaches the transport. */
  function Sends(ws: seq<Write>): seq<Transmission> {
    if ws == [] then []
    else
      var w := ws[|ws| - 1];
      Sends(ws[..|ws| - 1]) + if IsValidWireLine(w.line) then [Transmission(w.cls, IsComplete(w))] else []
  }

  /** A connection's tenth telemetry expiry to accumulate ends it, and is its last. */
  predicate StreakExplains(ws: seq<Write>, ended: bool) {
    Expiries(Sends(ws)) <= STREAK_LIMIT && (ended <==> Expiries(Sends(ws)) == STREAK_LIMIT)
  }

  predicate EndsByStreak(d: Driver) {
    d.teardown && d.reason.TelemetryTransmitFailureStreak?
  }

  /** Every connection that has ended was served only its own lines, and ended by a streak of expiries exactly if there was one. */
  ghost predicate GoodPast(b: Registry.Board, d: Driver) {
    forall i :: 0 <= i < |d.past| ==>
      && IsolatedRecord(b, d.past[i].record, d.past[i].heard, d.past[i].said)
      && LossExplains(d.past[i].said, true, d.past[i].reason)
      && StreakExplains(d.past[i].record.writes, d.past[i].reason.TelemetryTransmitFailureStreak?)
  }

  function ActiveCount(d: Driver): nat {
    if IsValidHandle(d.active) then 1 else 0
  }

  /** The handles of ended connections are dead, and no two are the same. */
  ghost predicate Buried(slots: seq<Slot>, past: seq<Ended>) {
    && (forall i :: 0 <= i < |past| ==> Dead(slots, past[i].record.handle))
    && (forall i, j :: 0 <= i < j < |past| ==> past[i].record.handle != past[j].record.handle)
  }

  lemma BuryOneMore(slots: seq<Slot>, past: seq<Ended>, r: Record, heard: string, said: seq<Sight>, why: TeardownReason)
    requires IsTable(slots) && Buried(slots, past) && Resolves(slots, r.handle)
    ensures Buried(Aborted(slots, r.handle), past + [Ended(r, heard, said, why)])
  {
    hide Dead, Resolves, Aborted, IsTable;
    AbortKills(slots, r.handle);
    forall i | 0 <= i < |past| ensures Dead(Aborted(slots, r.handle), past[i].record.handle) && past[i].record.handle != r.handle {
      AbortKeepsDead(slots, r.handle, past[i].record.handle);
    }
  }

  lemma AcceptingKeepsBuried(slots: seq<Slot>, past: seq<Ended>)
    requires IsTable(slots) && Buried(slots, past)
    ensures Buried(Accepted(slots), past)
  {
    hide Dead, Accepted, IsTable;
    forall i | 0 <= i < |past| ensures Dead(Accepted(slots), past[i].record.handle) {
      AcceptKeepsDead(slots, past[i].record.handle);
    }
  }

  /** Slots and counters account for every accepted session; no state change was ever refused. */
  ghost predicate Conserved(d: Driver) {
    && IsTable(d.slots) && Buried(d.slots, d.past) && |d.received| == |d.sights| == SLOT_COUNT && !d.refused
    && Occupied(d.slots) == ActiveCount(d) + Held(d)
    && d.counters.sessionsAccepted == d.counters.controllerDisconnects + ActiveCount(d) + Held(d)
    && d.hookRuns == d.counters.controllerDisconnects == |d.past|
  }

  /**
   A bound connection: its handle is live, the writer is on its slot, the slot's peer was sent what
   the record says, the bytes framed were read from it, and the failures counted are those of its
   own writes.
   */
  ghost predicate Connected(b: Registry.Board, d: Driver) {
    && Resolves(d.slots, d.active) && d.transport == Some(d.active.slot)
    && d.record.handle == d.active && Heard(d.received, d.active.slot) == Bytes(d.record.writes)
    && GoodWrites(b, d.record.writes) && Refines(Framing(d.framer, d.record))
    && d.failures == Streak(Sends(d.record.writes)) && FramedFrom(d.record.consumed, Said(d))
  }

  /** A held replacement is live, on the other slot, and has been sent nothing. */
  ghost predicate Holding(d: Driver) {
    IsValidHandle(d.replacement) ==>
      && d.teardown && Resolves(d.slots, d.replacement) && d.replacement != d.active
      && Heard(d.received, d.replacement.slot) == "" && Heard(d.sights, d.replacement.slot) == []
  }

  ghost predicate Idle(d: Driver) {
    && (d.state.NetworkStarting? || d.state.Listening?)
    && d.active == INVALID_CONNECTION && !IsValidHandle(d.replacement) && !d.teardown
    && d.transport == None && d.framer == EMPTY && d.record == NewRecord(INVALID_CONNECTION)
  }

  /** The lifecycle between two operations of the service loop. */
  ghost predicate Sound(b: Registry.Board, d: Driver) {
    && Conserved(d) && Holding(d)
    && GoodPast(b, d)
    && if IsValidHandle(d.active)
       then
         && Connected(b, d) && GoodBook(d.record) && StreakExplains(d.record.writes, EndsByStreak(d))
         && LossExplains(Said(d), d.teardown, d.reason)
         && d.state == (if d.teardown then SessionClosing else SessionActive)
       else Idle(d)
  }

  /** Nothing is pending: what holds between two service calls. */
  ghost predicate Settled(b: Registry.Board, d: Driver) {
    Sound(b, d) && !d.teardown && !d.framer.acquired && (IsValidHandle(d.active) ==> MayFollow(d.record.writes))
  }

  // ---------------------------------------------------------------------------------------
  // Transmission.

  lemma BytesOfWrote(ws: seq<Write>, w: Write)
    requires w.accepted <= |w.line|
    ensures Bytes(ws + [w]) == Bytes(ws) + w.line[..w.accepted]
  {
    assert (ws + [w])[..|ws|] == ws;
  }

  lemma WroteIsGood(b: Registry.Board, ws: seq<Write>, w: Write)
    requires GoodWrites(b, ws) && w.accepted <= |w.line|
    requires ws == [] ==> IsSchema(b, w.line) && w.cls.CriticalMessage?
    requires ws != [] ==> MayFollow(ws)
    ensures GoodWrites(b, ws + [w])
  {
  }

  lemma SendsAppend(ws: seq<Write>, w: Write)
    ensures Sends(ws + [w]) == Sends(ws) + if IsValidWireLine(w.line) then [Transmission(w.cls, IsComplete(w))] else []
  {
    assert (ws + [w])[..|ws|] == ws;
  }

  lemma WriteReason(d: Driver, line: string, cls: MessageClass, accepted: nat)
    requires !d.teardown && d.transport.Some?
    ensures var e := WriteLine(d, line, cls, accepted).driver;
            var n := if !IsValidWireLine(line) then 0 else if accepted <= |line| then accepted else |line|;
            && e.record.writes == d.record.writes + [Write(line, cls, n)]
            && (EndsByStreak(e) <==> IsValidWireLine(line) && TeardownAfter(d.failures, cls, n == |line|) == Some(TelemetryTransmitFailureStreak))
  {
    hide IsValidWireLine, CountedAfter, At, TeardownAfter, StreakAfter;
  }

  /** A transmission asks for the end of the session, for this reason, exactly when the tenth expiry accumulates. */
  lemma WriteExplains(d: Driver, line: string, cls: MessageClass, accepted: nat)
    requires d.failures == Streak(Sends(d.record.writes)) && !d.teardown && d.transport.Some?
    requires StreakExplains(d.record.writes, false)
    ensures var e := WriteLine(d, line, cls, accepted).driver; StreakExplains(e.record.writes, EndsByStreak(e))
  {
    hide IsValidWireLine, WriteLine, Sends, Streak, Expiries, TeardownAfter, EndsByStreak;
    WriteReason(d, line, cls, accepted);
    var n := if !IsValidWireLine(line) then 0 else if accepted <= |line| then accepted else |line|;
    SendsAppend(d.record.writes, Write(line, cls, n));
    if IsValidWireLine(line) {
      OneMoreSend(Sends(d.record.writes), cls, n == |line|);
    } else {
      assert Sends(d.record.writes) + [] == Sends(d.record.writes);
    }
  }

  lemma TransmittedKeepsConnected(b: Registry.Board, d: Driver, line: string, cls: MessageClass, n: nat)
    requires Connected(b, d) && |d.received| == |d.sights| == SLOT_COUNT && IsTable(d.slots) && n <= |line| && IsValidWireLine(line)
    requires if d.record.writes == [] then IsSchema(b, line) && cls.CriticalMessage? else MayFollow(d.record.writes)
    ensures var e := Transmitted(d, d.active.slot, line, cls, n);
            && Connected(b, e) && |e.received| == SLOT_COUNT
            && (forall j: nat :: j != d.active.slot ==> Heard(e.received, j) == Heard(d.received, j))
  {
    hide IsSchema, Refines, Sends, Streak;
    BytesOfWrote(d.record.writes, Write(line, cls, n));
    WroteIsGood(b, d.record.writes, Write(line, cls, n));
    SendsAppend(d.record.writes, Write(line, cls, n));
    StreakAppend(Sends(d.record.writes), Transmission(cls, n == |line|));
  }

  lemma InvalidKeepsConnected(b: Registry.Board, d: Driver, line: string, cls: MessageClass)
    requires Connected(b, d) && !IsValidWireLine(line)
    requires if d.record.writes == [] then IsSchema(b, line) && cls.CriticalMessage? else MayFollow(d.record.writes)
    ensures Connected(b, d.(record := Wrote(d.record, Write(line, cls, 0))))
  {
    hide IsSchema, Refines, Sends, Streak;
    SendsAppend(d.record.writes, Write(line, cls, 0));
    assert Sends(d.record.writes) + [] == Sends(d.record.writes);
    BytesOfWrote(d.record.writes, Write(line, cls, 0));
    WroteIsGood(b, d.record.writes, Write(line, cls, 0));
  }

  /** What a transmission does to a bound connection, whatever its outcome. */
  lemma WriteKeepsConnected(b: Registry.Board, d: Driver, line: string, cls: MessageClass, accepted: nat)
    requires Connected(b, d) && |d.received| == |d.sights| == SLOT_COUNT && IsTable(d.slots) && line != ""
    requires if d.record.writes == [] then IsSchema(b, line) && cls.CriticalMessage? else MayFollow(d.record.writes)
    ensures var s := WriteLine(d, line, cls, accepted);
            && Connected(b, s.driver) && |s.driver.received| == SLOT_COUNT
            && s.result in {Sent, InvalidLine, DeadlineExpired}
            && (exists n: nat :: s.driver.record == Wrote(d.record, Write(line, cls, n)) && (s.result == Sent <==> n == |line|))
            && (forall j: nat :: j != d.active.slot ==> Heard(s.driver.received, j) == Heard(d.received, j))
  {
    hide Refines, GoodWrites, IsSchema, Transmitted;
    if IsValidWireLine(line) {
      var n := if accepted <= |line| then accepted else |line|;
      TransmittedKeepsConnected(b, d, line, cls, n);
      TransmittedRecord(d, d.active.slot, line, cls, n);
    } else {
      InvalidKeepsConnected(b, d, line, cls);
    }
  }

  lemma TransmittedRecord(d: Driver, slot: nat, line: string, cls: MessageClass, n: nat)
    requires n <= |line|
    ensures Transmitted(d, slot, line, cls, n).record == Wrote(d.record, Write(line, cls, n))
  {
  }

  /** It changes nothing of the lifecycle but the state, by a request for teardown. */
  lemma WriteKeepsConserved(d: Driver, line: string, cls: MessageClass, accepted: nat)
    requires Conserved(d) && (d.state.SessionConnected? || d.state.SessionActive?) && !d.teardown
    ensures var r := WriteLine(d, line, cls, accepted);
            && Conserved(r.driver)
            && r.driver.slots == d.slots && r.driver.active == d.active && r.driver.framer == d.framer
            && r.driver.past == d.past && r.driver.replacement == d.replacement
            && r.driver.state == (if r.driver.teardown then SessionClosing else d.state)
            && (r.result == Sent ==> !r.driver.teardown)
  {
    hide IsValidWireLine, Occupied, IsTable, StreakAfter, Heard;
  }

  // ---------------------------------------------------------------------------------------
  // Promotion and teardown.

  /** Just after a connection ended: nothing is bound, at most a replacement is held. */
  ghost predicate Unbinding(b: Registry.Board, d: Driver) {
    && Conserved(d) && d.active == INVALID_CONNECTION && d.transport == None && d.framer == EMPTY
    && d.record == NewRecord(INVALID_CONNECTION) && d.state.Listening? && !d.teardown
    && (IsValidHandle(d.replacement) ==>
          && Resolves(d.slots, d.replacement)
          && Heard(d.received, d.replacement.slot) == "" && Heard(d.sights, d.replacement.slot) == [])
    && GoodPast(b, d)
  }

  /** Just after a peer was accepted: its handle is live, counted, and bound to nothing. */
  ghost predicate Offered(b: Registry.Board, d: Driver, h: ConnectionHandle) {
    && IsTable(d.slots) && Buried(d.slots, d.past) && |d.received| == |d.sights| == SLOT_COUNT && !d.refused
    && d.active == INVALID_CONNECTION && !IsValidHandle(d.replacement) && !d.teardown && d.state.Listening?
    && Resolves(d.slots, h) && Heard(d.received, h.slot) == "" && Heard(d.sights, h.slot) == []
    && Occupied(d.slots) == 1
    && d.counters.sessionsAccepted == d.counters.controllerDisconnects + 1
    && d.hookRuns == d.counters.controllerDisconnects == |d.past|
    && GoodPast(b, d)
  }

  /** A closing connection with nothing held: what a failed promotion leaves. */
  ghost predicate Closing(b: Registry.Board, d: Driver) {
    && Conserved(d) && Connected(b, d) && GoodBook(d.record) && StreakExplains(d.record.writes, EndsByStreak(d))
    && LossExplains(Said(d), d.teardown, d.reason) && IsValidHandle(d.active) && d.teardown && d.state.SessionClosing?
    && GoodPast(b, d)
  }

  lemma FramingGivesInbound(f: Framer, r: Record)
    requires Refines(Framing(f, r))
    ensures GoodInbound(r)
  {
  }

  /** The bound connection's end, with or without a replacement waiting. */
  lemma UnboundIsConserved(b: Registry.Board, d: Driver)
    requires Closing(b, d) && Holding(d)
    ensures Unbinding(b, TransitionTo(Unbound(d).(teardown := false, reason := ExplicitShutdown), Listening))
  {
    hide Buried;
    AbortFrees(d.slots, d.active);
    FramingGivesInbound(d.framer, d.record);
    BuryOneMore(d.slots, d.past, d.record, Heard(d.received, d.active.slot), Said(d), d.reason);
    var e := Unbound(d);
    assert |e.past| == |d.past| + 1;
  }

  lemma BoundIsConnected(b: Registry.Board, d: Driver, h: ConnectionHandle)
    requires Offered(b, d, h)
    ensures Connected(b, Bound(d, h)) && Conserved(Bound(d, h)) && Bound(d, h).state.SessionConnected?
            && !Bound(d, h).teardown
    ensures Bound(d, h).transport.Some? && Bound(d, h).failures == Streak(Sends(Bound(d, h).record.writes))
    ensures GoodPast(b, Bound(d, h))
    ensures Bound(d, h).record.writes == [] && Bound(d, h).past == d.past && !IsValidHandle(Bound(d, h).replacement)
    ensures StreakExplains(Bound(d, h).record.writes, false) && Said(Bound(d, h)) == []
  {
    assert Oversized("") == 0;
  }

  /** With a servable board the schema always exists; promotion either activates the session or ends it. */
  lemma PromoteSettles(b: Registry.Board, d: Driver, h: ConnectionHandle, ps: seq<Promotion>)
    requires MaximumSchemaFits(b) && Offered(b, d, h)
    ensures Settled(b, Promote(b, d, h, ps)) && Promote(b, d, h, ps).record.book == EMPTY_BOOK
  {
    hide WriteLine, SchemaLine, Connected, MaximumSchemaFits, JsonScripts.IsWireText, EndsByStreak, Conserved, GoodBook,
         StreakExplains, IsolatedRecord;
    var p := NextPromotion(ps);
    BoundIsConnected(b, d, h);
    SchemaForPromotion(b, p.timestamp % TWO_64);
    var line := SchemaLine(b, p.timestamp % TWO_64).value;
    var e := Bound(d, h);
    ConnectedIsLive(b, e);
    WriteKeepsConnected(b, e, line, CriticalMessage, p.accepted);
    WriteKeepsConserved(e, line, CriticalMessage, p.accepted);
    WriteExplains(e, line, CriticalMessage, p.accepted);
    CriticalSendIsNoStreak(e, line, p.accepted);
    var s := WriteLine(e, line, CriticalMessage, p.accepted);
    FirstWriteIsBooked(e.record, s.driver.record);
    if s.result != Sent {
      PromotionFailed(b, s.driver, ps);
    } else {
      PromotionSucceeded(b, s.driver);
    }
  }

  /** Whether the schema went out whole. */
  predicate SchemaTaken(b: Registry.Board, p: Promotion) {
    SchemaLine(b, p.timestamp % TWO_64).Some? && p.accepted >= |SchemaLine(b, p.timestamp % TWO_64).value|
  }

  /** The first line on a new connection: taken whole, or its end. */
  lemma FirstWriteDecides(d: Driver, line: string, accepted: nat)
    requires IsValidWireLine(line) && d.transport.Some? && !d.teardown && d.state.SessionConnected?
    ensures var r := WriteLine(d, line, CriticalMessage, accepted);
            && (r.result == Sent <==> accepted >= |line|)
            && (r.result == Sent ==> r.driver.state == d.state && !r.driver.teardown)
            && (r.result != Sent ==> r.driver.teardown && r.driver.state.SessionClosing?)
            && r.driver.active == d.active && r.driver.past == d.past && r.driver.record.handle == d.record.handle
            && r.driver.replacement == d.replacement
  {
    hide IsValidWireLine, CountedAfter, At, Heard;
  }

  lemma LastConnectionEnds(b: Registry.Board, d: Driver, ps: seq<Promotion>)
    requires d.teardown && IsValidHandle(d.active) && !IsValidHandle(d.replacement) && d.state.SessionClosing?
    ensures var e := Apply(b, d, ps);
            && e.state.Listening? && |e.past| == |d.past| + 1 && d.past <= e.past
            && e.past[|d.past|].record == d.record && e.past[|d.past|].reason == d.reason
  {
    hide Aborted, Promote;
  }

  /** A promoted peer is served exactly if its schema went out whole; otherwise its connection has ended for want of it. */
  lemma PromotionBindsIff(b: Registry.Board, d: Driver, h: ConnectionHandle, ps: seq<Promotion>)
    requires MaximumSchemaFits(b) && Offered(b, d, h)
    ensures var e := Promote(b, d, h, ps);
            if SchemaTaken(b, NextPromotion(ps)) then e.state.SessionActive? && e.active == h && e.past == d.past
            else e.state.Listening? && |e.past| == |d.past| + 1 && d.past <= e.past && e.past[|d.past|].record.handle == h
                 && e.past[|d.past|].reason.SchemaSendFailure?
  {
    hide SchemaLine, WriteLine, Apply, MaximumSchemaFits, JsonScripts.IsWireText, Conserved, GoodPast, IsValidWireLine, Resolves;
    var p := NextPromotion(ps);
    SchemaForPromotion(b, p.timestamp % TWO_64);
    OfferedIsValid(b, d, h);
    var e := Bound(d, h);
    var line := SchemaLine(b, p.timestamp % TWO_64).value;
    FirstWriteDecides(e, line, p.accepted);
    LastConnectionEnds(b, ReplaceReason(WriteLine(e, line, CriticalMessage, p.accepted).driver, SchemaSendFailure), LaterPromotions(ps));
  }

  lemma OfferedIsValid(b: Registry.Board, d: Driver, h: ConnectionHandle)
    requires Offered(b, d, h)
    ensures IsValidHandle(h)
  {
    hide Conserved, GoodPast;
  }

  lemma FirstWriteIsBooked(r: Record, q: Record)
    requires r.writes == [] && r.book == EMPTY_BOOK && exists w :: q == Wrote(r, w)
    ensures GoodBook(q)
  {
  }

  lemma CriticalSendIsNoStreak(d: Driver, line: string, accepted: nat)
    requires !d.teardown
    ensures !EndsByStreak(WriteLine(d, line, CriticalMessage, accepted).driver)
  {
    hide IsValidWireLine, CountedAfter, At;
  }

  lemma PromotionFailed(b: Registry.Board, d: Driver, ps: seq<Promotion>)
    requires Conserved(d) && Connected(b, d) && GoodBook(d.record) && GoodPast(b, d) && !IsValidHandle(d.replacement)
    requires d.state == (if d.teardown then SessionClosing else SessionConnected)
    requires StreakExplains(d.record.writes, EndsByStreak(d)) && !EndsByStreak(d)
    ensures Settled(b, Apply(b, ReplaceReason(d, SchemaSendFailure), ps))
    ensures Apply(b, ReplaceReason(d, SchemaSendFailure), ps).record.book == EMPTY_BOOK
  {
    hide GoodWrites, GoodInbound, Connected, Conserved, IsolatedRecord, GoodBook;
    ConnectedIsLive(b, d);
    var f := ReplaceReason(d, SchemaSendFailure);
    FailedIsClosing(b, d);
    UnboundIsConserved(b, f);
    ClosedSettles(b, f, ps);
  }

  lemma FailedIsClosing(b: Registry.Board, d: Driver)
    requires Conserved(d) && Connected(b, d) && GoodBook(d.record) && GoodPast(b, d) && IsValidHandle(d.active)
    requires d.state == (if d.teardown then SessionClosing else SessionConnected)
    requires StreakExplains(d.record.writes, EndsByStreak(d)) && !EndsByStreak(d)
    ensures Closing(b, ReplaceReason(d, SchemaSendFailure))
  {
    hide GoodWrites, GoodBook, Refines;
  }

  /** With no replacement held, the end of a connection leaves the listener idle. */
  lemma ClosedSettles(b: Registry.Board, d: Driver, ps: seq<Promotion>)
    requires d.teardown && !IsValidHandle(d.replacement)
    requires Unbinding(b, TransitionTo(Unbound(d).(teardown := false, reason := ExplicitShutdown), Listening))
    ensures Settled(b, Apply(b, d, ps)) && Apply(b, d, ps).record.book == EMPTY_BOOK
  {
    hide IsolatedRecord, Aborted;
  }

  lemma PromotionSucceeded(b: Registry.Board, d: Driver)
    requires Conserved(d) && Connected(b, d) && GoodBook(d.record) && GoodPast(b, d) && !IsValidHandle(d.replacement)
    requires d.state.SessionConnected? && !d.teardown && !d.framer.acquired && MayFollow(d.record.writes)
    requires StreakExplains(d.record.writes, false) && LossExplains(Said(d), false, d.reason)
    ensures Settled(b, TransitionTo(d.(counters := d.counters.(schemasSent := d.counters.schemasSent + 1)), SessionActive))
  {
    hide GoodWrites, GoodInbound, Refines;
  }

  lemma ConnectedIsLive(b: Registry.Board, d: Driver)
    requires Connected(b, d)
    ensures Resolves(d.slots, d.active) && IsValidHandle(d.active)
  {
  }

  lemma SchemaForPromotion(b: Registry.Board, timestamp: uint64)
    requires MaximumSchemaFits(b)
    ensures SchemaLine(b, timestamp).Some? && IsSchema(b, SchemaLine(b, timestamp).value)
            && SchemaLine(b, timestamp).value != ""
    ensures IsValidWireLine(SchemaLine(b, timestamp).value)
  {
    SealTimeCheckSuffices(b, timestamp);
  }

  lemma UnbindingOffers(b: Registry.Board, d: Driver)
    requires Unbinding(b, d) && IsValidHandle(d.replacement)
    ensures Offered(b, d.(replacement := INVALID_CONNECTION), d.replacement)
  {
  }

  /** Teardown ends the bound connection and promotes the replacement, if one is held. */
  lemma ApplySettles(b: Registry.Board, d: Driver, ps: seq<Promotion>)
    requires MaximumSchemaFits(b) && Sound(b, d) && d.teardown
    ensures Settled(b, Apply(b, d, ps)) && Apply(b, d, ps).record.book == EMPTY_BOOK
  {
    assert Closing(b, d);
    UnboundIsConserved(b, d);
    var e := TransitionTo(Unbound(d).(teardown := false, reason := ExplicitShutdown), Listening);
    if IsValidHandle(e.replacement) {
      UnbindingOffers(b, e);
      PromoteSettles(b, e.(replacement := INVALID_CONNECTION), e.replacement, ps);
    }
  }

  // ---------------------------------------------------------------------------------------
  // Polling and reading.

  lemma FramedSaw(consumed: string, said: seq<Sight>, link: Link)
    requires FramedFrom(consumed, said)
    ensures FramedFrom(consumed, said + [Saw(link)])
  {
    assert (said + [Saw(link)])[..|said|] == said;
  }

  lemma FramedTook(had: string, said: seq<Sight>, bytes: string, k: nat)
    requires FramedFrom(had, said) && k <= |bytes|
    ensures FramedFrom(had + bytes[..k], said + ReadSights(bytes))
  {
    hide FramedFrom;
    FramedSaw(had, said, BytesAvailable);
    FramedOneMore(had, said + [Saw(BytesAvailable)], bytes, k);
    assert said + ReadSights(bytes) == said + [Saw(BytesAvailable)] + [Took(bytes)];
  }

  lemma FramedOneMore(had: string, said: seq<Sight>, bytes: string, k: nat)
    requires FramedFrom(had, said) && k <= |bytes|
    ensures FramedFrom(had + bytes[..k], said + [Took(bytes)])
  {
    assert (said + [Took(bytes)])[..|said|] == said;
  }

  lemma OtherSlot(slots: seq<Slot>, h: ConnectionHandle, g: ConnectionHandle)
    requires Resolves(slots, h) && Resolves(slots, g) && h != g
    ensures h.slot != g.slot
  {
  }

  lemma NotedSaid(d: Driver, more: seq<Sight>, slot: nat)
    requires d.active.slot < |d.sights|
    ensures Heard(Noted(d, more).sights, slot) == if slot == d.active.slot then Said(d) + more else Heard(d.sights, slot)
    ensures |Noted(d, more).sights| == |d.sights|
  {
  }

  /** What is seen of the bound connection is noted, and what follows from it has been done. */
  lemma SeenIsSound(b: Registry.Board, d: Driver, e: Driver, more: seq<Sight>)
    requires Sound(b, d) && IsValidHandle(d.active)
    requires e == Noted(d, more).(teardown := e.teardown, reason := e.reason, state := e.state)
    requires e.state == (if e.teardown then SessionClosing else SessionActive)
    requires d.teardown ==> e.teardown && e.reason == d.reason
    requires FramedFrom(d.record.consumed, Said(d) + more) && LossExplains(Said(d) + more, e.teardown, e.reason)
    requires EndsByStreak(e) == EndsByStreak(d)
    ensures Sound(b, e) && Said(e) == Said(d) + more
  {
    hide GoodBook, GoodWrites, Refines, IsolatedRecord, Sends, Streak, StreakExplains, Buried, Occupied, IsTable, LossExplains,
         FramedFrom, Noted, EndsByStreak;
    SlotsAreThere(b, d);
    NotedSaid(d, more, d.active.slot);
    if IsValidHandle(d.replacement) {
      OtherSlot(d.slots, d.replacement, d.active);
      NotedSaid(d, more, d.replacement.slot);
    }
  }

  lemma SlotsAreThere(b: Registry.Board, d: Driver)
    requires Sound(b, d) && IsValidHandle(d.active)
    ensures d.active.slot < |d.sights| && Resolves(d.slots, d.active)
    ensures d.state == (if d.teardown then SessionClosing else SessionActive)
    ensures FramedFrom(d.record.consumed, Said(d)) && LossExplains(Said(d), d.teardown, d.reason)
    ensures StreakExplains(d.record.writes, EndsByStreak(d)) && Refines(Framing(d.framer, d.record))
  {
    hide GoodBook, GoodWrites, Refines, IsolatedRecord, Sends, Streak, StreakExplains, Buried, Occupied, LossExplains, FramedFrom;
  }

  lemma TakeChunkIsSound(b: Registry.Board, d: Driver, bytes: string)
    requires Sound(b, d) && IsValidHandle(d.active)
    ensures Sound(b, TakeChunk(d, bytes)) && TakeChunk(d, bytes).framer.acquired == d.framer.acquired
  {
    hide MatchesWrites, CriticalOnly, ReadingsSpaced, Scheduling.OfClass, GoodWrites, IsolatedRecord, StreakExplains, Sends,
         Streak, Buried, Occupied, IsTable, FramedFrom, Noted, Feed;
    SlotsAreThere(b, d);
    AppendRefines(Framing(d.framer, d.record), bytes);
    NotedSaid(d, ReadSights(bytes), d.active.slot);
    FramedTook(d.record.consumed, Said(d), bytes, Feed(d.framer, bytes).consumed);
    if IsValidHandle(d.replacement) {
      OtherSlot(d.slots, d.replacement, d.active);
      NotedSaid(d, ReadSights(bytes), d.replacement.slot);
    }
  }

  lemma TeardownIsSound(b: Registry.Board, d: Driver, why: TeardownReason)
    requires Sound(b, d) && IsValidHandle(d.active) && why !in {TelemetryTransmitFailureStreak, ConnectionLost, LinkLost}
    ensures Sound(b, RequestTeardown(d, why)) && RequestTeardown(d, why).teardown
    ensures RequestTeardown(d, why) == d.(teardown := true, reason := RequestTeardown(d, why).reason, state := SessionClosing)
  {
    hide GoodBook, GoodWrites, IsolatedRecord, Sends, Streak, Expiries, Buried, Occupied, IsTable, Refines, FramedFrom;
  }

  /** A lost link or a closed peer asks for teardown; looking at the link does nothing else. */
  lemma LinkLossIsSound(b: Registry.Board, d: Driver, link: Link)
    requires Sound(b, d) && IsValidHandle(d.active)
    ensures Sound(b, LinkLoss(d, link)) && LinkLoss(d, link) == d.(sights := LinkLoss(d, link).sights,
              teardown := LinkLoss(d, link).teardown, reason := LinkLoss(d, link).reason, state := LinkLoss(d, link).state)
    ensures DetectLoss(d, link) == LinkLoss(d, link)
  {
    hide Sound, FramedFrom, Noted, StreakExplains, Refines;
    SlotsAreThere(b, d);
    FramedSaw(d.record.consumed, Said(d), link);
    StreakIsNot(d);
    SeenIsSound(b, d, LinkLoss(d, link), [Saw(link)]);
  }

  lemma StreakIsNot(d: Driver)
    ensures EndsByStreak(d) ==> d.teardown
  {
  }

  lemma NothingReadIsSound(b: Registry.Board, d: Driver)
    requires Sound(b, d) && IsValidHandle(d.active)
    ensures Sound(b, Noted(d, ReadSights("")))
  {
    hide Sound, FramedFrom, Noted, StreakExplains, Refines;
    SlotsAreThere(b, d);
    FramedTook(d.record.consumed, Said(d), "", 0);
    assert d.record.consumed + ""[..0] == d.record.consumed;
    SeenIsSound(b, d, Noted(d, ReadSights("")), ReadSights(""));
  }

  /** The read loop only reads: it frames bytes of the bound connection or asks for teardown. */
  lemma {:induction false} ReadLoopIsSound(b: Registry.Board, d: Driver, events: seq<ReadEvent>)
    requires Sound(b, d) && IsValidHandle(d.active)
    ensures var e := ReadLoop(d, events);
            && Sound(b, e) && e.active == d.active && e.framer.acquired == d.framer.acquired
            && e.record == d.record.(consumed := e.record.consumed)
            && (e.teardown ==> d.teardown || !HasLine(e.framer))
    decreases |events|
  {
    hide Sound, LinkLoss, DetectLoss;
    if !HasLine(d.framer) && events != [] {
      match events[0]
      case LinkIs(link) => LinkLossIsSound(b, d, link);
      case NothingRead(link) =>
        NothingReadIsSound(b, d);
        LinkLossIsSound(b, Noted(d, ReadSights("")), link);
      case Chunk(bytes) =>
        TakeChunkIsSound(b, d, bytes);
        ReadLoopIsSound(b, TakeChunk(d, bytes), events[1..]);
    }
  }

  lemma LossKeepsRecord(d: Driver, link: Link)
    ensures DetectLoss(d, link).past == d.past && DetectLoss(d, link).record == d.record
    ensures LinkLoss(d, link).past == d.past && LinkLoss(d, link).record == d.record
  {
    hide Resolves, Noted;
  }

  /** All the bytes that the read loop took from the transport. */
  function BytesRead(d: Driver, events: seq<ReadEvent>): string
    decreases |events|
  {
    if HasLine(d.framer) || events == [] || !events[0].Chunk? then ""
    else events[0].bytes + BytesRead(TakeChunk(d, events[0].bytes), events[1..])
  }

  lemma LastOfRead(a: string, b: string, c: string)
    requires b + c != ""
    ensures a + (b + c)[..|b + c| - 1] == if c == "" then a + b[..|b| - 1] else (a + b) + c[..|c| - 1]
    ensures (a + b) + c == a + (b + c)
  {
    if c == "" {
      assert b + c == b;
    } else {
      assert (b + c)[..|b + c| - 1] == b + c[..|c| - 1];
    }
  }

  /**
   The read loop does not look at how much of a chunk the framer took. It loses nothing it read
   exactly when fewer than two lines end before the last byte it read; what it loses is the end.
   */
  lemma {:induction false} ReadLoopLosesNothingIff(d: Driver, events: seq<ReadEvent>)
    requires Refines(Framing(d.framer, d.record)) && d.framer.active.None?
    ensures var e, read, had := ReadLoop(d, events), BytesRead(d, events), d.record.consumed;
            && e.record.consumed <= had + read
            && (e.record.consumed == had + read <==> read == "" || |Kept(had + read[..|read| - 1])| < |Kept(had)| + 2)
    decreases |events|
  {
    hide Refines, Kept, Feed, TakeChunk, Append, Noted, Resolves, LinkLoss, DetectLoss;
    assert d.record.consumed + "" == d.record.consumed;
    if events != [] && !events[0].Chunk? {
      LossKeepsRecord(d, events[0].link);
      LossKeepsRecord(Noted(d, ReadSights("")), events[0].link);
    }
    if events != [] && events[0].Chunk? {
      var bytes := events[0].bytes;
      var t, rest, s := TakeChunk(d, bytes), BytesRead(TakeChunk(d, bytes), events[1..]), Framing(d.framer, d.record);
      ChunkIsAppended(d, bytes);
      if bytes != "" {
        WholeChunkIsTakenIff(s, bytes);
      }
      if bytes + rest != "" {
        LastOfRead(d.record.consumed, bytes, rest);
      }
      if !HasLine(t.framer) {
        NoLineTakesAll(s, bytes);
        ReadLoopLosesNothingIff(t, events[1..]);
      }
    }
  }

  lemma PartTaken(had: string, bytes: string, n: nat)
    requires n <= |bytes|
    ensures had + bytes[..n] <= had + bytes && (had + bytes[..n] == had + bytes <==> n == |bytes|)
  {
    assert had + bytes == (had + bytes[..n]) + bytes[n..];
  }

  lemma ChunkIsAppended(d: Driver, bytes: string)
    requires Refines(Framing(d.framer, d.record)) && d.framer.active.None?
    ensures var t, r := TakeChunk(d, bytes), Feed(d.framer, bytes);
            && Framing(t.framer, t.record) == Append(Framing(d.framer, d.record), bytes)
            && Refines(Framing(t.framer, t.record))
            && t.record.consumed <= d.record.consumed + bytes
            && (t.record.consumed == d.record.consumed + bytes <==> r.consumed == |bytes|)
            && (HasLine(t.framer) <==> t.framer.active.Some?)
  {
    hide Refines, Oversized, Feed;
    var s := Framing(d.framer, d.record);
    AppendRefines(s, bytes);
    RefinesCounts(s);
    RefinesCounts(Append(s, bytes));
    PartTaken(d.record.consumed, bytes, Feed(d.framer, bytes).consumed);
  }

  /** Of three empty lines read at once on a new connection the third is lost, whatever is read after. */
  lemma ThreeLinesInOneReadLoseTheThird(d: Driver, later: seq<ReadEvent>)
    requires d.framer == EMPTY && d.record.consumed == ""
    ensures var e := ReadLoop(d, [Chunk("\n\n\n")] + later);
            e.record.consumed == "\n\n" && |Kept(e.record.consumed)| == 2 && |Kept("\n\n\n")| == 3
  {
    hide Feed, Kept;
    ThreeNewlines();
    ThreeNewlinesFed();
    var events := [Chunk("\n\n\n")] + later;
    var t := TakeChunk(d, events[0].bytes);
    assert "" + "\n\n\n"[..2] == "\n\n";
    assert ReadLoop(d, events) == ReadLoop(t, events[1..]) == t;
  }

  lemma AcceptReplacementIsSound(b: Registry.Board, d: Driver, a: PollAnswers)
    requires Settled(b, d) && IsValidHandle(d.active) && IsPending(d, a)
    ensures var e := AcceptReplacement(d, a);
            Sound(b, e) && IsValidHandle(e.active) && !e.framer.acquired && e.record == d.record && e.active == d.active
  {
    hide Buried, GoodWrites, GoodBook, Refines, IsolatedRecord, Sends, Streak, Expiries;
    if a.clientStays {
      AcceptOccupies(d.slots);
      AcceptingKeepsBuried(d.slots, d.past);
    }
  }

  lemma PumpListeningSettles(b: Registry.Board, d: Driver, a: PollAnswers)
    requires MaximumSchemaFits(b) && Settled(b, d) && d.state.Listening?
    ensures Settled(b, PumpListening(b, d, a)) && PumpListening(b, d, a).record.book == EMPTY_BOOK
  {
    hide Buried, Promote;
    if IsPending(d, a) && a.clientStays {
      AcceptOccupies(d.slots);
      AcceptingKeepsBuried(d.slots, d.past);
      var h, e := AcceptHandle(d, a), AcceptNext(d, a);
      assert Offered(b, CountAccepted(e), h);
      PromoteSettles(b, CountAccepted(e), h, a.promotions);
    }
  }

  /** A poll from a settled state leaves a sound one; a session it did not tear down may still be written to. */
  lemma PollIsSound(b: Registry.Board, d: Driver, a: PollAnswers)
    requires MaximumSchemaFits(b) && Settled(b, d)
    ensures var e := Poll(b, d, a);
            && Sound(b, e) && !e.framer.acquired && (IsValidHandle(e.active) ==> MayFollow(e.record.writes))
            && e.record.book == d.record.book
  {
    hide GoodWrites, GoodBook, Refines, IsolatedRecord, PumpListening, AcceptReplacement, ReadLoop, DetectLoss,
         LinkLoss, Occupied, IsTable, IsPending;
    match d.state
    case Listening => PumpListeningSettles(b, d, a);
    case SessionActive =>
      if IsPending(d, a) {
        AcceptReplacementIsSound(b, d, a);
      } else {
        LinkLossIsSound(b, d, a.link);
        ReadLoopIsSound(b, DetectLoss(d, a.link), a.events);
      }
    case _ =>
  }

  lemma NextLineIsSound(b: Registry.Board, d: Driver, events: seq<ReadEvent>)
    requires Sound(b, d) && !d.framer.acquired && (IsValidHandle(d.active) ==> MayFollow(d.record.writes))
    ensures var e := AfterNextLine(d, events);
            && Sound(b, e) && (IsValidHandle(e.active) ==> MayFollow(e.record.writes)) && e.active == d.active
            && (NextLine(d, events).Some? <==> e.framer.acquired)
            && (e.framer.acquired ==> !e.teardown && IsActive(e))
            && e.record == d.record.(consumed := e.record.consumed, delivered := e.record.delivered)
  {
    hide MatchesWrites, CriticalOnly, ReadingsSpaced, Scheduling.OfClass, GoodWrites, IsolatedRecord, StreakExplains, Sends,
         Streak, Buried, Occupied, IsTable;
    if IsActive(d) && !d.teardown {
      var e := if HasLine(d.framer) then d else ReadAvailable(d, events);
      if !HasLine(d.framer) {
        ReadLoopIsSound(b, d, events);
      }
      if HasLine(e.framer) {
        AcquireRefines(Framing(e.framer, e.record));
      }
    }
  }

  lemma ReleaseIsSound(b: Registry.Board, d: Driver)
    requires Sound(b, d)
    ensures Sound(b, ReleaseActiveLine(d)) && !ReleaseActiveLine(d).framer.acquired
  {
    hide GoodBook, GoodWrites, IsolatedRecord, StreakExplains, Sends, Streak, Buried, Occupied, IsTable;
    if IsValidHandle(d.active) {
      ReleaseRefines(Framing(d.framer, d.record));
    }
  }

  // ---------------------------------------------------------------------------------------
  // What the lifecycle never rewrites.

  /** The counters that the lifecycle and the writer move; it never touches the others. */
  predicate OnlyLifecycle(c: Values, e: Values) {
    e == c.(sessionsAccepted := e.sessionsAccepted, sessionsRejected := e.sessionsRejected, sessionsSuperseded := e.sessionsSuperseded,
            schemasSent := e.schemasSent, oversizedLines := e.oversizedLines, telemetryDropped := e.telemetryDropped,
            txFailures := e.txFailures, controllerDisconnects := e.controllerDisconnects)
  }

  /** Nor does it rewrite what is known of ended connections. */
  predicate KeepsHistory(d: Driver, e: Driver) {
    OnlyLifecycle(d.counters, e.counters) && d.past <= e.past
  }

  lemma WriteKeepsHistory(d: Driver, line: string, cls: MessageClass, accepted: nat)
    ensures KeepsHistory(d, WriteLine(d, line, cls, accepted).driver)
  {
    hide IsValidWireLine, At, Heard, StreakAfter, TeardownAfter, TeardownIfAny, OnlyLifecycle, CountedAfter;
    CountingIsLifecycle(d.counters, cls);
  }

  lemma CountingIsLifecycle(c: Values, cls: MessageClass)
    ensures OnlyLifecycle(c, c) && forall complete :: OnlyLifecycle(c, CountedAfter(c, cls, complete))
  {
  }

  lemma PromoteKeepsHistory(b: Registry.Board, d: Driver, h: ConnectionHandle, ps: seq<Promotion>)
    ensures KeepsHistory(d, Promote(b, d, h, ps))
    decreases Held(d), 1
  {
    hide WriteLine, SchemaLine, Apply;
    if Resolves(d.slots, h) {
      var p := NextPromotion(ps);
      var e := Bound(d, h);
      match SchemaLine(b, p.timestamp % TWO_64)
      case None => ApplyKeepsHistory(b, RequestTeardown(e, SchemaSendFailure), LaterPromotions(ps));
      case Some(line) =>
        WriteKeepsHistory(e, line, CriticalMessage, p.accepted);
        var s := WriteLine(e, line, CriticalMessage, p.accepted);
        ApplyKeepsHistory(b, ReplaceReason(s.driver, SchemaSendFailure), LaterPromotions(ps));
    }
  }

  lemma ApplyKeepsHistory(b: Registry.Board, d: Driver, ps: seq<Promotion>)
    ensures KeepsHistory(d, Apply(b, d, ps))
    decreases Held(d), 0
  {
    hide Promote;
    if d.teardown {
      var e := TransitionTo(Unbound(d).(teardown := false, reason := ExplicitShutdown), Listening);
      if IsValidHandle(e.replacement) {
        PromoteKeepsHistory(b, e.(replacement := INVALID_CONNECTION), e.replacement, ps);
      }
    }
  }

  lemma HistoryStays(d: Driver)
    ensures KeepsHistory(d, d)
  {
  }

  lemma HistoryChains(d: Driver, e: Driver, f: Driver)
    requires KeepsHistory(d, e) && KeepsHistory(e, f)
    ensures KeepsHistory(d, f)
  {
  }

  lemma LossKeepsHistory(d: Driver, link: Link)
    ensures KeepsHistory(d, DetectLoss(d, link)) && KeepsHistory(d, LinkLoss(d, link))
  {
    hide Resolves, Noted;
  }

  lemma ChunkKeepsHistory(d: Driver, bytes: string)
    ensures KeepsHistory(d, TakeChunk(d, bytes)) && KeepsHistory(d, Noted(d, ReadSights(bytes)))
  {
    hide Feed, At;
  }

  lemma {:induction false} ReadKeepsHistory(d: Driver, events: seq<ReadEvent>)
    ensures KeepsHistory(d, ReadLoop(d, events))
    decreases |events|
  {
    hide KeepsHistory, LinkLoss, DetectLoss, TakeChunk, Noted;
    HistoryStays(d);
    if !HasLine(d.framer) && events != [] {
      match events[0]
      case LinkIs(link) => LossKeepsHistory(d, link);
      case NothingRead(link) =>
        var e := Noted(d, ReadSights(""));
        ChunkKeepsHistory(d, "");
        LossKeepsHistory(e, link);
        HistoryChains(d, e, DetectLoss(e, link));
      case Chunk(bytes) =>
        ChunkKeepsHistory(d, bytes);
        ReadKeepsHistory(TakeChunk(d, bytes), events[1..]);
        HistoryChains(d, TakeChunk(d, bytes), ReadLoop(d, events));
    }
  }

  lemma ListeningKeepsHistory(b: Registry.Board, d: Driver, a: PollAnswers)
    ensures KeepsHistory(d, PumpListening(b, d, a))
  {
    hide Promote, Resolves, Accepted, FirstReusable;
    PromoteKeepsHistory(b, CountAccepted(AcceptNext(d, a)), AcceptHandle(d, a), a.promotions);
  }

  lemma AcceptingKeepsHistory(d: Driver, a: PollAnswers)
    ensures KeepsHistory(d, AcceptReplacement(d, a))
  {
    hide Resolves, Accepted, Issued, IsValidHandle, At;
  }

  lemma SessionKeepsHistory(d: Driver, a: PollAnswers)
    ensures KeepsHistory(d, PollSession(d, a))
  {
    hide ReadLoop, Resolves, IsPending, AcceptReplacement, DetectLoss, RequestTeardown, OnlyLifecycle;
    AcceptingKeepsHistory(d, a);
    LossKeepsHistory(d, a.link);
    var e := DetectLoss(d, a.link);
    ReadKeepsHistory(e, a.events);
    LostKeepsHistory(e);
    HistoryChains(d, e, ReadLoop(e, a.events));
    HistoryChains(d, e, RequestTeardown(e, ConnectionLost));
  }

  lemma LostKeepsHistory(d: Driver)
    ensures KeepsHistory(d, RequestTeardown(d, ConnectionLost))
  {
  }

  lemma PollKeepsHistory(b: Registry.Board, d: Driver, a: PollAnswers)
    ensures KeepsHistory(d, Poll(b, d, a))
  {
    hide PumpListening, PollSession;
    ListeningKeepsHistory(b, d, a);
    SessionKeepsHistory(d, a);
  }

  lemma LineKeepsHistory(d: Driver, events: seq<ReadEvent>)
    ensures KeepsHistory(d, AfterNextLine(d, events))
  {
    ReadKeepsHistory(d, events);
  }

  // ---------------------------------------------------------------------------------------
  // What the peers of all connections were sent, by kind, and when telemetry was attempted on them.

  /** The lines of one kind among the entries drained that were written whole; the first write is the schema. */
  function LinesSent(kind: Scheduling.Kind, ws: seq<Write>, drained: seq<Scheduling.Entry>): seq<string> {
    if drained == [] then []
    else
      var n := |drained| - 1;
      LinesSent(kind, ws, drained[..n]) +
        if drained[n].kind == kind && n + 1 < |ws| && IsComplete(ws[n + 1]) then [drained[n].line] else []
  }

  /** The telemetry lines among the entries drained. */
  function FramesDrained(drained: seq<Scheduling.Entry>): seq<string> {
    if drained == [] then []
    else
      var n := |drained| - 1;
      FramesDrained(drained[..n]) + if drained[n].kind.Telemetry? then [drained[n].line] else []
  }

  function PastLines(kind: Scheduling.Kind, past: seq<Ended>): seq<string> {
    if past == [] then []
    else
      var r := past[|past| - 1].record;
      PastLines(kind, past[..|past| - 1]) + LinesSent(kind, r.writes, r.book.drained)
  }

  function PastFrames(past: seq<Ended>): seq<string> {
    if past == [] then [] else PastFrames(past[..|past| - 1]) + FramesDrained(past[|past| - 1].record.book.drained)
  }

  function PastAttempts(past: seq<Ended>): seq<nat> {
    if past == [] then [] else PastAttempts(past[..|past| - 1]) + past[|past| - 1].record.book.attempts
  }

  /** On the connections that ended, in the order they ended, and then on the one that is bound. */
  function AllLines(kind: Scheduling.Kind, past: seq<Ended>, ws: seq<Write>, drained: seq<Scheduling.Entry>): seq<string> {
    PastLines(kind, past) + LinesSent(kind, ws, drained)
  }

  function AllFrames(past: seq<Ended>, drained: seq<Scheduling.Entry>): seq<string> {
    PastFrames(past) + FramesDrained(drained)
  }

  function AllAttempts(past: seq<Ended>, attempts: seq<nat>): seq<nat> {
    PastAttempts(past) + attempts
  }

  /** Neither the lines sent, nor the frames drained, nor the attempts have changed. */
  predicate SameHeard(d: Driver, e: Driver) {
    && (forall kind :: AllLines(kind, d.past, d.record.writes, d.record.book.drained)
                    == AllLines(kind, e.past, e.record.writes, e.record.book.drained))
    && AllFrames(d.past, d.record.book.drained) == AllFrames(e.past, e.record.book.drained)
    && AllAttempts(d.past, d.record.book.attempts) == AllAttempts(e.past, e.record.book.attempts)
  }

  lemma {:induction false} LaterWriteIsNotDrained(kind: Scheduling.Kind, ws: seq<Write>, w: Write, drained: seq<Scheduling.Entry>)
    requires drained == [] || |drained| < |ws|
    ensures LinesSent(kind, ws + [w], drained) == LinesSent(kind, ws, drained)
    decreases |drained|
  {
    if drained != [] {
      LaterWriteIsNotDrained(kind, ws, w, drained[..|drained| - 1]);
    }
  }

  /** A line written and noted as drained is one more sent of its kind if it was written whole. */
  lemma OneMoreSent(kind: Scheduling.Kind, past: seq<Ended>, ws: seq<Write>, w: Write, drained: seq<Scheduling.Entry>, e: Scheduling.Entry)
    requires |ws| == |drained| + 1
    ensures AllLines(kind, past, ws + [w], drained + [e]) ==
              AllLines(kind, past, ws, drained) + if e.kind == kind && IsComplete(w) then [e.line] else []
  {
    var n := |drained|;
    assert (drained + [e])[..n] == drained && (ws + [w])[n + 1] == w;
    LaterWriteIsNotDrained(kind, ws, w, drained);
    Assoc(PastLines(kind, past), LinesSent(kind, ws, drained), if e.kind == kind && IsComplete(w) then [e.line] else []);
  }

  lemma OneMoreFrame(past: seq<Ended>, drained: seq<Scheduling.Entry>, e: Scheduling.Entry)
    ensures AllFrames(past, drained + [e]) == AllFrames(past, drained) + if e.kind.Telemetry? then [e.line] else []
  {
    assert (drained + [e])[..|drained|] == drained;
    Assoc(PastFrames(past), FramesDrained(drained), if e.kind.Telemetry? then [e.line] else []);
  }

  lemma BuriedIsHeard(past: seq<Ended>, last: Ended)
    ensures forall kind :: AllLines(kind, past + [last], [], []) == AllLines(kind, past, last.record.writes, last.record.book.drained)
    ensures AllFrames(past + [last], []) == AllFrames(past, last.record.book.drained)
    ensures AllAttempts(past + [last], []) == AllAttempts(past, last.record.book.attempts)
  {
    hide LinesSent, FramesDrained;
    assert (past + [last])[..|past|] == past;
    NothingSent([]);
    forall kind
      ensures AllLines(kind, past + [last], [], []) == AllLines(kind, past, last.record.writes, last.record.book.drained)
    {
      assert PastLines(kind, past + [last]) == PastLines(kind, past) + LinesSent(kind, last.record.writes, last.record.book.drained);
    }
  }

  lemma NothingSent(ws: seq<Write>)
    ensures (forall kind :: LinesSent(kind, ws, []) == []) && FramesDrained([]) == []
  {
  }

  lemma WrittenIsNotDrained(d: Driver, w: Write)
    requires d.record.book.drained == [] || |d.record.book.drained| < |d.record.writes|
    ensures SameHeard(d, d.(record := Wrote(d.record, w)))
  {
    hide LinesSent, FramesDrained, PastLines, PastFrames, PastAttempts;
    forall kind
      ensures AllLines(kind, d.past, d.record.writes + [w], d.record.book.drained)
           == AllLines(kind, d.past, d.record.writes, d.record.book.drained)
    {
      LaterWriteIsNotDrained(kind, d.record.writes, w, d.record.book.drained);
    }
  }

  /** Of the history only the writes change. */
  lemma WriteOnlyWrites(d: Driver, line: string, cls: MessageClass, accepted: nat)
    ensures var e := WriteLine(d, line, cls, accepted).driver;
            e.past == d.past && (e.record == d.record || exists w :: e.record == Wrote(d.record, w))
  {
    hide IsValidWireLine, StreakAfter, CountedAfter, At, TeardownAfter;
  }

  lemma WriteKeepsHeard(d: Driver, line: string, cls: MessageClass, accepted: nat)
    requires d.record.book.drained == [] || |d.record.book.drained| < |d.record.writes|
    ensures SameHeard(d, WriteLine(d, line, cls, accepted).driver)
  {
    hide WriteLine, AllLines, AllFrames, AllAttempts;
    WriteOnlyWrites(d, line, cls, accepted);
    var e := WriteLine(d, line, cls, accepted).driver;
    if e.record != d.record {
      var w :| e.record == Wrote(d.record, w);
      WrittenIsNotDrained(d, w);
    }
  }

  lemma UnboundKeepsHeard(d: Driver)
    ensures SameHeard(d, Unbound(d)) && (IsValidHandle(d.active) ==> Unbound(d).record.book == EMPTY_BOOK)
  {
    hide AllLines, AllFrames, AllAttempts, Aborted;
    BuriedIsHeard(d.past, Ended(d.record, Heard(d.received, d.active.slot), Said(d), d.reason));
  }

  lemma BoundKeepsHeard(d: Driver, h: ConnectionHandle)
    requires d.record.book == EMPTY_BOOK
    ensures SameHeard(d, Bound(d, h)) && Bound(d, h).record.book == EMPTY_BOOK && Bound(d, h).record.writes == []
  {
    hide LinesSent, FramesDrained, PastLines, PastFrames, PastAttempts;
    NothingSent(d.record.writes);
    NothingSent([]);
  }

  lemma PromoteKeepsHeard(b: Registry.Board, d: Driver, h: ConnectionHandle, ps: seq<Promotion>)
    requires d.record.book == EMPTY_BOOK
    ensures SameHeard(d, Promote(b, d, h, ps))
    decreases Held(d), 1
  {
    hide WriteLine, SchemaLine, Apply, AllLines, AllFrames, AllAttempts;
    if Resolves(d.slots, h) {
      var p := NextPromotion(ps);
      var e := Bound(d, h);
      BoundKeepsHeard(d, h);
      match SchemaLine(b, p.timestamp % TWO_64)
      case None => ApplyKeepsHeard(b, RequestTeardown(e, SchemaSendFailure), LaterPromotions(ps));
      case Some(line) =>
        WriteKeepsHeard(e, line, CriticalMessage, p.accepted);
        var s := WriteLine(e, line, CriticalMessage, p.accepted);
        ApplyKeepsHeard(b, ReplaceReason(s.driver, SchemaSendFailure), LaterPromotions(ps));
    }
  }

  lemma ApplyKeepsHeard(b: Registry.Board, d: Driver, ps: seq<Promotion>)
    requires IsValidHandle(d.active) || d.record.book == EMPTY_BOOK
    ensures SameHeard(d, Apply(b, d, ps))
    decreases Held(d), 0
  {
    hide Promote, Unbound, AllLines, AllFrames, AllAttempts;
    if d.teardown {
      UnboundKeepsHeard(d);
      UnboundKeepsTheRest(d);
      var e := TransitionTo(Unbound(d).(teardown := false, reason := ExplicitShutdown), Listening);
      if IsValidHandle(e.replacement) {
        PromoteKeepsHeard(b, e.(replacement := INVALID_CONNECTION), e.replacement, ps);
      }
    }
  }

  lemma UnboundKeepsTheRest(d: Driver)
    ensures Held(Unbound(d)) == Held(d) && (!IsValidHandle(d.active) ==> Unbound(d).record == d.record)
  {
  }

  lemma {:induction false} ReadingKeepsRecord(d: Driver, events: seq<ReadEvent>)
    ensures var e := ReadLoop(d, events);
            e.past == d.past && e.record.writes == d.record.writes && e.record.book == d.record.book
    decreases |events|
  {
    hide Noted, Resolves, RequestTeardown, Feed;
    if !HasLine(d.framer) && events != [] && events[0].Chunk? {
      ReadingKeepsRecord(TakeChunk(d, events[0].bytes), events[1..]);
    }
  }

  lemma ListeningKeepsHeard(b: Registry.Board, d: Driver, a: PollAnswers)
    requires d.record.book == EMPTY_BOOK
    ensures SameHeard(d, PumpListening(b, d, a))
  {
    hide AllLines, AllFrames, AllAttempts, Promote, Resolves, Accepted, FirstReusable;
    PromoteKeepsHeard(b, CountAccepted(AcceptNext(d, a)), AcceptHandle(d, a), a.promotions);
  }

  lemma AcceptingKeepsRecord(d: Driver, a: PollAnswers)
    ensures AcceptReplacement(d, a).past == d.past && AcceptReplacement(d, a).record == d.record
  {
    hide Resolves, Accepted, Issued, IsValidHandle, At;
  }

  lemma SessionKeepsHeard(d: Driver, a: PollAnswers)
    ensures SameHeard(d, PollSession(d, a))
  {
    hide AllLines, AllFrames, AllAttempts, ReadLoop, Resolves, IsPending, AcceptReplacement, DetectLoss, RequestTeardown;
    AcceptingKeepsRecord(d, a);
    LossKeepsRecord(d, a.link);
    ReadingKeepsRecord(DetectLoss(d, a.link), a.events);
  }

  lemma PollKeepsHeard(b: Registry.Board, d: Driver, a: PollAnswers)
    requires d.state.Listening? ==> d.record.book == EMPTY_BOOK
    ensures SameHeard(d, Poll(b, d, a))
  {
    hide AllLines, AllFrames, AllAttempts, PumpListening, PollSession;
    if d.state.Listening? {
      ListeningKeepsHeard(b, d, a);
    }
    SessionKeepsHeard(d, a);
  }

  lemma LineKeepsHeard(d: Driver, events: seq<ReadEvent>)
    ensures SameHeard(d, AfterNextLine(d, events))
  {
    hide AllLines, AllFrames, AllAttempts;
    ReadingKeepsRecord(d, events);
  }
}
