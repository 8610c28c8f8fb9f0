/**
 What every call of `service()` keeps. The predicates here hold of the loop between its stages; one
 lemma per stage says how the stage moves them.
 */
module ServiceInvariant {
  import opened Common
  import opened CounterBank
  import opened Connections
  import opened LineFraming
  import opened OutboundWriting
  import opened Scheduling
  import opened EventLines
  import opened EstopHandling
  import opened TelemetryScheduling
  import opened Sessions
  import opened Serving
  import opened Applications
  import Registry
  import Payloads
  import Schema
  import Limits

  // ---------------------------------------------------------------------------------------
  // The queue against the connection's book.

  /** How many e-stop acknowledgements wait. */
  function Acks(entries: seq<Entry>): nat {
    if entries == [] then 0
    else Acks(entries[..|entries| - 1]) + if entries[|entries| - 1].kind.EstopAck? then 1 else 0
  }

  lemma {:induction false} AcksConcat(a: seq<Entry>, b: seq<Entry>)
    ensures Acks(a + b) == Acks(a) + Acks(b)
  {
    if b == [] {
      assert a + b == a;
    } else {
      AcksConcat(a, b[..|b| - 1]);
      assert (a + b)[..|a + b| - 1] == a + b[..|b| - 1];
    }
  }

  lemma AcksOne(e: Entry)
    ensures Acks([e]) == if e.kind.EstopAck? then 1 else 0
  {
    assert [e][..0] == [];
  }

  lemma AcksAppend(entries: seq<Entry>, e: Entry)
    ensures Acks(entries + [e]) == Acks(entries) + if e.kind.EstopAck? then 1 else 0
  {
    AcksConcat(entries, [e]);
    AcksOne(e);
  }

  lemma AcksWithout(entries: seq<Entry>, i: nat)
    requires i < |entries|
    ensures Acks(entries) == Acks(Without(entries, i)) + if entries[i].kind.EstopAck? then 1 else 0
  {
    hide Acks;
    var a, e, b := entries[..i], entries[i], entries[i + 1..];
    assert entries == a + ([e] + b);
    AcksConcat(a, [e] + b);
    AcksConcat([e], b);
    AcksConcat(a, b);
    AcksOne(e);
  }

  predicate NoEmptyLine(q: Queue) {
    (forall i :: 0 <= i < |q.critical| ==> q.critical[i].line != "") && q.telemetry != Some("")
  }

  /** The book of a connection against the queue it is served from. `slack` is what the queue may hold beyond the events. */
  ghost predicate OpenBook(r: Record, q: Queue, slack: nat) {
    && MatchesWrites(r.writes, r.book.drained) && NoEmptyLine(q)
    && Fifo(r.book.queued, CriticalOnly(r.book.drained), q.critical)
    && (forall i :: 0 <= i < |r.book.drained| && r.book.drained[i].kind.Telemetry? ==> r.book.drained[i].line in r.book.frames)
    && (q.telemetry.Some? ==> q.telemetry.value in r.book.frames)
    && r.book.acks + Acks(q.critical) <= r.book.safe
    && |q.critical| <= slack + r.book.triggers
    && (r.book.saturated ==> r.book.triggers > CAPACITY - 1)
    && ReadingsSpaced(r.book.attempts)
  }

  lemma OpenBookIsGood(r: Record, q: Queue, slack: nat)
    requires OpenBook(r, q, slack)
    ensures GoodBook(r)
  {
    forall p ensures OfClass(CriticalOnly(r.book.drained), p) <= OfClass(r.book.queued, p) {
      assert OfClass(r.book.queued, p) == OfClass(CriticalOnly(r.book.drained), p) + OfClass(q.critical, p);
    }
  }

  lemma OpenBookMatches(r: Record, q: Queue, slack: nat)
    requires OpenBook(r, q, slack)
    ensures MatchesWrites(r.writes, r.book.drained)
  {
  }

  /** A book depends on the writes, on itself and on the lines waiting. */
  lemma OpenBookOfSame(r: Record, q: Queue, slack: nat, r': Record, q': Queue, slack': nat)
    requires OpenBook(r, q, slack) && slack <= slack'
    requires r'.book == r.book && MatchesWrites(r'.writes, r'.book.drained)
    requires q'.critical == q.critical && q'.telemetry == q.telemetry
    ensures OpenBook(r', q', slack')
  {
    hide Fifo, MatchesWrites, CriticalOnly;
  }

  // ---------------------------------------------------------------------------------------
  // The ledger of the whole boot.

  predicate IsPendingAlarm(p: Pending, a: Alarm) {
    !p.NothingPending? && p.reason == a.reason && p.timestamp == a.timestamp
  }

  /** The e-stop events sent are the requested ones, unchanged and in order; at most the last is still to be sent. */
  ghost predicate Lossless(boardId: cstring, l: Ledger, p: Pending) {
    && |l.requested| == |l.confirmed| + (if p.NothingPending? then 0 else 1)
    && (!p.NothingPending? ==> IsPendingAlarm(p, l.requested[|l.confirmed|]))
    && (forall i :: 0 <= i < |l.requested| ==> |l.requested[i].reason| <= Limits.ESTOP_REASON_MAX_BYTES)
    && forall i :: 0 <= i < |l.confirmed| ==>
         TriggeredLine(boardId, l.requested[i].timestamp, l.requested[i].reason) == Some(l.confirmed[i])
  }

  /** The line is a telemetry frame with this number, around what a provider left in its payload. */
  ghost predicate IsFrame(boardId: cstring, n: nat, line: string) {
    exists timestamp: uint64, uses: Payloads.script ::
      TelemetryLine(n % TWO_64, timestamp, boardId, Payloads.Closed(Payloads.Filled(uses)).w.text) == Some(line)
  }

  predicate Increasing(hs: seq<Numbered>) {
    forall i, j :: 0 <= i < j < |hs| ==> hs[i].number < hs[j].number
  }

  function InSlot(q: Queue): nat {
    if q.telemetry.Some? then 1 else 0
  }

  /** Every frame ever numbered has exactly one fate, and the numbers handed over only grow. */
  ghost predicate FramesAccounted(boardId: cstring, l: Ledger, c: Values, q: Queue, nextSeq: nat) {
    && nextSeq == 1 + c.telemetrySent + c.telemetryCoalesced + l.failed + l.canceled + InSlot(q)
    && Increasing(l.handed)
    && (q.telemetry.Some? ==> l.pendingSeq < nextSeq && IsFrame(boardId, l.pendingSeq, q.telemetry.value))
    && (forall i :: 0 <= i < |l.handed| ==>
          && l.handed[i].number < (if q.telemetry.Some? then l.pendingSeq else nextSeq)
          && IsFrame(boardId, l.handed[i].number, l.handed[i].line))
  }

  function LinesOf(hs: seq<Numbered>): seq<string> {
    seq(|hs|, i requires 0 <= i < |hs| => hs[i].line)
  }

  /** The lines of one kind wholly sent, over all connections. */
  function SentLines(kind: Kind, d: Driver): seq<string> {
    AllLines(kind, d.past, d.record.writes, d.record.book.drained)
  }

  /** Ledger and counters know of what went out on the connections, in order, and of nothing else. */
  ghost predicate InTune(l: Ledger, d: Driver) {
    && l.confirmed == SentLines(EstopTriggered, d)
    && LinesOf(l.handed) == AllFrames(d.past, d.record.book.drained)
    && l.attempts == AllAttempts(d.past, d.record.book.attempts)
    && d.counters.estopAckSent == |SentLines(EstopAck, d)| && d.counters.heartbeatAckSent == |SentLines(HeartbeatAck, d)|
    && d.counters.telemetrySent == |SentLines(Telemetry, d)|
  }

  ghost predicate Balanced(boardId: cstring, s: Server) {
    && InTune(s.ledger, s.driver)
    && Lossless(boardId, s.ledger, s.estop)
    && s.driver.counters.estopAckSent + Acks(s.queue.critical) <= s.ledger.safeReturns
    && FramesAccounted(boardId, s.ledger, s.driver.counters, s.queue, s.cadence.nextSeq)
  }

  // ---------------------------------------------------------------------------------------
  // The invariant.

  ghost predicate CanServe(b: Registry.Board) {
    Schema.MaximumSchemaFits(b) && |b.identity.boardId| <= Limits.MAX_BOARD_ID_BYTES
  }

  /** The cadence remembers the connection's last attempt; an inactive cadence means there was none. */
  predicate InStep(book: Book, t: Cadence) {
    if t.active then !t.firstDue && book.attempts != [] && t.lastDue == book.attempts[|book.attempts| - 1] % TWO_64 else book.attempts == []
  }

  /** Nothing waits when no connection is bound. */
  predicate NothingOrphaned(s: Server) {
    !IsValidHandle(s.driver.active) ==> s.queue.critical == [] && s.queue.telemetry == None
  }

  ghost predicate Running(b: Registry.Board, s: Server, slack: nat) {
    && CanServe(b) && Sound(b, s.driver) && Bounded(s.queue)
    && Agree(s.estop, s.queue, b.identity.boardId)
    && OpenBook(s.driver.record, s.queue, slack) && Balanced(b.identity.boardId, s)
    && NothingOrphaned(s) && InStep(s.driver.record.book, s.cadence)
  }

  /** Another line may be written to the bound connection. */
  predicate Ready(d: Driver) {
    IsValidHandle(d.active) ==> MayFollow(d.record.writes)
  }

  /** What holds between calls. */
  ghost predicate Boundary(b: Registry.Board, s: Server) {
    Running(b, s, 1) && Settled(b, s.driver)
  }

  // ---------------------------------------------------------------------------------------
  // Small changes.

  lemma BookKeepsSound(b: Registry.Board, d: Driver, book: Book)
    requires Sound(b, d) && GoodBook(d.record.(book := book)) && IsValidHandle(d.active)
    ensures Sound(b, d.(record := d.record.(book := book)))
  {
    hide GoodBook, GoodWrites, GoodInbound, Refines;
  }

  lemma CountersKeepSound(b: Registry.Board, d: Driver, c: Values)
    requires Sound(b, d)
    requires c.sessionsAccepted == d.counters.sessionsAccepted
             && c.controllerDisconnects == d.counters.controllerDisconnects
    ensures Sound(b, d.(counters := c))
  {
    hide GoodBook, GoodWrites, GoodInbound, Refines;
  }

  /** Steps that leave the lifecycle, the lines waiting and the book alone. */
  predicate SameWork(s: Server, t: Server) {
    s.driver == t.driver && s.queue.critical == t.queue.critical && s.queue.telemetry == t.queue.telemetry && s.cadence == t.cadence
  }

  lemma RequestIsLossless(boardId: cstring, l: Ledger, p: Pending, r: Request)
    requires Lossless(boardId, l, p)
    ensures var accepted := if RequestStatusOf(p, r.reason).Accepted? then [Alarm(r.reason.value, r.at % TWO_64)] else [];
            Lossless(boardId, l.(requested := l.requested + accepted), Requested(p, r.reason, r.at % TWO_64))
  {
    hide TriggeredLine;
  }

  /** Frame accounting does not depend on the e-stop event. */
  lemma FramesOfSame(boardId: cstring, l: Ledger, l': Ledger, c: Values, q: Queue, q': Queue, n: nat)
    requires FramesAccounted(boardId, l, c, q, n) && q'.telemetry == q.telemetry
    requires l'.handed == l.handed && l'.pendingSeq == l.pendingSeq && l'.failed == l.failed && l'.canceled == l.canceled
    ensures FramesAccounted(boardId, l', c, q', n)
  {
    hide IsFrame;
  }

  lemma RequestRuns(b: Registry.Board, s: Server, r: Request, slack: nat)
    requires Running(b, s, slack)
    ensures Running(b, WithRequest(s, r), slack) && SameWork(s, WithRequest(s, r))
  {
    hide Sound, OpenBook, Agree, Lossless, MatchesWrites, FramesAccounted, CanServe;
    var t := WithRequest(s, r);
    RequestAgrees(s.estop, s.queue, b.identity.boardId, r.reason, r.at % TWO_64);
    RequestIsLossless(b.identity.boardId, s.ledger, s.estop, r);
    FramesOfSame(b.identity.boardId, s.ledger, t.ledger, s.driver.counters, s.queue, t.queue, s.cadence.nextSeq);
    OpenBookMatches(s.driver.record, s.queue, slack);
    OpenBookOfSame(s.driver.record, s.queue, slack, s.driver.record, t.queue, slack);
  }

  /** What the environment answered is noted; nothing else changes. */
  lemma NotesRun(b: Registry.Board, s: Server, l: Ledger, slack: nat)
    requires Running(b, s, slack) && l == s.ledger.(looks := l.looks, app := l.app)
    ensures Running(b, s.(ledger := l), slack)
  {
    hide Sound, OpenBook, Agree, MatchesWrites, CanServe, IsFrame, TriggeredLine;
  }

  lemma {:induction false} RequestsRun(b: Registry.Board, s: Server, rs: seq<Request>, slack: nat)
    requires Running(b, s, slack)
    ensures Running(b, WithRequests(s, rs), slack) && SameWork(s, WithRequests(s, rs))
    decreases |rs|
  {
    hide Running, WithRequest;
    if rs != [] {
      RequestRuns(b, s, rs[0], slack);
      RequestsRun(b, WithRequest(s, rs[0]), rs[1..], slack);
    }
  }

  /** Steps of the driver that change neither its book nor the counters the ledger is balanced against. */
  lemma DriverStepRuns(b: Registry.Board, s: Server, d: Driver, slack: nat)
    requires Running(b, s, slack) && Sound(b, d)
    requires d.record.book == s.driver.record.book && MatchesWrites(d.record.writes, d.record.book.drained)
    requires KeepsHistory(s.driver, d) && SameHeard(s.driver, d)
    requires !IsValidHandle(d.active) ==> s.queue.critical == [] && s.queue.telemetry == None
    ensures Running(b, s.(driver := d), slack)
  {
    hide Sound, Agree, MatchesWrites, OpenBook, Lossless;
    OpenBookOfSame(s.driver.record, s.queue, slack, d.record, s.queue, slack);
  }

  /** Counters that neither the lifecycle nor the ledger is balanced against. */
  predicate FreeCounters(c: Values, e: Values) {
    && c.sessionsAccepted == e.sessionsAccepted && c.controllerDisconnects == e.controllerDisconnects
    && c.estopAckSent == e.estopAckSent && c.heartbeatAckSent == e.heartbeatAckSent
    && c.telemetryCoalesced == e.telemetryCoalesced && c.telemetrySent == e.telemetrySent
  }

  lemma CountersRun(b: Registry.Board, s: Server, c: Values, slack: nat)
    requires Running(b, s, slack) && FreeCounters(s.driver.counters, c)
    ensures Running(b, WithCounters(s, c), slack)
  {
    hide Sound, OpenBook, Agree, Lossless;
    CountersKeepSound(b, s.driver, c);
  }

  lemma ReleaseRuns(b: Registry.Board, s: Server, slack: nat)
    requires Running(b, s, slack)
    ensures Running(b, Released(s), slack) && !Released(s).driver.framer.acquired
  {
    hide Sound, Agree, OpenBook, MatchesWrites, Balanced;
    ReleaseIsSound(b, s.driver);
    OpenBookMatches(s.driver.record, s.queue, slack);
    DriverStepRuns(b, s, ReleaseActiveLine(s.driver), slack);
  }

  lemma TornRuns(b: Registry.Board, s: Server, why: TeardownReason, slack: nat)
    requires Running(b, s, slack) && IsValidHandle(s.driver.active) && why !in {TelemetryTransmitFailureStreak, ConnectionLost, LinkLost}
    ensures Running(b, Torn(s, why), slack) && Torn(s, why).driver.teardown
            && Torn(s, why).driver.active == s.driver.active
    ensures Torn(s, why).driver.record == s.driver.record && Torn(s, why).driver.framer == s.driver.framer
  {
    hide Sound, Agree, OpenBook, MatchesWrites, Balanced;
    TeardownIsSound(b, s.driver, why);
    OpenBookMatches(s.driver.record, s.queue, slack);
    DriverStepRuns(b, s, RequestTeardown(s.driver, why), slack);
  }

  lemma WiderSlack(b: Registry.Board, s: Server, slack: nat)
    requires Running(b, s, slack)
    ensures Running(b, s, slack + 1)
  {
    hide Sound, Agree, Balanced, MatchesWrites, Fifo, CriticalOnly;
  }
}
