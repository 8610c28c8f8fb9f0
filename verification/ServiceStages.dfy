/** Each stage of a `service()` call keeps the loop's invariant, and so does the whole call. */
module ServiceStages {
  import opened Common
  import opened CounterBank
  import opened Connections
  import LineFraming
  import opened OutboundWriting
  import opened Scheduling
  import opened EventLines
  import opened EstopHandling
  import opened TelemetryScheduling
  import opened Sessions
  import opened Serving
  import opened ServiceInvariant
  import opened Applications
  import Dispatching
  import Payloads
  import Registry
  import Schema

  // ---------------------------------------------------------------------------------------
  // Polling and asking for a line.

  lemma BoundaryIs(b: Registry.Board, s: Server)
    requires Boundary(b, s)
    ensures Running(b, s, 1) && Settled(b, s.driver) && Schema.MaximumSchemaFits(b)
  {
    hide Settled, Sound, Agree, OpenBook, Balanced;
  }

  lemma PolledRuns(b: Registry.Board, s: Server, a: Answers)
    requires Boundary(b, s)
    ensures var d := Poll(b, s.driver, a.poll); Running(b, s.(driver := d), 1) && Ready(d) && !d.framer.acquired
  {
    hide Boundary, Settled, Sound, Running, Poll, MatchesWrites, MayFollow, KeepsHistory, SameHeard;
    BoundaryIs(b, s);
    PollIsSound(b, s.driver, a.poll);
    PollKeepsHistory(b, s.driver, a.poll);
    if s.driver.state.Listening? {
      ListeningHasNoBook(b, s.driver);
    }
    PollKeepsHeard(b, s.driver, a.poll);
    PolledBook(b, s.driver, a.poll);
    if !IsValidHandle(Poll(b, s.driver, a.poll).active) {
      PolledQueue(b, s, a);
    }
    DriverStepRuns(b, s, Poll(b, s.driver, a.poll), 1);
  }

  lemma ListeningHasNoBook(b: Registry.Board, d: Driver)
    requires Settled(b, d) && d.state.Listening?
    ensures d.record.book == EMPTY_BOOK
  {
    hide GoodBook, GoodWrites, LineFraming.Refines, GoodPast, Sessions.Conserved;
  }

  /** The server once the driver polled and the application was asked. */
  function PolledAndAsked(b: Registry.Board, s: Server, a: Answers): Server {
    WithFacts(s.(driver := Poll(b, s.driver, a.poll), ledger := s.ledger.(looks := s.ledger.looks + [AroundOf(a.poll)])),
              [Asked(ReasonsOf(a.pollRequests))])
  }

  lemma PollRuns(b: Registry.Board, s: Server, a: Answers)
    requires Boundary(b, s)
    ensures var t := PollStage(b, s, a); Running(b, t, 1) && Ready(t.driver) && !t.driver.framer.acquired
  {
    hide Boundary, Running, Poll, WithRequests, MayFollow;
    PolledRuns(b, s, a);
    var t := PolledAndAsked(b, s, a);
    NotesRun(b, s.(driver := t.driver), t.ledger, 1);
    RequestsRun(b, t, a.pollRequests, 1);
  }

  lemma PolledBook(b: Registry.Board, d: Driver, a: PollAnswers)
    requires Sound(b, Poll(b, d, a))
    ensures MatchesWrites(Poll(b, d, a).record.writes, Poll(b, d, a).record.book.drained)
  {
    hide Poll;
  }

  /** A poll binds a connection or keeps the one bound; it never leaves queued lines without one. */
  lemma PolledQueue(b: Registry.Board, s: Server, a: Answers)
    requires Boundary(b, s) && !IsValidHandle(Poll(b, s.driver, a.poll).active)
    ensures s.queue.critical == [] && s.queue.telemetry == None
  {
    hide Agree, OpenBook, GoodBook, Balanced, GoodWrites, LineFraming.Refines, GoodPast;
    if IsValidHandle(s.driver.active) {
      assert s.driver.state.SessionActive?;
      PollKeepsActive(s.driver, a.poll);
    }
  }

  lemma {:induction false} ReadKeepsActive(d: Driver, events: seq<ReadEvent>)
    ensures ReadLoop(d, events).active == d.active
    decreases |events|
  {
    if !LineFraming.HasLine(d.framer) && events != [] && events[0].Chunk? {
      ReadKeepsActive(TakeChunk(d, events[0].bytes), events[1..]);
    }
  }

  lemma PollKeepsActive(d: Driver, a: PollAnswers)
    ensures PollSession(d, a).active == d.active
  {
    hide ReadLoop;
    ReadKeepsActive(DetectLoss(d, a.link), a.events);
  }

  lemma LineRuns(b: Registry.Board, s: Server, a: Answers)
    requires Running(b, s, 1) && Ready(s.driver) && !s.driver.framer.acquired
    ensures var t := LineStage(s, a);
            && Running(b, t, 1) && Ready(t.driver)
            && (NextLine(s.driver, a.late).Some? <==> t.driver.framer.acquired)
            && (t.driver.framer.acquired ==> IsLive(t))
  {
    hide Sound, Agree, AfterNextLine, OpenBook, NextLine, Balanced, MatchesWrites, KeepsHistory, SameHeard;
    NextLineIsSound(b, s.driver, a.late);
    LineKeepsHistory(s.driver, a.late);
    LineKeepsHeard(s.driver, a.late);
    OpenBookMatches(s.driver.record, s.queue, 1);
    DriverStepRuns(b, s, AfterNextLine(s.driver, a.late), 1);
  }

  // ---------------------------------------------------------------------------------------
  // Telemetry.

  lemma FrameIsFrame(t: Cadence, boardId: cstring, p: Provided)
    requires Frame(t, boardId, p).Some?
    ensures IsFrame(boardId, t.nextSeq, Frame(t, boardId, p).value) && IsValidLine(Frame(t, boardId, p).value)
  {
    hide TelemetryPrefix, Payloads.Filled, Payloads.Closed;
    assert IsFrame(boardId, t.nextSeq, Frame(t, boardId, p).value) by {
      hide TelemetryLine, Payloads.Filled, Payloads.Closed;
      assert TelemetryLine(t.nextSeq % TWO_64, p.stamped % TWO_64, boardId, Payloads.Closed(Payloads.Filled(p.uses)).w.text)
          == Some(Frame(t, boardId, p).value);
    }
  }

  /** A new frame takes the slot, and the one it replaces, if any, is counted as coalesced. */
  lemma FramesAfterQueuing(boardId: cstring, l: Ledger, c: Values, q: Queue, n: nat, line: string)
    requires FramesAccounted(boardId, l, c, q, n) && IsFrame(boardId, n, line)
    ensures FramesAccounted(boardId, l.(pendingSeq := n),
                            if q.telemetry.Some? then c.(telemetryCoalesced := c.telemetryCoalesced + 1) else c,
                            q.(telemetry := Some(line)), n + 1)
  {
    hide IsFrame;
  }

  lemma FramedBook(r: Record, q: Queue, line: string, slack: nat)
    requires OpenBook(r, q, slack) && line != ""
    ensures OpenBook(r.(book := r.book.(frames := r.book.frames + {line})), q.(telemetry := Some(line)), slack)
  {
    hide MatchesWrites, Fifo, CriticalOnly;
  }

  lemma AgreeOfSame(p: Pending, q: Queue, q': Queue, boardId: cstring)
    requires Agree(p, q, boardId) && q'.critical == q.critical && q'.triggered == q.triggered
    ensures Agree(p, q', boardId)
  {
    hide TriggeredEntries, EventLine;
  }

  function QueuedFrame(s: Server, c: Values, t: Cadence, line: string): Server {
    var book := s.driver.record.book;
    WithBook(WithCounters(s, c).(cadence := t, queue := s.queue.(telemetry := Some(line)),
                                 ledger := s.ledger.(pendingSeq := s.cadence.nextSeq)),
             book.(frames := book.frames + {line}))
  }

  lemma QueuedFrameRuns(b: Registry.Board, s: Server, c: Values, t: Cadence, line: string, slack: nat)
    requires Running(b, s, slack) && IsValidHandle(s.driver.active) && line != ""
    requires IsFrame(b.identity.boardId, s.cadence.nextSeq, line) && t.nextSeq == s.cadence.nextSeq + 1 && SamePace(t, s.cadence)
    requires c == if s.queue.telemetry.Some? then s.driver.counters.(telemetryCoalesced := s.driver.counters.telemetryCoalesced + 1)
                  else s.driver.counters
    ensures Running(b, QueuedFrame(s, c, t, line), slack)
  {
    hide OpenBook, Agree, Sound, FramesAccounted, GoodBook, IsFrame, TriggeredLine, CanServe, Fifo, CriticalOnly,
         MatchesWrites;
    var u := QueuedFrame(s, c, t, line);
    FramesAfterQueuing(b.identity.boardId, s.ledger, s.driver.counters, s.queue, s.cadence.nextSeq, line);
    FramedBook(s.driver.record, s.queue, line, slack);
    OpenBookIsGood(u.driver.record, u.queue, slack);
    AgreeOfSame(s.estop, s.queue, u.queue, b.identity.boardId);
    CountersKeepSound(b, s.driver, c);
    BookKeepsSound(b, s.driver.(counters := c), u.driver.record.book);
  }

  /** The cadence's own measure of the period keeps the attempts apart. */
  lemma AttemptIsInStep(book: Book, t: Cadence, at: nat)
    requires InStep(book, t) && ReadingsSpaced(book.attempts) && IsDue(t, at % TWO_64)
    ensures ReadingsSpaced(book.attempts + [at])
  {
  }

  lemma AttemptedBook(r: Record, q: Queue, at: nat, slack: nat)
    requires OpenBook(r, q, slack) && ReadingsSpaced(r.book.attempts + [at])
    ensures OpenBook(r.(book := r.book.(attempts := r.book.attempts + [at])), q, slack)
  {
    hide MatchesWrites, Fifo, CriticalOnly, ReadingsSpaced;
  }

  lemma AttemptedInTune(l: Ledger, d: Driver, at: nat)
    requires InTune(l, d)
    ensures InTune(l.(attempts := l.attempts + [at]), d.(record := d.record.(book := d.record.book.(attempts := d.record.book.attempts + [at]))))
  {
    hide AllLines, AllFrames;
    Assoc(PastAttempts(d.past), d.record.book.attempts, [at]);
  }

  lemma AttemptedRuns(b: Registry.Board, s: Server, at: nat, slack: nat)
    requires Running(b, s, slack) && IsValidHandle(s.driver.active)
    ensures Running(b, Attempted(s, at), slack) && Attempted(s, at).cadence.nextSeq == s.cadence.nextSeq
  {
    hide OpenBook, Agree, Sound, FramesAccounted, Lossless, CanServe, GoodBook, ReadingsSpaced, InTune, TriggeredLine, Acks;
    OpenBookIsGood(s.driver.record, s.queue, slack);
    OpenBookSpaced(s.driver.record, s.queue, slack);
    if IsDue(s.cadence, at % TWO_64) {
      var t := Attempted(s, at);
      AttemptIsInStep(s.driver.record.book, s.cadence, at);
      AttemptedBook(s.driver.record, s.queue, at, slack);
      OpenBookIsGood(t.driver.record, t.queue, slack);
      BookKeepsSound(b, s.driver, t.driver.record.book);
      AttemptedInTune(s.ledger, s.driver, at);
      LosslessOfLedger(b.identity.boardId, s.ledger, t.ledger, s.estop);
      FramesOfSame(b.identity.boardId, s.ledger, t.ledger, s.driver.counters, s.queue, t.queue, s.cadence.nextSeq);
    }
  }

  lemma OpenBookSpaced(r: Record, q: Queue, slack: nat)
    requires OpenBook(r, q, slack)
    ensures ReadingsSpaced(r.book.attempts)
  {
    hide MatchesWrites, Fifo, CriticalOnly, ReadingsSpaced;
  }

  /** Parts of the cadence the attempts are in step with. */
  predicate SamePace(t: Cadence, u: Cadence) {
    t.active == u.active && t.firstDue == u.firstDue && t.lastDue == u.lastDue
  }

  lemma CadenceRuns(b: Registry.Board, s: Server, t: Cadence, slack: nat)
    requires Running(b, s, slack) && t.nextSeq == s.cadence.nextSeq
    requires SamePace(t, s.cadence) || (!t.active && s.driver.record.book.attempts == [])
    ensures Running(b, s.(cadence := t), slack)
  {
    hide OpenBook, Agree, Sound, FramesAccounted, Lossless, CanServe;
  }

  /** What every stage after polling leaves alone. */
  predicate SameSession(d: Driver, e: Driver) {
    && e.active == d.active && e.record.writes == d.record.writes && e.framer == d.framer
    && (d.teardown ==> e.teardown)
  }

  /** The server once a live session's telemetry was serviced, before the provider's requests. */
  function FramedAndNoted(b: Registry.Board, s: Server, a: Answers): Server {
    WithFacts(Framed(b.identity.boardId, s, a.telemetry), ProviderFacts(s.cadence, a.telemetry, ReasonsOf(a.providerRequests)))
  }

  lemma FramedRuns(b: Registry.Board, s: Server, p: Provided)
    requires Running(b, s, 1) && IsValidHandle(s.driver.active)
    ensures var t := Framed(b.identity.boardId, s, p);
            Running(b, t, 1) && SameSession(s.driver, t.driver) && t.driver.state == s.driver.state && t.driver.teardown == s.driver.teardown
  {
    hide Running, Frame;
    var f := Frame(s.cadence, b.identity.boardId, p);
    var c := CountedFrame(s.driver.counters, s.cadence, b.identity.boardId, p, s.queue.telemetry.Some?);
    var n := TelemetryScheduling.Serviced(s.cadence, b.identity.boardId, p);
    var t := Attempted(s, p.at);
    AttemptedRuns(b, s, p.at, 1);
    FreeOfAttempt(s, b.identity.boardId, p);
    if f.None? {
      CountersRun(b, t, c, 1);
      CadenceRuns(b, WithCounters(t, c), n, 1);
    } else {
      FrameIsFrame(s.cadence, b.identity.boardId, p);
      FrameMakesItDue(s, b.identity.boardId, p);
      QueuedFrameRuns(b, t, c, n, f.value, 1);
    }
  }

  lemma TelemetryRuns(b: Registry.Board, s: Server, a: Answers)
    requires Running(b, s, 1) && !s.driver.teardown
    ensures var t := TelemetryStage(b, s, a);
            Running(b, t, 1) && SameSession(s.driver, t.driver) && (IsLive(s) <==> IsLive(t)) && t.driver.teardown == s.driver.teardown
  {
    hide Running, Framed, WithRequests, IsDue;
    if !IsLive(s) {
      IdleHasNoAttempts(b, s);
      CadenceRuns(b, s, Inactive(s.cadence), 1);
    } else {
      FramedRuns(b, s, a.telemetry);
      var t := FramedAndNoted(b, s, a);
      NotesRun(b, Framed(b.identity.boardId, s, a.telemetry), t.ledger, 1);
      RequestsRun(b, t, a.providerRequests, 1);
    }
  }

  lemma IdleHasNoAttempts(b: Registry.Board, s: Server)
    requires Running(b, s, 1) && !s.driver.teardown && !IsLive(s)
    ensures s.driver.record.book.attempts == []
  {
    hide Agree, OpenBook, Balanced, Sessions.Conserved, GoodPast, Connected;
  }

  /** An attempt moves nothing but the cadence and the connection's book, and as the cadence itself says. */
  lemma FreeOfAttempt(s: Server, boardId: cstring, p: Provided)
    ensures var t, n := Attempted(s, p.at), TelemetryScheduling.Serviced(s.cadence, boardId, p);
            && t.driver.counters == s.driver.counters && t.queue == s.queue && SamePace(n, t.cadence)
            && t.driver.active == s.driver.active && t.driver.state == s.driver.state && t.driver.teardown == s.driver.teardown
            && t.ledger == s.ledger.(attempts := t.ledger.attempts) && t.cadence.nextSeq == s.cadence.nextSeq
            && SameSession(s.driver, t.driver)
            && (Frame(s.cadence, boardId, p).None? ==> n.nextSeq == s.cadence.nextSeq)
  {
    hide Frame;
  }

  lemma FrameMakesItDue(s: Server, boardId: cstring, p: Provided)
    requires Frame(s.cadence, boardId, p).Some?
    ensures IsDue(s.cadence, p.at % TWO_64)
    ensures TelemetryScheduling.Serviced(s.cadence, boardId, p).nextSeq == s.cadence.nextSeq + 1
    ensures CountedFrame(s.driver.counters, s.cadence, boardId, p, s.queue.telemetry.Some?) ==
              if s.queue.telemetry.Some? then s.driver.counters.(telemetryCoalesced := s.driver.counters.telemetryCoalesced + 1)
              else s.driver.counters
  {
    hide BuiltLine;
  }

  // ---------------------------------------------------------------------------------------
  // The safety event.

  function TriggeredEntry(s: Server, boardId: cstring): Entry
    requires !s.estop.NothingPending? && EventLine(s.estop, boardId).Some?
  {
    Entry(EstopTriggered, EventLine(s.estop, boardId).value)
  }

  /** An event that waits is queued unless the queue is full, and then the session must end. */
  lemma SafetyOffered(b: Registry.Board, s: Server)
    requires Agree(s.estop, s.queue, b.identity.boardId) && Bounded(s.queue)
    ensures var id, t, book := b.identity.boardId, SafetyOffer(b, s), s.driver.record.book;
            && Agree(t.estop, t.queue, id) && Bounded(t.queue) && t.queue.telemetry == s.queue.telemetry
            && t == s.(estop := t.estop, queue := t.queue, driver := s.driver.(record := s.driver.record.(book := t.driver.record.book)))
            && (t.estop == s.estop || (!s.estop.NothingPending? && t.estop == AwaitingCompletion(s.estop.reason, s.estop.timestamp)))
            && (ServiceFails(s.estop, s.queue, id) <==> s.estop.NotQueued? && |s.queue.critical| == CAPACITY)
            && if !s.estop.NotQueued? then t.driver.record.book == book && t.queue.critical == s.queue.critical
               else if |s.queue.critical| == CAPACITY
               then t.driver.record.book == book.(triggers := book.triggers + 1, saturated := true) && t.queue.critical == s.queue.critical
               else
                 && EventLine(s.estop, id).Some? && EventLine(s.estop, id).value != ""
                 && t.driver.record.book == book.(triggers := book.triggers + 1, queued := book.queued + [TriggeredEntry(s, id)])
                 && t.queue.critical == s.queue.critical + [TriggeredEntry(s, id)]
  {
    hide TriggeredLine, Agree;
    ServiceAgrees(s.estop, s.queue, b.identity.boardId);
    if s.estop.NotQueued? {
      EventIsValid(s.estop, s.queue, b.identity.boardId);
    }
  }

  lemma EventIsValid(p: Pending, q: Queue, boardId: cstring)
    requires Agree(p, q, boardId) && !p.NothingPending?
    ensures EventLine(p, boardId).Some? && IsValidLine(EventLine(p, boardId).value)
  {
    hide TriggeredLine;
    TriggeredLineFits(boardId, p.timestamp, p.reason);
  }

  lemma QueuedBook(r: Record, q: Queue, p: Queue, e: Entry, slack: nat, triggers: nat)
    requires OpenBook(r, q, slack) && p.critical == q.critical + [e] && p.telemetry == q.telemetry && e.line != ""
    requires e.kind.EstopAck? ==> r.book.acks + Acks(q.critical) < r.book.safe
    requires triggers >= r.book.triggers
    ensures OpenBook(r.(book := r.book.(queued := r.book.queued + [e], triggers := triggers)), p,
                     if triggers > r.book.triggers then slack else slack + 1)
  {
    hide MatchesWrites, CriticalOnly, Fifo;
    EnqueueIsFifo(r.book.queued, CriticalOnly(r.book.drained), q.critical, e);
    AcksAppend(q.critical, e);
  }

  lemma SaturatedBook(r: Record, q: Queue, p: Queue, slack: nat, triggers: nat)
    requires OpenBook(r, q, slack) && |q.critical| == CAPACITY && p.critical == q.critical
             && p.telemetry == q.telemetry
    requires triggers >= r.book.triggers + slack
    ensures OpenBook(r.(book := r.book.(saturated := true, triggers := triggers)), p, slack)
  {
    hide MatchesWrites, CriticalOnly, Fifo;
  }

  lemma LosslessOfSame(boardId: cstring, l: Ledger, p: Pending, p': Pending)
    requires Lossless(boardId, l, p)
             && (p' == p || (!p.NothingPending? && p' == AwaitingCompletion(p.reason, p.timestamp)))
    ensures Lossless(boardId, l, p')
  {
    hide TriggeredLine;
  }

  lemma SafetyRuns(b: Registry.Board, s: Server)
    requires Running(b, s, 1) && IsLive(s)
    ensures var t := SafetyOffer(b, s);
            Running(b, t, 1) && SameSession(s.driver, t.driver) && IsLive(t)
  {
    hide SafetyOffer, OpenBook, Sound, Agree, Lossless, FramesAccounted, CanServe, GoodBook, EventLine, ServiceFails;
    var t := SafetyOffer(b, s);
    SafetyOffered(b, s);
    LosslessOfSame(b.identity.boardId, s.ledger, s.estop, t.estop);
    FramesOfSame(b.identity.boardId, s.ledger, t.ledger, s.driver.counters, s.queue, t.queue, s.cadence.nextSeq);
    var triggers := s.driver.record.book.triggers;
    if !s.estop.NotQueued? {
      OpenBookMatches(s.driver.record, s.queue, 1);
      OpenBookOfSame(s.driver.record, s.queue, 1, t.driver.record, t.queue, 1);
    } else if |s.queue.critical| == CAPACITY {
      SaturatedBook(s.driver.record, s.queue, t.queue, 1, triggers + 1);
    } else {
      var e := TriggeredEntry(s, b.identity.boardId);
      QueuedBook(s.driver.record, s.queue, t.queue, e, 1, triggers + 1);
      AcksAppend(s.queue.critical, e);
    }
    OpenBookIsGood(t.driver.record, t.queue, 1);
    BookKeepsSound(b, s.driver, t.driver.record.book);
  }

  // ---------------------------------------------------------------------------------------
  // Draining one line and routing its outcome.

  function CompletionOf(sent: bool): Completion {
    if sent then Completion.Sent else SendFailed
  }

  /** What the writer asks for is never the end of a lost connection. */
  lemma WriteLosesNothing(d: Driver, line: string, cls: MessageClass, accepted: nat)
    requires !d.teardown && LossExplains(Said(d), d.teardown, d.reason)
    ensures var e := WriteLine(d, line, cls, accepted).driver; LossExplains(Said(e), e.teardown, e.reason)
  {
    hide IsValidWireLine, At, CountedAfter, StreakAfter, WasLost;
    WrittenReason(d, line, cls, accepted);
  }

  lemma WrittenReason(d: Driver, line: string, cls: MessageClass, accepted: nat)
    requires !d.teardown
    ensures var e := WriteLine(d, line, cls, accepted).driver; e.teardown ==> e.reason !in {ConnectionLost, LinkLost}
  {
    hide IsValidWireLine, At, CountedAfter, StreakAfter;
  }

  /** A line through the writer keeps the session sound, whatever book is kept of it. */
  lemma WrittenIsSound(b: Registry.Board, d: Driver, line: string, cls: MessageClass, accepted: nat, book: Book)
    requires Sound(b, d) && IsActive(d) && !d.teardown && MayFollow(d.record.writes) && line != ""
    requires var e := WriteLine(d, line, cls, accepted).driver; GoodBook(e.record.(book := book))
    ensures var e := WriteLine(d, line, cls, accepted).driver; Sound(b, e.(record := e.record.(book := book)))
  {
    hide WriteLine, LineFraming.Refines, GoodWrites, GoodBook, IsTable, IsolatedRecord, Sends, Streak, Expiries, LossExplains, FramedFrom;
    WriteLosesNothing(d, line, cls, accepted);
    WriteKeepsConnected(b, d, line, cls, accepted);
    WriteKeepsConserved(d, line, cls, accepted);
    WriteExplains(d, line, cls, accepted);
  }

  /** What the writer does to the record of a live session. */
  lemma WrittenRecord(b: Registry.Board, d: Driver, line: string, cls: MessageClass, accepted: nat) returns (w: Write)
    requires Sound(b, d) && IsActive(d) && !d.teardown && MayFollow(d.record.writes) && line != ""
    ensures var r := WriteLine(d, line, cls, accepted);
            && r == SendActiveLine(d, line, cls, accepted)
            && w.line == line && w.cls == cls && (r.result == SendResult.Sent <==> IsComplete(w))
            && r.driver.record == d.record.(writes := d.record.writes + [w])
            && r.driver.active == d.active && r.driver.framer == d.framer && r.driver.past == d.past
            && (!r.driver.teardown ==> IsActive(r.driver))
  {
    hide WriteLine, LineFraming.Refines, GoodWrites, GoodBook, IsTable, IsolatedRecord;
    WriteKeepsConnected(b, d, line, cls, accepted);
    WriteKeepsConserved(d, line, cls, accepted);
    var r := WriteLine(d, line, cls, accepted);
    var n: nat :| r.driver.record == Wrote(d.record, Write(line, cls, n)) && (r.result == SendResult.Sent <==> n == |line|);
    w := Write(line, cls, n);
  }

  lemma CriticalOnlyAppend(es: seq<Entry>, e: Entry)
    ensures CriticalOnly(es + [e]) == CriticalOnly(es) + if e.kind.Telemetry? then [] else [e]
  {
    assert (es + [e])[..|es|] == es;
  }

  lemma MatchesAppend(ws: seq<Write>, es: seq<Entry>, w: Write, e: Entry)
    requires MatchesWrites(ws, es) && ws != [] && SameLine(w, e)
    ensures MatchesWrites(ws + [w], es + [e])
  {
  }

  lemma DrainedFifo(queued: seq<Entry>, drained: seq<Entry>, q: Queue)
    requires Fifo(queued, CriticalOnly(drained), q.critical) && Bounded(q) && HasPending(q)
    ensures Fifo(queued, CriticalOnly(drained + [Next(q)]), Drained(q).critical)
  {
    hide Fifo, CriticalOnly;
    CriticalOnlyAppend(drained, Next(q));
    if q.critical != [] {
      DrainIsFifo(queued, CriticalOnly(drained), q.critical, Selected(q.critical));
    } else {
      assert CriticalOnly(drained) + [] == CriticalOnly(drained);
    }
  }

  lemma DrainedAcks(q: Queue)
    requires Bounded(q) && HasPending(q)
    ensures Acks(q.critical) == Acks(Drained(q).critical) + if Next(q).kind.EstopAck? then 1 else 0
  {
    hide Acks;
    if q.critical != [] {
      AcksWithout(q.critical, Selected(q.critical));
    }
  }

  lemma DrainedLinesAreNotEmpty(q: Queue)
    requires NoEmptyLine(q) && HasPending(q)
    ensures NoEmptyLine(Drained(q)) && Next(q).line != ""
  {
  }

  lemma DrainedFacts(q: Queue, p: Queue)
    requires HasPending(q) && p.critical == Drained(q).critical && p.telemetry == Drained(q).telemetry
    ensures NoEmptyLine(Drained(q)) ==> NoEmptyLine(p)
  {
    hide Selected, Without;
  }

  lemma DrainedBook(r: Record, q: Queue, p: Queue, w: Write, sent: bool)
    requires OpenBook(r, q, 1) && Bounded(q) && HasPending(q) && r.writes != [] && SameLine(w, Next(q))
    requires p.critical == Drained(q).critical && p.telemetry == Drained(q).telemetry
    ensures var acks := r.book.acks + if sent && Next(q).kind.EstopAck? then 1 else 0;
            OpenBook(r.(writes := r.writes + [w], book := r.book.(drained := r.book.drained + [Next(q)], acks := acks)), p, 0)
  {
    hide MatchesWrites, CriticalOnly, Fifo, Acks, NoEmptyLine;
    DrainedFacts(q, p);
    MatchesAppend(r.writes, r.book.drained, w, Next(q));
    DrainedFifo(r.book.queued, r.book.drained, q);
    DrainedAcks(q);
    DrainedLinesAreNotEmpty(q);
  }

  lemma DrainedIsLossless(boardId: cstring, l: Ledger, p: Pending, q: Queue, sent: bool, failed: nat)
    requires Lossless(boardId, l, p) && Agree(p, q, boardId) && Bounded(q) && HasPending(q)
    ensures Lossless(boardId, Handed(l, Next(q), sent).(failed := failed), Resolved(p, Outcome(Next(q).kind, CompletionOf(sent))))
  {
    hide TriggeredLine, Agree;
    if Next(q).kind.EstopTriggered? {
      DrainedEventIsPending(p, q, boardId);
    }
  }

  lemma DrainedFrames(boardId: cstring, l: Ledger, c: Values, q: Queue, n: nat, sent: bool)
    requires FramesAccounted(boardId, l, c, q, n) && Bounded(q) && HasPending(q)
    ensures var o, m := Outcome(Next(q).kind, CompletionOf(sent)), Handed(l, Next(q), sent);
            FramesAccounted(boardId, m.(failed := m.failed + if o == Outcome(Telemetry, SendFailed) then 1 else 0),
                            CountedOutcome(c, o), Drained(q), n)
  {
    hide IsFrame;
  }

  lemma FramesOfCounters(boardId: cstring, l: Ledger, c: Values, e: Values, q: Queue, q': Queue, n: nat)
    requires FramesAccounted(boardId, l, c, q, n) && q'.telemetry == q.telemetry
    requires e.telemetrySent == c.telemetrySent && e.telemetryCoalesced == c.telemetryCoalesced
    ensures FramesAccounted(boardId, l, e, q', n)
  {
    hide IsFrame;
  }

  /** The server after a drain and the routing of its outcome. */
  function Routed(s: Server, accepted: nat): Server
    requires HasPending(s.queue)
  {
    RouteOutcome(Serving.Drain(s, accepted), DrainOutcome(s, accepted))
  }

  lemma DrainKeepsSound(b: Registry.Board, s: Server, accepted: nat, w: Write)
    requires Sound(b, s.driver) && IsLive(s) && Ready(s.driver) && HasPending(s.queue) && Next(s.queue).line != ""
    requires var e := Next(s.queue); var d := WriteLine(s.driver, e.line, ClassOf(e.kind), accepted);
             && d == SendActiveLine(s.driver, e.line, ClassOf(e.kind), accepted) && GoodBook(Routed(s, accepted).driver.record)
    ensures Sound(b, Routed(s, accepted).driver)
  {
    hide Sound, WriteLine, GoodBook, MayFollow, SendActiveLine;
    var e := Next(s.queue);
    var d := WriteLine(s.driver, e.line, ClassOf(e.kind), accepted).driver;
    var t := Routed(s, accepted);
    WrittenIsSound(b, s.driver, e.line, ClassOf(e.kind), accepted, t.driver.record.book);
    CountersKeepSound(b, d.(record := d.record.(book := t.driver.record.book)), t.driver.counters);
  }

  lemma RoutedParts(s: Server, accepted: nat, w: Write)
    requires HasPending(s.queue)
    requires var e := Next(s.queue); var r := SendActiveLine(s.driver, e.line, ClassOf(e.kind), accepted);
             (r.result == SendResult.Sent <==> IsComplete(w)) && r.driver.record == s.driver.record.(writes := s.driver.record.writes + [w])
    ensures var e, sent, t := Next(s.queue), IsComplete(w), Routed(s, accepted);
            var d := SendActiveLine(s.driver, e.line, ClassOf(e.kind), accepted).driver;
            var o := Outcome(e.kind, CompletionOf(sent));
            && o == DrainOutcome(s, accepted)
            && t.driver == d.(counters := CountedOutcome(d.counters, o), record := t.driver.record)
            && t.driver.record == s.driver.record.(writes := s.driver.record.writes + [w],
                 book := s.driver.record.book.(drained := s.driver.record.book.drained + [e],
                                               acks := s.driver.record.book.acks + if sent && e.kind.EstopAck? then 1 else 0))
            && t.queue == QueueAfterOutcome(s.estop, Drained(s.queue), o)
            && t.estop == Resolved(s.estop, o) && t.cadence == s.cadence
            && t.ledger == (var m := Handed(s.ledger, e, sent); m.(failed := m.failed + if o == Outcome(Telemetry, SendFailed) then 1 else 0))
  {
    hide SendActiveLine, Next, Drained, IsComplete, Handed, QueueAfterOutcome, Resolved;
  }

  /** Draining a line and routing its outcome restores what the drain broke, and leaves room for one more entry. */
  lemma DrainRuns(b: Registry.Board, s: Server, accepted: nat)
    requires Running(b, s, 1) && IsLive(s) && Ready(s.driver) && HasPending(s.queue)
    ensures var t := Routed(s, accepted);
            && Running(b, t, 0)
            && t.driver.active == s.driver.active && t.driver.framer == s.driver.framer
            && (!DrainEnds(t, DrainOutcome(s, accepted)) ==> IsLive(t) && Ready(t.driver))
  {
    hide Sound, OpenBook, Agree, Balanced, SendActiveLine, WriteLine, GoodBook, CanServe, Routed,
         Next, Drained, QueueAfterOutcome, Resolved, DrainOutcome, NoEmptyLine;
    var e := Next(s.queue);
    var t := Routed(s, accepted);
    LinesOfBook(s.driver.record, s.queue);
    var w := WrittenRecord(b, s.driver, e.line, ClassOf(e.kind), accepted);
    RoutedParts(s, accepted, w);
    WriteKeepsHistory(s.driver, e.line, ClassOf(e.kind), accepted);
    DrainedParts(s, b.identity.boardId, accepted, w);
    OpenBookIsGood(t.driver.record, t.queue, 0);
    DrainKeepsSound(b, s, accepted, w);
  }

  lemma LinesOfBook(r: Record, q: Queue)
    requires OpenBook(r, q, 1) && HasPending(q)
    ensures Next(q).line != ""
  {
    hide Fifo, MatchesWrites, CriticalOnly;
  }

  /** The queue, the event and the ledger after the drain, given what the writer did. */
  lemma DrainedParts(s: Server, boardId: cstring, accepted: nat, w: Write)
    requires HasPending(s.queue) && Bounded(s.queue) && Agree(s.estop, s.queue, boardId)
    requires OpenBook(s.driver.record, s.queue, 1) && Balanced(boardId, s) && s.driver.record.writes != []
    requires var e := Next(s.queue); var r := SendActiveLine(s.driver, e.line, ClassOf(e.kind), accepted);
             && w.line == e.line && w.cls == ClassOf(e.kind) && (r.result == SendResult.Sent <==> IsComplete(w))
             && r.driver.record == s.driver.record.(writes := s.driver.record.writes + [w])
             && KeepsHistory(s.driver, r.driver) && r.driver.past == s.driver.past
    ensures var t := Routed(s, accepted);
            && Agree(t.estop, t.queue, boardId) && Bounded(t.queue) && OpenBook(t.driver.record, t.queue, 0) && Balanced(boardId, t)
  {
    hide OpenBook, Agree, Lossless, FramesAccounted, SendActiveLine, Routed, Next, Drained, Resolved, DrainOutcome,
         Handed, Acks;
    var e, sent, t := Next(s.queue), IsComplete(w), Routed(s, accepted);
    var d := SendActiveLine(s.driver, e.line, ClassOf(e.kind), accepted).driver;
    RoutedParts(s, accepted, w);
    MatchingCounts(s.driver.record, s.queue, 1);
    DrainAgrees(s.estop, s.queue, boardId, sent);
    DrainedIsLossless(boardId, s.ledger, s.estop, s.queue, sent, t.ledger.failed);
    FramesOfCounters(boardId, s.ledger, s.driver.counters, d.counters, s.queue, s.queue, s.cadence.nextSeq);
    DrainedFrames(boardId, s.ledger, d.counters, s.queue, s.cadence.nextSeq, sent);
    FramesOfSame(boardId, t.ledger, t.ledger, t.driver.counters, Drained(s.queue), t.queue, s.cadence.nextSeq);
    DrainedAcks(s.queue);
    DrainedBounded(s.queue);
    DrainedBook(s.driver.record, s.queue, t.queue, w, sent);
    HandedKeepsSafe(s.ledger, e, sent);
    DrainedInTune(s.ledger, s.driver, e, w, t.ledger, t.driver);
  }

  lemma MatchingCounts(r: Record, q: Queue, slack: nat)
    requires OpenBook(r, q, slack) && r.writes != []
    ensures |r.writes| == |r.book.drained| + 1
  {
    hide Fifo, CriticalOnly;
  }

  /** What a drain adds to the ledger and its outcome to the counters is what it adds to what the peer was sent. */
  lemma DrainedInTune(l: Ledger, d: Driver, e: Entry, w: Write, t: Ledger, u: Driver)
    requires InTune(l, d) && |d.record.writes| == |d.record.book.drained| + 1
    requires var m := Handed(l, e, IsComplete(w));
             t.confirmed == m.confirmed && t.handed == m.handed && t.attempts == m.attempts
    requires u.past == d.past && u.record.writes == d.record.writes + [w] && u.record.book.drained == d.record.book.drained + [e]
    requires u.record.book.attempts == d.record.book.attempts
    requires var c := CountedOutcome(d.counters, Outcome(e.kind, CompletionOf(IsComplete(w))));
             && u.counters.estopAckSent == c.estopAckSent && u.counters.heartbeatAckSent == c.heartbeatAckSent
             && u.counters.telemetrySent == c.telemetrySent
    ensures InTune(t, u)
  {
    hide AllLines, AllFrames, AllAttempts;
    OneMoreFrame(d.past, d.record.book.drained, e);
    OneMoreSent(EstopTriggered, d.past, d.record.writes, w, d.record.book.drained, e);
    OneMoreSent(EstopAck, d.past, d.record.writes, w, d.record.book.drained, e);
    OneMoreSent(HeartbeatAck, d.past, d.record.writes, w, d.record.book.drained, e);
    OneMoreSent(Telemetry, d.past, d.record.writes, w, d.record.book.drained, e);
  }

  lemma HandedKeepsSafe(l: Ledger, e: Entry, sent: bool)
    ensures Handed(l, e, sent).safeReturns == l.safeReturns
  {
  }

  lemma DrainedBounded(q: Queue)
    requires Bounded(q) && HasPending(q)
    ensures Bounded(Drained(q))
  {
  }

  // ---------------------------------------------------------------------------------------
  // Handling a message.

  lemma OfferedBook(s: Server, kind: Kind, line: string)
    requires OpenBook(s.driver.record, s.queue, 0) && Bounded(s.queue)
    requires kind.EstopAck? ==> s.driver.record.book.acks + Acks(s.queue.critical) < s.driver.record.book.safe
    ensures OpenBook(OfferLine(s, kind, line).driver.record, OfferLine(s, kind, line).queue, 1)
  {
    hide OpenBook, Acks;
    var t := OfferLine(s, kind, line);
    if EnqueueResultOf(s.queue, kind, line).Queued? {
      QueuedBook(s.driver.record, s.queue, t.queue, Entry(kind, line), 0, s.driver.record.book.triggers);
    } else {
      OpenBookMatches(s.driver.record, s.queue, 0);
      if EnqueueResultOf(s.queue, kind, line).TeardownRequested? {
        SaturatedBook(s.driver.record, s.queue, t.queue, 0, s.driver.record.book.triggers);
        OpenBookOfSame(s.driver.record.(book := s.driver.record.book.(saturated := true)), t.queue, 0, t.driver.record, t.queue, 1);
      } else {
        OpenBookOfSame(s.driver.record, s.queue, 0, t.driver.record, t.queue, 1);
      }
    }
  }

  /** An offer moves the queue and the book, and nothing else. */
  lemma OfferedParts(s: Server, kind: Kind, line: string)
    requires Bounded(s.queue) && !kind.EstopTriggered?
    ensures var t := OfferLine(s, kind, line);
            && t == s.(queue := t.queue, driver := s.driver.(record := s.driver.record.(book := t.driver.record.book)))
            && t.queue == Enqueued(s.queue, kind, line) && t.queue.telemetry == s.queue.telemetry && Bounded(t.queue)
            && t.driver.record.book.drained == s.driver.record.book.drained
            && t.driver.record.book.attempts == s.driver.record.book.attempts
            && Acks(t.queue.critical) <= Acks(s.queue.critical) + (if kind.EstopAck? then 1 else 0)
  {
    hide Acks;
    AcksAppend(s.queue.critical, Entry(kind, line));
  }

  lemma OfferRuns(b: Registry.Board, s: Server, kind: Kind, line: string)
    requires Running(b, s, 0) && IsValidHandle(s.driver.active) && !kind.EstopTriggered?
    requires kind.EstopAck? ==> s.driver.record.book.acks + Acks(s.queue.critical) < s.driver.record.book.safe
    requires kind.EstopAck? ==> s.driver.counters.estopAckSent + Acks(s.queue.critical) < s.ledger.safeReturns
    ensures Running(b, OfferLine(s, kind, line), 1) && SameSession(s.driver, OfferLine(s, kind, line).driver)
    ensures OfferLine(s, kind, line).driver.teardown == s.driver.teardown
  {
    hide Sound, Agree, OpenBook, Lossless, FramesAccounted, CanServe, GoodBook, OfferLine, Enqueued, AllLines, AllFrames, AllAttempts, Acks;
    var t := OfferLine(s, kind, line);
    OfferedParts(s, kind, line);
    EnqueueAgrees(s.estop, s.queue, b.identity.boardId, kind, line);
    FramesOfSame(b.identity.boardId, s.ledger, t.ledger, s.driver.counters, s.queue, t.queue, s.cadence.nextSeq);
    OfferedBook(s, kind, line);
    OpenBookIsGood(t.driver.record, t.queue, 1);
    BookKeepsSound(b, s.driver, t.driver.record.book);
  }

  /** Offer a line, and ask for the end of the session if it was refused. */
  function OfferOrEnd(s: Server, kind: Kind, line: string): Server {
    var u := OfferLine(s, kind, line);
    if EnqueueResultOf(s.queue, kind, line).Queued? then u else Torn(u, CriticalTransmitFailure)
  }

  lemma OfferOrEndRuns(b: Registry.Board, s: Server, kind: Kind, line: string)
    requires Running(b, s, 0) && IsValidHandle(s.driver.active) && !kind.EstopTriggered?
    requires kind.EstopAck? ==> s.driver.record.book.acks + Acks(s.queue.critical) < s.driver.record.book.safe
    requires kind.EstopAck? ==> s.driver.counters.estopAckSent + Acks(s.queue.critical) < s.ledger.safeReturns
    ensures Running(b, OfferOrEnd(s, kind, line), 1) && SameSession(s.driver, OfferOrEnd(s, kind, line).driver)
  {
    hide Running, OfferLine, RequestTeardown;
    OfferRuns(b, s, kind, line);
    TornRuns(b, OfferLine(s, kind, line), CriticalTransmitFailure, 1);
  }

  /** The hook reported a safe state: there is room for one more acknowledgement. */
  function SafeReported(s: Server): Server {
    var book := s.driver.record.book;
    WithBook(s, book.(safe := book.safe + 1)).(ledger := s.ledger.(safeReturns := s.ledger.safeReturns + 1))
  }

  lemma SafeBook(r: Record, q: Queue, slack: nat)
    requires OpenBook(r, q, slack)
    ensures OpenBook(r.(book := r.book.(safe := r.book.safe + 1)), q, slack)
    ensures r.book.acks + Acks(q.critical) < r.book.safe + 1
  {
    hide MatchesWrites, CriticalOnly, Fifo, Acks;
  }

  lemma LosslessOfLedger(boardId: cstring, l: Ledger, l': Ledger, p: Pending)
    requires Lossless(boardId, l, p) && l'.requested == l.requested && l'.confirmed == l.confirmed
    ensures Lossless(boardId, l', p)
  {
    hide TriggeredLine;
  }

  lemma SafeReportedRuns(b: Registry.Board, s: Server)
    requires Running(b, s, 0) && IsValidHandle(s.driver.active)
    ensures var t := SafeReported(s);
            && Running(b, t, 0) && SameSession(s.driver, t.driver) && t.driver.teardown == s.driver.teardown
            && t.driver.record.book.acks + Acks(t.queue.critical) < t.driver.record.book.safe
            && t.driver.counters.estopAckSent + Acks(t.queue.critical) < t.ledger.safeReturns
  {
    hide Sound, Agree, OpenBook, Lossless, FramesAccounted, CanServe, GoodBook, Acks;
    var t := SafeReported(s);
    SafeBook(s.driver.record, s.queue, 0);
    LosslessOfLedger(b.identity.boardId, s.ledger, t.ledger, s.estop);
    FramesOfSame(b.identity.boardId, s.ledger, t.ledger, s.driver.counters, s.queue, t.queue, s.cadence.nextSeq);
    OpenBookIsGood(t.driver.record, t.queue, 0);
    BookKeepsSound(b, s.driver, t.driver.record.book);
  }

  lemma AckRuns(b: Registry.Board, s: Server, timestamp: uint64)
    requires Running(b, s, 0) && IsValidHandle(s.driver.active)
    ensures var t := AckSafeStop(b, s, timestamp); Running(b, t, 1) && SameSession(s.driver, t.driver)
  {
    hide Running, AckLine, Acks, SameSession, RequestTeardown;
    var t := SafeReported(s);
    SafeReportedRuns(b, s);
    SameSessionIsActive(s.driver, t.driver);
    match AckLine(b.identity.boardId, timestamp)
    case None => CountAndEndRuns(b, t, t.driver.counters.(estopApplyFailed := t.driver.counters.estopApplyFailed + 1));
                 SameSessionChains(s.driver, t.driver, AckSafeStop(b, s, timestamp).driver);
    case Some(line) =>
      OfferOrEndRuns(b, t, EstopAck, line);
      SameSessionChains(s.driver, t.driver, AckSafeStop(b, s, timestamp).driver);
  }

  lemma SameSessionIsActive(d: Driver, e: Driver)
    requires SameSession(d, e)
    ensures e.active == d.active
  {
  }

  lemma SameSessionChains(d: Driver, e: Driver, f: Driver)
    requires SameSession(d, e) && SameSession(e, f)
    ensures SameSession(d, f)
  {
  }

  lemma CountAndEndRuns(b: Registry.Board, s: Server, c: Values)
    requires Running(b, s, 0) && IsValidHandle(s.driver.active) && FreeCounters(s.driver.counters, c)
    ensures var t := Torn(WithCounters(s, c), CriticalTransmitFailure); Running(b, t, 1) && SameSession(s.driver, t.driver)
  {
    hide Running;
    CountersRun(b, s, c, 0);
    TornRuns(b, WithCounters(s, c), CriticalTransmitFailure, 0);
    WiderSlack(b, Torn(WithCounters(s, c), CriticalTransmitFailure), 0);
  }

  /** Counted, then whatever requests the handler or hook made. */
  lemma CountedRequestsRun(b: Registry.Board, s: Server, c: Values, rs: seq<Request>)
    requires Running(b, s, 0) && FreeCounters(s.driver.counters, c)
    ensures Running(b, WithRequests(WithCounters(s, c), rs), 0)
            && WithRequests(WithCounters(s, c), rs).driver == s.driver.(counters := c)
  {
    hide Running, WithRequests;
    CountersRun(b, s, c, 0);
    RequestsRun(b, WithCounters(s, c), rs, 0);
  }

  lemma HandleRuns(b: Registry.Board, s: Server, line: string, a: Answers)
    requires Running(b, s, 0) && IsValidHandle(s.driver.active)
    ensures var t := Handle(b, s, line, a); Running(b, t, 1) && SameSession(s.driver, t.driver)
  {
    hide Running, Route, MessageFacts, Runs;
    var t := WithFacts(s, MessageFacts(b, line, a.message, a.handlerRequests));
    NotesRun(b, s, t.ledger, 0);
    RouteRuns(b, t, a.message, if Runs(b, a.message) then a.handlerRequests else []);
  }

  lemma RouteRuns(b: Registry.Board, s: Server, m: Message, rs: seq<Request>)
    requires Running(b, s, 0) && IsValidHandle(s.driver.active)
    ensures var t := Route(b, s, m, rs); Running(b, t, 1) && SameSession(s.driver, t.driver)
  {
    hide Running, WithRequests, HeartbeatLine, OfferLine, RequestTeardown, AckSafeStop, Replied, ResponseOf;
    var c := s.driver.counters;
    match m
    case Unrouted => WiderSlack(b, s, 0);
    case WrongTarget =>
      CountersRun(b, s, c.(invalidTargets := c.invalidTargets + 1), 0);
      WiderSlack(b, Route(b, s, m, rs), 0);
    case CommandMessage(_, _) => CommandRuns(b, s, m, rs);
    case EstopMessage(safe, at) => EstopRuns(b, s, m, rs);
    case HeartbeatMessage(n) => HeartbeatRuns(b, s, m, rs);
  }

  lemma RepliedRuns(b: Registry.Board, s: Server, r: Dispatching.Response)
    requires Running(b, s, 0) && IsValidHandle(s.driver.active)
    ensures Running(b, Replied(s, r), 1) && SameSession(s.driver, Replied(s, r).driver)
  {
    hide Running, OfferLine, EnqueueResultOf;
    if r.line.None? {
      WiderSlack(b, s, 0);
    } else {
      OfferRuns(b, s, CommandResponse, r.line.value);
      var u := OfferLine(s, CommandResponse, r.line.value);
      if !Unanswered(s.queue, r) {
        var c := u.driver.counters;
        CountersRun(b, u, if r.ok then c.(commandsOk := c.commandsOk + 1) else c.(commandsError := c.commandsError + 1), 1);
      }
    }
  }

  lemma CommandRuns(b: Registry.Board, s: Server, m: Message, rs: seq<Request>)
    requires Running(b, s, 0) && IsValidHandle(s.driver.active) && m.CommandMessage?
    ensures var t := Route(b, s, m, rs); Running(b, t, 1) && SameSession(s.driver, t.driver)
  {
    hide Running, WithRequests, Replied, Unanswered, ResponseOf;
    var r := ResponseOf(b, m);
    var c := Dispatching.Faulted(s.driver.counters.(commandsReceived := s.driver.counters.commandsReceived + 1), r.fault);
    CountersRun(b, s, c, 0);
    var t := WithCounters(s, c);
    RepliedRuns(b, t, r);
    RequestsRun(b, Replied(t, r), rs, 1);
    TornRuns(b, WithRequests(Replied(t, r), rs), CriticalTransmitFailure, 1);
  }

  lemma EstopRuns(b: Registry.Board, s: Server, m: Message, rs: seq<Request>)
    requires Running(b, s, 0) && IsValidHandle(s.driver.active) && m.EstopMessage?
    ensures var t := Route(b, s, m, rs); Running(b, t, 1) && SameSession(s.driver, t.driver)
  {
    hide Running, WithRequests, AckSafeStop;
    var c := s.driver.counters.(estopReceived := s.driver.counters.estopReceived + 1);
    CountedRequestsRun(b, s, c, rs);
    var t := WithRequests(WithCounters(s, c), rs);
    if m.safe {
      AckRuns(b, t, m.at % TWO_64);
    } else {
      CountersRun(b, t, t.driver.counters.(estopApplyFailed := t.driver.counters.estopApplyFailed + 1), 0);
      WiderSlack(b, Route(b, s, m, rs), 0);
    }
  }

  lemma HeartbeatRuns(b: Registry.Board, s: Server, m: Message, rs: seq<Request>)
    requires Running(b, s, 0) && IsValidHandle(s.driver.active) && m.HeartbeatMessage?
    ensures var t := Route(b, s, m, rs); Running(b, t, 1) && SameSession(s.driver, t.driver)
  {
    hide Running, HeartbeatLine, OfferLine, EnqueueResultOf, RequestTeardown;
    var c := s.driver.counters.(heartbeatReceived := s.driver.counters.heartbeatReceived + 1);
    CountersRun(b, s, c, 0);
    var t := WithCounters(s, c);
    match HeartbeatLine(b.identity.boardId, m.seq_)
    case None =>
      TornRuns(b, t, CriticalTransmitFailure, 0);
      WiderSlack(b, Torn(t, CriticalTransmitFailure), 0);
    case Some(line) => OfferOrEndRuns(b, t, HeartbeatAck, line);
  }

  // ---------------------------------------------------------------------------------------
  // Ending the session.

  function TelemetryOutcomes(os: seq<Outcome>): nat {
    if os == [] then 0
    else TelemetryOutcomes(os[..|os| - 1]) + if os[|os| - 1].kind.Telemetry? then 1 else 0
  }

  /** Routing cancellations moves the e-stop event back and counts the telemetry frame; nothing else. */
  lemma {:induction false} CancellationsRouted(s: Server, os: seq<Outcome>)
    requires forall k :: 0 <= k < |os| ==> os[k].completion.CanceledBySessionEnd?
    ensures RouteAll(s, os) == s.(estop := ResolvedAll(s.estop, os), queue := QueueAfterAll(s.estop, s.queue, os),
                                  ledger := s.ledger.(canceled := s.ledger.canceled + TelemetryOutcomes(os)))
  {
    hide Resolved, QueueAfterOutcome;
    if os != [] {
      var n := |os| - 1;
      assert forall k :: 0 <= k < n ==> os[..n][k] == os[k];
      CancellationsRouted(s, os[..n]);
      assert os[n].completion.CanceledBySessionEnd?;
    }
  }

  lemma {:induction false} NoTelemetryAmong(os: seq<Outcome>)
    requires forall k :: 0 <= k < |os| ==> !os[k].kind.Telemetry?
    ensures TelemetryOutcomes(os) == 0
  {
    if os != [] {
      NoTelemetryAmong(os[..|os| - 1]);
    }
  }

  lemma CancellationsCounted(q: Queue)
    requires Bounded(q)
    ensures TelemetryOutcomes(Cancellations(q)) == InSlot(q)
    ensures forall k :: 0 <= k < |Cancellations(q)| ==> Cancellations(q)[k].completion.CanceledBySessionEnd?
  {
    var os := CriticalCancellations(q.critical);
    NoTelemetryAmong(os);
    if q.telemetry.Some? {
      assert (os + [Outcome(Telemetry, CanceledBySessionEnd)])[..|os|] == os;
    } else {
      assert os + [] == os;
    }
  }

  lemma CanceledFrames(boardId: cstring, l: Ledger, c: Values, q: Queue, q': Queue, n: nat)
    requires FramesAccounted(boardId, l, c, q, n) && q'.telemetry == None
    ensures FramesAccounted(boardId, l.(canceled := l.canceled + InSlot(q)), c, q', n)
  {
    hide IsFrame;
  }

  lemma LosslessOfSameEvent(boardId: cstring, l: Ledger, l': Ledger, p: Pending, p': Pending)
    requires Lossless(boardId, l, p) && l'.requested == l.requested && l'.confirmed == l.confirmed
    requires p'.NothingPending? <==> p.NothingPending?
    requires !p.NothingPending? ==> p'.reason == p.reason && p'.timestamp == p.timestamp
    ensures Lossless(boardId, l', p')
  {
    hide TriggeredLine;
  }

  lemma EmptyBook(r: Record, q: Queue)
    requires r.book == EMPTY_BOOK && MatchesWrites(r.writes, []) && q.critical == [] && q.telemetry == None
    ensures OpenBook(r, q, 1)
  {
    hide MatchesWrites;
  }

  lemma SoundMatches(b: Registry.Board, d: Driver)
    requires Sound(b, d)
    ensures MatchesWrites(d.record.writes, d.record.book.drained)
  {
  }

  lemma EndedBalances(b: Registry.Board, s: Server, t: Server)
    requires Running(b, s, 1)
    requires var id, os := b.identity.boardId, Cancellations(s.queue);
             && t.estop == ResolvedAll(s.estop, os) && t.queue == QueueAfterAll(s.estop, Cleared(s.queue), os)
             && t.ledger == s.ledger.(canceled := s.ledger.canceled + InSlot(s.queue))
             && t.cadence.nextSeq == s.cadence.nextSeq && KeepsHistory(s.driver, t.driver) && SameHeard(s.driver, t.driver)
    ensures Balanced(b.identity.boardId, t) && Agree(t.estop, t.queue, b.identity.boardId)
    ensures t.queue.critical == [] && t.queue.telemetry == None
  {
    hide Sound, Agree, OpenBook, Lossless, FramesAccounted, CanServe, ResolvedAll, QueueAfterAll, Cancellations;
    var id := b.identity.boardId;
    EndSessionAgrees(s.estop, s.queue, id);
    LosslessOfSameEvent(id, s.ledger, t.ledger, s.estop, t.estop);
    CanceledFrames(id, s.ledger, s.driver.counters, s.queue, t.queue, s.cadence.nextSeq);
    FramesOfCounters(id, t.ledger, s.driver.counters, t.driver.counters, t.queue, t.queue, t.cadence.nextSeq);
  }

  /** The session's end leaves nothing pending, nothing queued and nothing acquired. */
  lemma EndRuns(b: Registry.Board, s: Server, a: Answers)
    requires Running(b, s, 1) && s.driver.teardown
    ensures Boundary(b, Serving.EndSession(b, s, a))
  {
    hide Sound, Settled, Agree, OpenBook, Balanced, CanServe, WithRequests, Apply, Cancellations, RouteAll,
         QueueAfterAll, ResolvedAll, MatchesWrites, TelemetryOutcomes, KeepsHistory, SameHeard;
    var os := Cancellations(s.queue);
    CancellationsCounted(s.queue);
    CancellationsRouted(s.(queue := Cleared(s.queue)), os);
    var t := RouteAll(s.(queue := Cleared(s.queue)), os);
    var u := t.(cadence := Inactive(t.cadence), driver := Apply(b, t.driver, a.promotions));
    ServableFits(b);
    ApplySettles(b, s.driver, a.promotions);
    ApplyKeepsHistory(b, s.driver, a.promotions);
    EndingHasABook(b, s.driver);
    ApplyKeepsHeard(b, s.driver, a.promotions);
    EndedBalances(b, s, u);
    SettledIsSound(b, u.driver);
    SoundMatches(b, u.driver);
    EmptyBook(u.driver.record, u.queue);
    var v := WithFacts(u, [Asked(ReasonsOf(a.endRequests))]);
    NotesRun(b, u, v.ledger, 1);
    RequestsRun(b, v, a.endRequests, 1);
  }

  lemma EndingHasABook(b: Registry.Board, d: Driver)
    requires Sound(b, d)
    ensures IsValidHandle(d.active) || d.record.book == EMPTY_BOOK
  {
    hide GoodBook, GoodWrites, LineFraming.Refines, GoodPast, Sessions.Conserved;
  }

  lemma ServableFits(b: Registry.Board)
    requires CanServe(b)
    ensures Schema.MaximumSchemaFits(b)
  {
  }

  lemma SettledIsSound(b: Registry.Board, d: Driver)
    requires Settled(b, d)
    ensures Sound(b, d)
  {
    hide Sound;
  }
}
