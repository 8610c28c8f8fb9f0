/**
 The e-stop handler: a board-local `estop_triggered` event that survives failed sends and lost
 sessions, and the acknowledgement of a controller e-stop, sent only after the board's hook
 reported a safe state.
 */
module EstopHandling {
  import opened Common
  import opened Scheduling
  import opened EventLines
  import Platform
  import Limits

  // ---------------------------------------------------------------------------------------
  // The pending event as a value.

  datatype Pending = NothingPending | NotQueued(reason: cstring, timestamp: uint64) | AwaitingCompletion(reason: cstring, timestamp: uint64)

  datatype RequestStatus = Accepted | CapacityExceeded

  function RequestStatusOf(p: Pending, reason: Option<cstring>): RequestStatus {
    if !p.NothingPending? || reason.None? || |reason.value| > Limits.ESTOP_REASON_MAX_BYTES then CapacityExceeded else Accepted
  }

  function Requested(p: Pending, reason: Option<cstring>, now: uint64): Pending {
    if RequestStatusOf(p, reason).Accepted? then NotQueued(reason.value, now) else p
  }

  function QueueAfterRequest(p: Pending, q: Queue, reason: Option<cstring>): Queue {
    if RequestStatusOf(p, reason).Accepted? then Marked(q) else q
  }

  function EventLine(p: Pending, boardId: cstring): Option<string>
    requires !p.NothingPending?
  {
    TriggeredLine(boardId, p.timestamp, p.reason)
  }

  /** One service of the handler: queue the event if it waits. */
  function ServicedQueue(p: Pending, q: Queue, boardId: cstring): Queue {
    if !p.NotQueued? || EventLine(p, boardId).None? then q
    else
      var e := Enqueued(Marked(q), EstopTriggered, EventLine(p, boardId).value);
      if EnqueueResultOf(q, EstopTriggered, EventLine(p, boardId).value).Queued? then e else Marked(e)
  }

  function Serviced(p: Pending, q: Queue, boardId: cstring): Pending {
    if p.NotQueued? && EventLine(p, boardId).Some? && EnqueueResultOf(q, EstopTriggered, EventLine(p, boardId).value).Queued?
    then AwaitingCompletion(p.reason, p.timestamp) else p
  }

  /** Whether the service asks for the session to end. */
  predicate ServiceFails(p: Pending, q: Queue, boardId: cstring) {
    p.NotQueued? && (EventLine(p, boardId).None? ||
                     EnqueueResultOf(q, EstopTriggered, EventLine(p, boardId).value).TeardownRequested?)
  }

  function Resolved(p: Pending, o: Outcome): Pending {
    if !o.kind.EstopTriggered? || !p.AwaitingCompletion? then p
    else if o.completion.Sent? then NothingPending
    else NotQueued(p.reason, p.timestamp)
  }

  function QueueAfterOutcome(p: Pending, q: Queue, o: Outcome): Queue {
    if o.kind.EstopTriggered? && p.AwaitingCompletion? && !o.completion.Sent? then Marked(q) else q
  }

  function ResolvedAll(p: Pending, os: seq<Outcome>): Pending {
    if os == [] then p else Resolved(ResolvedAll(p, os[..|os| - 1]), os[|os| - 1])
  }

  function QueueAfterAll(p: Pending, q: Queue, os: seq<Outcome>): Queue {
    if os == [] then q
    else QueueAfterOutcome(ResolvedAll(p, os[..|os| - 1]), QueueAfterAll(p, q, os[..|os| - 1]), os[|os| - 1])
  }

  // ---------------------------------------------------------------------------------------
  // Handler and scheduler agree, and never more than one copy is queued.

  function TriggeredEntries(entries: seq<Entry>): seq<Entry> {
    if entries == [] then []
    else
      var n := |entries| - 1;
      TriggeredEntries(entries[..n]) + if entries[n].kind.EstopTriggered? then [entries[n]] else []
  }

  lemma {:induction false} TriggeredConcat(a: seq<Entry>, b: seq<Entry>)
    ensures TriggeredEntries(a + b) == TriggeredEntries(a) + TriggeredEntries(b)
  {
    if b == [] {
      assert a + b == a;
    } else {
      var n := |b| - 1;
      TriggeredConcat(a, b[..n]);
      assert (a + b)[..|a| + n] == a + b[..n];
    }
  }

  lemma TriggeredOne(e: Entry)
    ensures TriggeredEntries([e]) == if e.kind.EstopTriggered? then [e] else []
  {
    assert [e][..0] == [];
  }

  lemma TriggeredWithout(entries: seq<Entry>, i: nat)
    requires i < |entries| && |TriggeredEntries(entries)| <= 1
    ensures TriggeredEntries(Without(entries, i)) == if entries[i].kind.EstopTriggered? then [] else TriggeredEntries(entries)
    ensures entries[i].kind.EstopTriggered? ==> TriggeredEntries(entries) == [entries[i]]
  {
    hide TriggeredEntries;
    var a, e, b := entries[..i], entries[i], entries[i + 1..];
    assert entries == a + ([e] + b);
    TriggeredConcat(a, [e] + b);
    TriggeredConcat([e], b);
    TriggeredConcat(a, b);
    TriggeredOne(e);
  }

  lemma {:induction false} HoldsTriggeredIff(entries: seq<Entry>)
    ensures HoldsTriggered(entries) <==> TriggeredEntries(entries) != []
  {
    if entries != [] {
      var n := |entries| - 1;
      HoldsTriggeredIff(entries[..n]);
      if HoldsTriggered(entries) && !entries[n].kind.EstopTriggered? {
        var k :| 0 <= k < |entries| && entries[k].kind.EstopTriggered?;
        assert entries[..n][k].kind.EstopTriggered?;
      }
      if HoldsTriggered(entries[..n]) {
        var k :| 0 <= k < n && entries[..n][k].kind.EstopTriggered?;
        assert entries[k].kind.EstopTriggered?;
      }
    }
  }

  predicate ReasonFits(p: Pending) {
    p.NothingPending? || |p.reason| <= Limits.ESTOP_REASON_MAX_BYTES
  }

  /** The handler's state, the scheduler's flag and the queued copies say the same thing. */
  predicate Agree(p: Pending, q: Queue, boardId: cstring) {
    && ReasonFits(p) && |boardId| <= Limits.MAX_BOARD_ID_BYTES
    && match p
       case NothingPending => q.triggered == NotPending && TriggeredEntries(q.critical) == []
       case NotQueued(_, _) => q.triggered == TriggeredState.PendingNotQueued && TriggeredEntries(q.critical) == []
       case AwaitingCompletion(_, _) =>
         && q.triggered == InQueue && EventLine(p, boardId).Some?
         && TriggeredEntries(q.critical) == [Entry(EstopTriggered, EventLine(p, boardId).value)]
  }

  lemma RequestAgrees(p: Pending, q: Queue, boardId: cstring, reason: Option<cstring>, now: uint64)
    requires Agree(p, q, boardId)
    ensures Agree(Requested(p, reason, now), QueueAfterRequest(p, q, reason), boardId)
  {
  }

  lemma EventFits(p: Pending, boardId: cstring)
    requires !p.NothingPending? && ReasonFits(p) && |boardId| <= Limits.MAX_BOARD_ID_BYTES
    ensures EventLine(p, boardId).Some? && IsValidLine(EventLine(p, boardId).value)
  {
    hide TriggeredLine;
    TriggeredLineFits(boardId, p.timestamp, p.reason);
  }

  /** The line always fits, so a service fails only when the queue is full. */
  lemma ServiceAgrees(p: Pending, q: Queue, boardId: cstring)
    requires Agree(p, q, boardId) && Bounded(q)
    ensures Agree(Serviced(p, q, boardId), ServicedQueue(p, q, boardId), boardId)
    ensures Bounded(ServicedQueue(p, q, boardId))
    ensures ServiceFails(p, q, boardId) <==> p.NotQueued? && |q.critical| == CAPACITY
    ensures ServicedQueue(p, q, boardId).critical ==
              if p.NotQueued? && |q.critical| < CAPACITY
              then q.critical + [Entry(EstopTriggered, EventLine(p, boardId).value)] else q.critical
    ensures p.NotQueued? ==> EventLine(p, boardId).Some?
  {
    hide TriggeredLine, IsValidLine, TriggeredEntries;
    if p.NotQueued? {
      EventFits(p, boardId);
      var e := Entry(EstopTriggered, EventLine(p, boardId).value);
      TriggeredConcat(q.critical, [e]);
      TriggeredOne(e);
    }
  }

  /** Any other entry leaves the agreement alone. */
  lemma EnqueueAgrees(p: Pending, q: Queue, boardId: cstring, kind: Kind, line: string)
    requires Agree(p, q, boardId) && !kind.EstopTriggered?
    ensures Agree(p, Enqueued(q, kind, line), boardId)
  {
    TriggeredConcat(q.critical, [Entry(kind, line)]);
    TriggeredOne(Entry(kind, line));
  }

  /** A drain breaks the agreement and routing its outcome restores it; only a confirmed send forgets the event. */
  lemma DrainAgrees(p: Pending, q: Queue, boardId: cstring, sent: bool)
    requires Agree(p, q, boardId) && Bounded(q) && HasPending(q)
    ensures var o := Outcome(Next(q).kind, if sent then Sent else SendFailed);
            && Agree(Resolved(p, o), QueueAfterOutcome(p, Drained(q), o), boardId)
            && (Resolved(p, o).NothingPending? <==> p.NothingPending? || (o.kind.EstopTriggered? && sent))
            && (!Resolved(p, o).NothingPending? ==> Resolved(p, o).reason == p.reason && Resolved(p, o).timestamp == p.timestamp)
  {
    if |q.critical| > 0 {
      TriggeredWithout(q.critical, Selected(q.critical));
    }
  }

  /** The event that is drained is the pending one, with the reason and time it was requested with. */
  lemma DrainedEventIsPending(p: Pending, q: Queue, boardId: cstring)
    requires Agree(p, q, boardId) && Bounded(q) && HasPending(q) && Next(q).kind.EstopTriggered?
    ensures p.AwaitingCompletion? && EventLine(p, boardId) == Some(Next(q).line)
  {
    hide TriggeredLine;
    TriggeredWithout(q.critical, Selected(q.critical));
  }

  lemma {:induction false} CancellationsResolve(p: Pending, q: Queue, os: seq<Outcome>)
    requires forall k :: 0 <= k < |os| ==> os[k].completion.CanceledBySessionEnd?
    ensures ResolvedAll(p, os) == if p.AwaitingCompletion? && (exists k :: 0 <= k < |os| && os[k].kind.EstopTriggered?)
                                  then NotQueued(p.reason, p.timestamp) else p
    ensures QueueAfterAll(p, q, os) == if p.AwaitingCompletion? && (exists k :: 0 <= k < |os| && os[k].kind.EstopTriggered?)
                                       then Marked(q) else q
  {
    if os != [] {
      var n := |os| - 1;
      CancellationsResolve(p, q, os[..n]);
      assert forall k :: 0 <= k < n ==> os[..n][k] == os[k];
      if exists k :: 0 <= k < |os| && os[k].kind.EstopTriggered? {
        var k :| 0 <= k < |os| && os[k].kind.EstopTriggered?;
        assert k < n ==> os[..n][k].kind.EstopTriggered?;
      }
    }
  }

  /** Ending a session returns the event to waiting and loses nothing of it. */
  lemma EndSessionAgrees(p: Pending, q: Queue, boardId: cstring)
    requires Agree(p, q, boardId)
    ensures var os := Cancellations(q);
            && Agree(ResolvedAll(p, os), QueueAfterAll(p, Cleared(q), os), boardId)
            && QueueAfterAll(p, Cleared(q), os).critical == [] && QueueAfterAll(p, Cleared(q), os).telemetry == None
            && (ResolvedAll(p, os).NothingPending? <==> p.NothingPending?)
            && (!p.NothingPending? ==> ResolvedAll(p, os).reason == p.reason && ResolvedAll(p, os).timestamp == p.timestamp)
  {
    var os := Cancellations(q);
    CancellationsResolve(p, Cleared(q), os);
    HoldsTriggeredIff(q.critical);
    if HoldsTriggered(q.critical) {
      var k :| 0 <= k < |q.critical| && q.critical[k].kind.EstopTriggered?;
      assert os[k].kind.EstopTriggered?;
    }
    assert p.AwaitingCompletion? ==> HoldsTriggered(q.critical);
  }

  // ---------------------------------------------------------------------------------------
  // The handler.

  datatype PendingState = Empty | PendingNotQueued | QueuedAwaitingCompletion

  class EstopHandler {
    var state: PendingState
    var reason: cstring
    var timestampMs: uint64

    ghost function Model(): Pending
      reads this
    {
      match state
      case Empty => NothingPending
      case PendingNotQueued => NotQueued(reason, timestampMs)
      case QueuedAwaitingCompletion => AwaitingCompletion(reason, timestampMs)
    }

    constructor ()
      ensures Model() == NothingPending
    {
      state, reason, timestampMs := Empty, "", 0;
    }

    /** The event carries the time at which it was asked for; `at` is that time, unwrapped. */
    method RequestEstopTriggered(why: Option<cstring>, clock: Platform.Clock, scheduler: OutboundScheduler)
      returns (status: RequestStatus, ghost at: nat)
      requires scheduler.Valid()
      modifies this, clock, scheduler
      ensures scheduler.Valid() && status == RequestStatusOf(old(Model()), why)
      ensures old(clock.ticks) <= at <= clock.ticks && Model() == Requested(old(Model()), why, at % TWO_64)
      ensures scheduler.Model() == QueueAfterRequest(old(Model()), old(scheduler.Model()), why)
    {
      at := clock.ticks;
      if state != Empty {
        return CapacityExceeded, at;
      }
      if why == None || |why.value| > Limits.ESTOP_REASON_MAX_BYTES {
        return CapacityExceeded, at;
      }
      reason := why.value;
      timestampMs := clock.MonotonicMilliseconds();
      at := clock.ticks;
      state := PendingState.PendingNotQueued;
      scheduler.MarkEstopTriggeredPending();
      return Accepted, at;
    }

    method Service(scheduler: OutboundScheduler, boardId: cstring) returns (teardown: bool)
      requires scheduler.Valid()
      modifies this, scheduler, scheduler.critical
      ensures scheduler.Valid()
      ensures Model() == Serviced(old(Model()), old(scheduler.Model()), boardId)
      ensures scheduler.Model() == ServicedQueue(old(Model()), old(scheduler.Model()), boardId)
      ensures teardown <==> ServiceFails(old(Model()), old(scheduler.Model()), boardId)
    {
      if state != PendingState.PendingNotQueued {
        return false;
      }
      var line := BuildTriggeredLine(boardId, timestampMs, reason);
      assert line == EventLine(Model(), boardId);
      if line == None {
        return true;
      }
      scheduler.MarkEstopTriggeredPending();
      var result := scheduler.EnqueueCritical(EstopTriggered, line.value);
      if result == Queued {
        state := QueuedAwaitingCompletion;
        return false;
      }
      scheduler.MarkEstopTriggeredPending();
      return result == TeardownRequested;
    }

    method OnOutboundOutcome(o: Outcome, scheduler: OutboundScheduler)
      requires scheduler.Valid()
      modifies this, scheduler
      ensures scheduler.Valid() && Model() == Resolved(old(Model()), o)
      ensures scheduler.Model() == QueueAfterOutcome(old(Model()), old(scheduler.Model()), o)
    {
      if o.kind != EstopTriggered || state != QueuedAwaitingCompletion {
        return;
      }
      if o.completion == Sent {
        state, reason, timestampMs := Empty, "", 0;
        return;
      }
      state := PendingState.PendingNotQueued;
      scheduler.MarkEstopTriggeredPending();
    }
  }
}
