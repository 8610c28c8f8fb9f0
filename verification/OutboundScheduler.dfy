/**
 The outbound scheduler: four critical entries drained by priority and age, one telemetry slot
 that is overwritten, and the flag that remembers an e-stop event across sessions.
 */
module Scheduling {
  import opened Common
  import Limits

  datatype Kind = CommandResponse | EstopAck | EstopTriggered | HeartbeatAck | Telemetry
  datatype Completion = Sent | SendFailed | CanceledBySessionEnd
  datatype Outcome = Outcome(kind: Kind, completion: Completion)
  datatype EnqueueResult = Queued | InvalidLine | TeardownRequested
  datatype TriggeredState = NotPending | PendingNotQueued | InQueue

  datatype Entry = Entry(kind: Kind, line: string)

  datatype Queue = Queue(critical: seq<Entry>, telemetry: Option<string>, triggered: TriggeredState)

  const EMPTY_QUEUE := Queue([], None, NotPending)
  const CAPACITY: nat := Limits.OUTBOUND_CRITICAL_QUEUE_CAPACITY

  /** Smaller is sent sooner. */
  function Priority(k: Kind): nat {
    if k.EstopAck? || k.EstopTriggered? then 0 else if k.HeartbeatAck? then 2 else 1
  }

  predicate IsValidLine(line: string) {
    0 < |line| <= Limits.BOARD_TX_MAX_LINE_BYTES && line[|line| - 1] == '\n'
  }

  predicate Bounded(q: Queue) {
    |q.critical| <= CAPACITY && forall k :: 0 <= k < |q.critical| ==> !q.critical[k].kind.Telemetry?
  }

  function EnqueueResultOf(q: Queue, kind: Kind, line: string): EnqueueResult {
    if kind.Telemetry? || !IsValidLine(line) then InvalidLine
    else if |q.critical| >= CAPACITY then TeardownRequested
    else Queued
  }

  function Enqueued(q: Queue, kind: Kind, line: string): Queue {
    if !EnqueueResultOf(q, kind, line).Queued? then q
    else Queue(q.critical + [Entry(kind, line)], q.telemetry, if kind.EstopTriggered? then InQueue else q.triggered)
  }

  function Marked(q: Queue): Queue {
    if q.triggered.NotPending? then q.(triggered := PendingNotQueued) else q
  }

  function TelemetryReplaced(q: Queue, line: string): Queue {
    if IsValidLine(line) then q.(telemetry := Some(line)) else q
  }

  predicate HasPending(q: Queue) {
    |q.critical| > 0 || q.telemetry.Some?
  }

  /** The oldest entry of the best class present. */
  predicate OldestOfBest(entries: seq<Entry>, i: nat) {
    && i < |entries|
    && (forall j :: 0 <= j < |entries| ==> Priority(entries[i].kind) <= Priority(entries[j].kind))
    && (forall j :: 0 <= j < i ==> Priority(entries[i].kind) < Priority(entries[j].kind))
  }

  function Selected(entries: seq<Entry>): (i: nat)
    requires entries != []
    ensures OldestOfBest(entries, i)
  {
    var n := |entries| - 1;
    if n == 0 then 0
    else
      var i := Selected(entries[..n]);
      if Priority(entries[n].kind) < Priority(entries[i].kind) then n else i
  }

  lemma SelectedNext(entries: seq<Entry>, more: seq<Entry>)
    requires entries != [] && |more| == |entries| + 1 && more[..|entries|] == entries
    ensures var i := Selected(entries);
            Selected(more) == if Priority(more[|entries|].kind) < Priority(entries[i].kind) then |entries| else i
  {
  }

  function Without(entries: seq<Entry>, i: nat): seq<Entry>
    requires i < |entries|
  {
    entries[..i] + entries[i + 1..]
  }

  /** The next line to send. */
  function Next(q: Queue): (e: Entry)
    requires HasPending(q)
  {
    if |q.critical| > 0 then q.critical[Selected(q.critical)] else Entry(Telemetry, q.telemetry.value)
  }

  /** The queue once the next line has been handed to the session, whatever became of it. */
  function Drained(q: Queue): Queue
    requires HasPending(q)
  {
    if |q.critical| > 0 then
      var i := Selected(q.critical);
      Queue(Without(q.critical, i), q.telemetry, if q.critical[i].kind.EstopTriggered? then NotPending else q.triggered)
    else q.(telemetry := None)
  }

  predicate HoldsTriggered(entries: seq<Entry>) {
    exists k :: 0 <= k < |entries| && entries[k].kind.EstopTriggered?
  }

  function Cleared(q: Queue): Queue {
    Queue([], None, if HoldsTriggered(q.critical) then PendingNotQueued else q.triggered)
  }

  /** One cancellation for each entry, the telemetry frame last. */
  function Cancellations(q: Queue): seq<Outcome> {
    CriticalCancellations(q.critical) + if q.telemetry.Some? then [Outcome(Telemetry, CanceledBySessionEnd)] else []
  }

  function CriticalCancellations(entries: seq<Entry>): (os: seq<Outcome>)
    ensures |os| == |entries|
    ensures forall k :: 0 <= k < |os| ==> os[k] == Outcome(entries[k].kind, CanceledBySessionEnd)
  {
    seq(|entries|, i requires 0 <= i < |entries| => Outcome(entries[i].kind, CanceledBySessionEnd))
  }

  // ---------------------------------------------------------------------------------------
  // Order and conservation over whole runs.

  /** The entries of one priority class, in order. */
  function OfClass(entries: seq<Entry>, p: nat): seq<Entry> {
    if entries == [] then []
    else
      var n := |entries| - 1;
      OfClass(entries[..n], p) + if Priority(entries[n].kind) == p then [entries[n]] else []
  }

  lemma {:induction false} OfClassConcat(a: seq<Entry>, b: seq<Entry>, p: nat)
    ensures OfClass(a + b, p) == OfClass(a, p) + OfClass(b, p)
  {
    if b == [] {
      assert a + b == a;
    } else {
      var n := |b| - 1;
      OfClassConcat(a, b[..n], p);
      assert (a + b)[..|a| + n] == a + b[..n];
    }
  }

  lemma OfClassOne(e: Entry, p: nat)
    ensures OfClass([e], p) == if Priority(e.kind) == p then [e] else []
  {
    assert [e][..0] == [];
  }

  lemma {:induction false} OfClassNone(a: seq<Entry>, p: nat)
    requires forall j :: 0 <= j < |a| ==> Priority(a[j].kind) != p
    ensures OfClass(a, p) == []
  {
    if a != [] {
      OfClassNone(a[..|a| - 1], p);
    }
  }

  /** Taking the oldest of the best class takes the head of its class and disturbs no other. */
  lemma SelectionIsFifo(entries: seq<Entry>, i: nat, p: nat)
    requires OldestOfBest(entries, i)
    ensures OfClass(entries, p) == OfClass([entries[i]], p) + OfClass(Without(entries, i), p)
  {
    var a, e, b := entries[..i], entries[i], entries[i + 1..];
    assert entries == a + ([e] + b);
    OfClassConcat(a, [e] + b, p);
    OfClassConcat([e], b, p);
    OfClassConcat(a, b, p);
    OfClassOne(e, p);
    if Priority(e.kind) == p {
      OfClassNone(a, p);
    }
    SkipEmpty(OfClass(a, p), OfClass([e], p), OfClass(b, p));
  }

  lemma SkipEmpty<T>(x: seq<T>, y: seq<T>, z: seq<T>)
    requires x == [] || y == []
    ensures x + (y + z) == y + (x + z)
  {
  }

  datatype Action =
    | Enqueue(kind: Kind, line: string)
    | ReplaceTelemetry(line: string)
    | Drain(sent: bool)
    | EndSession
    | MarkTriggered

  /** A run: what entered the critical queue, what left it and how, and the fate of each telemetry frame. */
  datatype Run = Run(queue: Queue, entered: seq<Entry>, left: seq<Entry>, outcomes: seq<Outcome>,
                     frames: nat, coalesced: nat, framesOut: nat)

  function Step(r: Run, a: Action): Run {
    match a
    case Enqueue(kind, line) =>
      if EnqueueResultOf(r.queue, kind, line).Queued?
      then r.(queue := Enqueued(r.queue, kind, line), entered := r.entered + [Entry(kind, line)]) else r
    case ReplaceTelemetry(line) =>
      if IsValidLine(line)
      then r.(queue := TelemetryReplaced(r.queue, line), frames := r.frames + 1,
              coalesced := r.coalesced + if r.queue.telemetry.Some? then 1 else 0) else r
    case Drain(sent) =>
      if !HasPending(r.queue) then r
      else
        var e := Next(r.queue);
        r.(queue := Drained(r.queue), outcomes := r.outcomes + [Outcome(e.kind, if sent then Sent else SendFailed)],
           left := if r.queue.critical != [] then r.left + [e] else r.left,
           framesOut := if r.queue.critical != [] then r.framesOut else r.framesOut + 1)
    case EndSession =>
      r.(queue := Cleared(r.queue), outcomes := r.outcomes + Cancellations(r.queue), left := r.left + r.queue.critical,
         framesOut := r.framesOut + if r.queue.telemetry.Some? then 1 else 0)
    case MarkTriggered => r.(queue := Marked(r.queue))
  }

  function Play(actions: seq<Action>): Run {
    if actions == [] then Run(EMPTY_QUEUE, [], [], [], 0, 0, 0)
    else Step(Play(actions[..|actions| - 1]), actions[|actions| - 1])
  }

  ghost predicate Conserved(r: Run) {
    && Bounded(r.queue)
    && Fifo(r.entered, r.left, r.queue.critical)
    && r.frames == r.coalesced + r.framesOut + (if r.queue.telemetry.Some? then 1 else 0)
    && CriticalKinds(r.outcomes) == Kinds(r.left)
    && FrameOutcomes(r.outcomes) == r.framesOut
    && |r.entered| == |r.left| + |r.queue.critical|
  }

  function Kinds(entries: seq<Entry>): seq<Kind> {
    seq(|entries|, i requires 0 <= i < |entries| => entries[i].kind)
  }

  /** The outcomes of critical entries, in order, by kind. */
  function CriticalKinds(outcomes: seq<Outcome>): seq<Kind> {
    if outcomes == [] then []
    else
      var n := |outcomes| - 1;
      CriticalKinds(outcomes[..n]) + if outcomes[n].kind.Telemetry? then [] else [outcomes[n].kind]
  }

  /** How many telemetry frames have an outcome. */
  function FrameOutcomes(outcomes: seq<Outcome>): nat {
    if outcomes == [] then 0
    else FrameOutcomes(outcomes[..|outcomes| - 1]) + if outcomes[|outcomes| - 1].kind.Telemetry? then 1 else 0
  }

  lemma OneMoreOutcome(outcomes: seq<Outcome>, o: Outcome)
    ensures CriticalKinds(outcomes + [o]) == CriticalKinds(outcomes) + if o.kind.Telemetry? then [] else [o.kind]
    ensures FrameOutcomes(outcomes + [o]) == FrameOutcomes(outcomes) + if o.kind.Telemetry? then 1 else 0
  {
    assert (outcomes + [o])[..|outcomes|] == outcomes;
  }

  lemma LastOf(entries: seq<Entry>)
    requires entries != []
    ensures var n := |entries| - 1;
            && Kinds(entries) == Kinds(entries[..n]) + [entries[n].kind]
            && CriticalCancellations(entries) ==
                 CriticalCancellations(entries[..n]) + [Outcome(entries[n].kind, CanceledBySessionEnd)]
  {
  }

  /** Canceling critical entries reports each of them once, in order. */
  lemma {:induction false} CancelingReportsEach(outcomes: seq<Outcome>, entries: seq<Entry>)
    requires forall k :: 0 <= k < |entries| ==> !entries[k].kind.Telemetry?
    ensures CriticalKinds(outcomes + CriticalCancellations(entries)) == CriticalKinds(outcomes) + Kinds(entries)
    ensures FrameOutcomes(outcomes + CriticalCancellations(entries)) == FrameOutcomes(outcomes)
    decreases |entries|
  {
    hide CriticalKinds, FrameOutcomes, Kinds;
    if entries == [] {
      assert outcomes + CriticalCancellations(entries) == outcomes;
      NoKinds(outcomes);
    } else {
      var n := |entries| - 1;
      CancelingReportsEach(outcomes, entries[..n]);
      LastOf(entries);
      var before, o := outcomes + CriticalCancellations(entries[..n]), Outcome(entries[n].kind, CanceledBySessionEnd);
      OneMoreOutcome(before, o);
      Assoc(outcomes, CriticalCancellations(entries[..n]), [o]);
      Assoc(CriticalKinds(outcomes), Kinds(entries[..n]), [entries[n].kind]);
    }
  }

  lemma NoKinds(outcomes: seq<Outcome>)
    ensures CriticalKinds(outcomes) + Kinds([]) == CriticalKinds(outcomes)
  {
  }

  /** Ending a session reports each entry once, and the frame in the slot, if any, once. */
  lemma EndingReportsEach(outcomes: seq<Outcome>, q: Queue)
    requires Bounded(q)
    ensures CriticalKinds(outcomes + Cancellations(q)) == CriticalKinds(outcomes) + Kinds(q.critical)
    ensures FrameOutcomes(outcomes + Cancellations(q)) == FrameOutcomes(outcomes) + if q.telemetry.Some? then 1 else 0
  {
    CancelingReportsEach(outcomes, q.critical);
    var all := outcomes + CriticalCancellations(q.critical);
    if q.telemetry.Some? {
      OneMoreOutcome(all, Outcome(Telemetry, CanceledBySessionEnd));
      assert outcomes + Cancellations(q) == all + [Outcome(Telemetry, CanceledBySessionEnd)];
    } else {
      assert outcomes + Cancellations(q) == all;
    }
  }

  lemma KindsConcat(a: seq<Entry>, b: seq<Entry>)
    ensures Kinds(a + b) == Kinds(a) + Kinds(b)
  {
  }

  lemma KindsAppend(entries: seq<Entry>, e: Entry)
    ensures Kinds(entries + [e]) == Kinds(entries) + [e.kind]
  {
  }

  /** What entered a class is what left it and then what waits in it. */
  ghost predicate Fifo(entered: seq<Entry>, left: seq<Entry>, waiting: seq<Entry>) {
    forall p :: OfClass(entered, p) == OfClass(left, p) + OfClass(waiting, p)
  }

  lemma EnqueueIsFifo(entered: seq<Entry>, left: seq<Entry>, waiting: seq<Entry>, e: Entry)
    requires Fifo(entered, left, waiting)
    ensures Fifo(entered + [e], left, waiting + [e])
  {
    forall p ensures OfClass(entered + [e], p) == OfClass(left, p) + OfClass(waiting + [e], p) {
      OfClassConcat(entered, [e], p);
      OfClassConcat(waiting, [e], p);
      Assoc(OfClass(left, p), OfClass(waiting, p), OfClass([e], p));
    }
  }

  lemma DrainIsFifo(entered: seq<Entry>, left: seq<Entry>, waiting: seq<Entry>, i: nat)
    requires Fifo(entered, left, waiting) && OldestOfBest(waiting, i)
    ensures Fifo(entered, left + [waiting[i]], Without(waiting, i))
  {
    forall p ensures OfClass(entered, p) == OfClass(left + [waiting[i]], p) + OfClass(Without(waiting, i), p) {
      SelectionIsFifo(waiting, i, p);
      OfClassConcat(left, [waiting[i]], p);
      Assoc(OfClass(left, p), OfClass([waiting[i]], p), OfClass(Without(waiting, i), p));
    }
  }

  lemma ClearIsFifo(entered: seq<Entry>, left: seq<Entry>, waiting: seq<Entry>)
    requires Fifo(entered, left, waiting)
    ensures Fifo(entered, left + waiting, [])
  {
    forall p ensures OfClass(entered, p) == OfClass(left + waiting, p) + OfClass([], p) {
      OfClassConcat(left, waiting, p);
    }
  }

  lemma DrainConserves(r: Run, sent: bool)
    requires Conserved(r) && HasPending(r.queue)
    ensures Conserved(Step(r, Drain(sent)))
  {
    hide CriticalKinds, FrameOutcomes, Fifo, Kinds;
    var e := Next(r.queue);
    OneMoreOutcome(r.outcomes, Outcome(e.kind, if sent then Sent else SendFailed));
    if r.queue.critical != [] {
      DrainIsFifo(r.entered, r.left, r.queue.critical, Selected(r.queue.critical));
      KindsAppend(r.left, e);
    }
  }

  lemma EndConserves(r: Run)
    requires Conserved(r)
    ensures Conserved(Step(r, EndSession))
  {
    hide CriticalKinds, FrameOutcomes, Fifo, Kinds, Cancellations;
    ClearIsFifo(r.entered, r.left, r.queue.critical);
    EndingReportsEach(r.outcomes, r.queue);
    KindsConcat(r.left, r.queue.critical);
  }

  lemma StepConserves(r: Run, a: Action)
    requires Conserved(r)
    ensures Conserved(Step(r, a))
  {
    hide CriticalKinds, FrameOutcomes, Fifo, Kinds, Cancellations, Selected;
    match a
    case Enqueue(kind, line) => EnqueueIsFifo(r.entered, r.left, r.queue.critical, Entry(kind, line));
    case Drain(sent) => if HasPending(r.queue) { DrainConserves(r, sent); }
    case EndSession => EndConserves(r);
    case _ =>
  }

  /**
   Over every run, each priority class is a queue: what left it followed by what waits in it is
   exactly what entered it, bytes and order included; the outcomes of critical entries are, in order
   and kind for kind, those of the entries that left; and every telemetry frame is coalesced, has one
   outcome, or is the one pending.
   */
  lemma {:induction false} SchedulerConserves(actions: seq<Action>)
    ensures Conserved(Play(actions))
  {
    if actions != [] {
      SchedulerConserves(actions[..|actions| - 1]);
      StepConserves(Play(actions[..|actions| - 1]), actions[|actions| - 1]);
    }
  }

  /** A drain never passes over a better class, and telemetry goes only when nothing critical waits. */
  lemma DrainTakesTheBest(q: Queue)
    requires Bounded(q) && HasPending(q)
    ensures Next(q).kind.Telemetry? <==> q.critical == []
    ensures q.critical != [] ==> exists i: nat :: OldestOfBest(q.critical, i) && Next(q) == q.critical[i]
                                             && Drained(q).critical == Without(q.critical, i)
    ensures forall i: nat, j: nat :: OldestOfBest(q.critical, i) && OldestOfBest(q.critical, j) ==> i == j
  {
    if q.critical != [] {
      assert OldestOfBest(q.critical, Selected(q.critical));
    }
  }

  predicate IsSafety(k: Kind) {
    k.EstopAck? || k.EstopTriggered?
  }

  /** Safety lines overtake everything; a heartbeat acknowledgement waits for every other critical line. */
  lemma SafetyGoesFirst(q: Queue)
    requires Bounded(q) && HasPending(q)
    ensures (exists k :: 0 <= k < |q.critical| && IsSafety(q.critical[k].kind)) ==> IsSafety(Next(q).kind)
    ensures Next(q).kind.HeartbeatAck? ==> forall k :: 0 <= k < |q.critical| ==> q.critical[k].kind.HeartbeatAck?
  {
  }

  // ---------------------------------------------------------------------------------------
  // The scheduler's fixed slots.

  lemma ShiftedIsWithout(before: seq<Entry>, i: nat, after: seq<Entry>)
    requires i < |before| && |after| == |before| - 1
    requires forall k :: 0 <= k < |after| ==> after[k] == before[if k < i then k else k + 1]
    ensures after == Without(before, i)
  {
  }

  datatype CriticalEntry = CriticalEntry(kind: Kind, priority: nat, line: string, active: bool)

  const NO_ENTRY := CriticalEntry(CommandResponse, 1, "", false)

  class OutboundScheduler {
    const critical: array<CriticalEntry>
    var criticalCount: nat
    var telemetryLine: string
    var telemetryActive: bool
    var triggered: TriggeredState

    ghost predicate Valid()
      reads this, critical
    {
      && critical.Length == CAPACITY && criticalCount <= CAPACITY
      && (forall k :: 0 <= k < criticalCount ==>
            !critical[k].kind.Telemetry? && critical[k].priority == Priority(critical[k].kind) && critical[k].active)
    }

    /** The entries in the first `n` slots. */
    ghost function Entries(n: nat): (es: seq<Entry>)
      requires n <= critical.Length
      reads critical
      ensures |es| == n && forall k :: 0 <= k < n ==> es[k] == Entry(critical[k].kind, critical[k].line)
    {
      seq(n, i requires 0 <= i < n reads critical => Entry(critical[i].kind, critical[i].line))
    }

    ghost function Model(): (q: Queue)
      requires Valid()
      reads this, critical
      ensures Bounded(q)
    {
      Queue(Entries(criticalCount), if telemetryActive then Some(telemetryLine) else None, triggered)
    }

    constructor ()
      ensures Valid() && Model() == EMPTY_QUEUE && fresh(critical)
    {
      critical := new CriticalEntry[CAPACITY](_ => NO_ENTRY);
      criticalCount, telemetryLine, telemetryActive, triggered := 0, "", false, NotPending;
    }

    method EnqueueCritical(kind: Kind, line: string) returns (result: EnqueueResult)
      requires Valid()
      modifies this, critical
      ensures Valid() && Model() == Enqueued(old(Model()), kind, line)
      ensures result == EnqueueResultOf(old(Model()), kind, line)
    {
      if kind == Telemetry || !IsValidLine(line) {
        return InvalidLine;
      }
      if criticalCount >= CAPACITY {
        return TeardownRequested;
      }
      critical[criticalCount] := CriticalEntry(kind, Priority(kind), line, true);
      criticalCount := criticalCount + 1;
      if kind == EstopTriggered {
        triggered := InQueue;
      }
      assert Entries(criticalCount) == old(Entries(criticalCount)) + [Entry(kind, line)];
      return Queued;
    }

    method MarkEstopTriggeredPending()
      requires Valid()
      modifies this
      ensures Valid() && Model() == Marked(old(Model()))
    {
      if triggered == NotPending {
        triggered := PendingNotQueued;
      }
    }

    /** `coalesced` says whether a frame that was never sent is overwritten. */
    method ReplaceTelemetryLine(line: string) returns (result: EnqueueResult, coalesced: bool)
      requires Valid()
      modifies this
      ensures Valid() && Model() == TelemetryReplaced(old(Model()), line)
      ensures result == if IsValidLine(line) then Queued else InvalidLine
      ensures coalesced <==> IsValidLine(line) && old(Model()).telemetry.Some?
    {
      if !IsValidLine(line) {
        return InvalidLine, false;
      }
      coalesced := telemetryActive;
      telemetryLine := line;
      telemetryActive := true;
      result := Queued;
    }

    method SelectCriticalIndex() returns (selected: int)
      requires Valid()
      ensures selected == if criticalCount == 0 then -1 else Selected(Model().critical)
    {
      hide Selected;
      if criticalCount == 0 {
        return -1;
      }
      selected := 0;
      var i := 1;
      while i < criticalCount
        invariant 1 <= i <= criticalCount
        invariant 0 <= selected < i && selected == Selected(Entries(i))
      {
        SelectedNext(Entries(i), Entries(i + 1));
        if critical[i].priority < critical[selected].priority {
          selected := i;
        }
        i := i + 1;
      }
    }

    method RemoveCritical(index: nat)
      requires Valid() && index < criticalCount
      modifies this, critical
      ensures Valid()
      ensures var q := old(Model());
              Model() == Queue(Without(q.critical, index), q.telemetry,
                               if q.critical[index].kind.EstopTriggered? then NotPending else q.triggered)
    {
      hide Priority, Selected;
      ghost var before := Entries(criticalCount);
      if critical[index].kind == EstopTriggered {
        triggered := NotPending;
      }
      ShiftDown(index);
      criticalCount := criticalCount - 1;
      critical[criticalCount] := NO_ENTRY;
      ShiftedIsWithout(before, index, Entries(criticalCount));
    }

    method ShiftDown(index: nat)
      requires index < criticalCount <= critical.Length
      modifies critical
      ensures forall k :: 0 <= k < criticalCount - 1 ==> critical[k] == old(if k < index then critical[k] else critical[k + 1])
    {
      var i := index;
      while i + 1 < criticalCount
        invariant index <= i < criticalCount
        invariant forall k :: 0 <= k < i ==> critical[k] == old(if k < index then critical[k] else critical[k + 1])
        invariant forall k :: i <= k < critical.Length ==> critical[k] == old(critical[k])
      {
        critical[i] := critical[i + 1];
        i := i + 1;
      }
    }

    method ClearTelemetry()
      requires Valid()
      modifies this
      ensures Valid() && Model() == old(Model()).(telemetry := None)
    {
      telemetryActive := false;
      telemetryLine := "";
    }

    /** The batch has room for every entry and the telemetry frame. */
    method ClearForSessionEnd() returns (batch: seq<Outcome>)
      requires Valid()
      modifies this, critical
      ensures Valid() && Model() == Cleared(old(Model()))
      ensures batch == Cancellations(old(Model())) && |batch| <= CAPACITY + 1
    {
      batch := [];
      ghost var q := Model();
      var i := 0;
      while i < criticalCount
        invariant i <= criticalCount == old(criticalCount) && Valid()
        invariant Model() == q.(triggered := if HoldsTriggered(q.critical[..i]) then PendingNotQueued else q.triggered)
        invariant batch == CriticalCancellations(q.critical)[..i]
      {
        batch := batch + [Outcome(critical[i].kind, CanceledBySessionEnd)];
        assert q.critical[..i + 1] == q.critical[..i] + [q.critical[i]];
        if critical[i].kind == EstopTriggered {
          triggered := PendingNotQueued;
          assert q.critical[..i + 1][i].kind.EstopTriggered?;
        } else {
          assert HoldsTriggered(q.critical[..i + 1]) ==> HoldsTriggered(q.critical[..i]);
          assert HoldsTriggered(q.critical[..i]) ==> HoldsTriggered(q.critical[..i + 1]) by {
            if HoldsTriggered(q.critical[..i]) {
              var k :| 0 <= k < i && q.critical[..i][k].kind.EstopTriggered?;
              assert q.critical[..i + 1][k].kind.EstopTriggered?;
            }
          }
        }
        i := i + 1;
      }
      assert q.critical[..i] == q.critical;
      criticalCount := 0;
      forall k | 0 <= k < critical.Length {
        critical[k] := NO_ENTRY;
      }
      if telemetryActive {
        batch := batch + [Outcome(Telemetry, CanceledBySessionEnd)];
        telemetryActive := false;
        telemetryLine := "";
      }
    }
  }
}
