/** Telemetry cadence and sequence numbers. */
module TelemetryScheduling {
  import opened Common
  import opened Json
  import opened LineBuilding
  import opened CounterBank
  import opened Scheduling
  import opened Applications
  import Payloads
  import Platform
  import Limits

  const PERIOD: nat := Limits.TELEMETRY_PERIOD_MS

  function NumbersText(seq_: uint64, timestamp: uint64): string {
    ("{\"type\":\"telemetry\",\"seq\":" + Decimal(seq_)) + (",\"timestamp\":" + Decimal(timestamp))
  }

  function AddressText(boardId: cstring): string {
    (",\"source\":" + Quote(boardId, Upper)) + ",\"target\":\"controller\",\"telemetry\":"
  }

  /** The telemetry line up to its payload. */
  function TelemetryPrefix(seq_: uint64, timestamp: uint64, boardId: cstring): string {
    NumbersText(seq_, timestamp) + AddressText(boardId)
  }

  /** The telemetry line around a closed payload. */
  function TelemetryText(seq_: uint64, timestamp: uint64, boardId: cstring, payload: string): string {
    TelemetryPrefix(seq_, timestamp, boardId) + payload + "}\n"
  }

  function TelemetryLine(seq_: uint64, timestamp: uint64, boardId: cstring, payload: string): Option<string> {
    var text := TelemetryText(seq_, timestamp, boardId, payload);
    if Payloads.IsObjectText(payload) && |text| <= ROOM then Some(text) else None
  }

  /** `nextSeq` counts frames without wrapping; the number on the wire is taken modulo 2^64. */
  datatype Cadence = Cadence(nextSeq: nat, active: bool, firstDue: bool, lastDue: uint64)

  const INITIAL := Cadence(1, false, true, 0)

  function Activated(t: Cadence): Cadence {
    if t.active then t else t.(active := true, firstDue := true)
  }

  /** Whether a frame is built now. The period is measured modulo 2^64. */
  predicate IsDue(t: Cadence, now: uint64) {
    Activated(t).firstDue || (now - t.lastDue) % TWO_64 >= PERIOD
  }

  /** What clock and provider answered, in true time; the provider is asked only when a frame is due. */
  datatype Provided = Provided(at: nat, ok: bool, uses: Payloads.script, stamped: nat)

  /** There is a payload unless the provider fails; it can always be closed. */
  function PayloadOf(p: Provided): Option<string> {
    if p.ok then Some(Payloads.Closed(Payloads.Filled(p.uses)).w.text) else None
  }

  function BuiltLine(t: Cadence, boardId: cstring, p: Provided): Option<string> {
    if !p.ok then None else TelemetryLine(t.nextSeq % TWO_64, p.stamped % TWO_64, boardId, PayloadOf(p).value)
  }

  /** The frame this call queues, if any. */
  function Frame(t: Cadence, boardId: cstring, p: Provided): Option<string> {
    if !IsDue(t, p.at % TWO_64) then None
    else BuiltLine(t, boardId, p)
  }

  function Serviced(t: Cadence, boardId: cstring, p: Provided): Cadence {
    var a := Activated(t);
    if !IsDue(t, p.at % TWO_64) then a
    else a.(firstDue := false, lastDue := p.at % TWO_64, nextSeq := if Frame(t, boardId, p).Some? then t.nextSeq + 1 else t.nextSeq)
  }

  /** What the provider was asked. */
  function ProviderFacts(t: Cadence, p: Provided, reasons: seq<reason>): seq<Fact> {
    if IsDue(t, p.at % TWO_64) then [ProviderRan(p.ok, p.uses, reasons)] else []
  }

  function Inactive(t: Cadence): Cadence {
    t.(active := false, firstDue := true)
  }

  function CountedFrame(c: Values, t: Cadence, boardId: cstring, p: Provided, overwrites: bool): Values {
    if !IsDue(t, p.at % TWO_64) then c
    else if Frame(t, boardId, p).None? then c.(telemetryDropped := c.telemetryDropped + 1)
    else if overwrites then c.(telemetryCoalesced := c.telemetryCoalesced + 1)
    else c
  }

  // ---------------------------------------------------------------------------------------
  // The line always fits.

  lemma LabelWidths()
    ensures |"{\"type\":\"telemetry\",\"seq\":"| == 26 && |",\"timestamp\":"| == 13
    ensures |",\"source\":"| == 10 && |",\"target\":\"controller\",\"telemetry\":"| == 35
  {
  }

  lemma PrefixWidth(seq_: uint64, timestamp: uint64, boardId: cstring)
    ensures |TelemetryPrefix(seq_, timestamp, boardId)| == 86 + |Decimal(seq_)| + |Decimal(timestamp)| + |Escape(boardId, Upper)|
  {
    hide Decimal, Escape;
    LabelWidths();
  }

  /** Any payload a provider can produce fits its frame, for any board id, number and time. */
  lemma TelemetryAlwaysFits(seq_: uint64, timestamp: uint64, boardId: cstring, uses: seq<Payloads.Use>)
    requires |boardId| <= Limits.MAX_BOARD_ID_BYTES && Payloads.AreUses(uses)
    ensures TelemetryLine(seq_, timestamp, boardId, Payloads.Closed(Payloads.Filled(uses)).w.text).Some?
  {
    hide Decimal, Escape, Payloads.Filled, Payloads.Closed, TelemetryPrefix;
    Payloads.PayloadAlwaysCloses(uses);
    PrefixWidth(seq_, timestamp, boardId);
    DecimalWidth(seq_, seq_);
    DecimalWidth(timestamp, timestamp);
    EscapePrintable(boardId, Upper);
  }

  // ---------------------------------------------------------------------------------------
  // Cadence within one session.

  /** True times at which frames are attempted, for service calls at the given true times in one session. */
  function Attempts(t: Cadence, times: seq<nat>): seq<nat>
    decreases |times|
  {
    if times == [] then []
    else
      var now := times[0] % TWO_64;
      var after := Activated(t).(firstDue := false, lastDue := now);
      if IsDue(t, now) then [times[0]] + Attempts(after, times[1..]) else Attempts(Activated(t), times[1..])
  }

  predicate Ascending(times: seq<nat>) {
    forall i, j :: 0 <= i < j < |times| ==> times[i] <= times[j]
  }

  predicate Spaced(times: seq<nat>) {
    forall i :: 0 < i < |times| ==> times[i] - times[i - 1] >= PERIOD
  }

  lemma ElapsedAtLeast(from: nat, to: nat)
    requires from <= to && (to % TWO_64 - from % TWO_64) % TWO_64 >= PERIOD
    ensures to - from >= PERIOD
  {
    if to - from < TWO_64 {
      ElapsedIsExact(from, to);
    }
  }

  /** Attempts after one at `last`. */
  lemma {:induction false} AttemptsAreSpaced(t: Cadence, last: nat, times: seq<nat>)
    requires t.active && !t.firstDue && t.lastDue == last % TWO_64
    requires Ascending([last] + times)
    ensures Spaced([last] + Attempts(t, times))
    decreases |times|
  {
    if times != [] {
      assert ([last] + times)[0] <= ([last] + times)[1];
      forall i, j | 0 <= i < j < |times| ensures times[i] <= times[j] {
        assert ([last] + times)[i + 1] <= ([last] + times)[j + 1];
      }
      if IsDue(t, times[0] % TWO_64) {
        ElapsedAtLeast(last, times[0]);
        assert Ascending(times);
        assert [times[0]] + times[1..] == times;
        AttemptsAreSpaced(t.(lastDue := times[0] % TWO_64), times[0], times[1..]);
      } else {
        forall i, j | 0 <= i < j < |[last] + times[1..]| ensures ([last] + times[1..])[i] <= ([last] + times[1..])[j] {
          assert ([last] + times[1..])[j] == ([last] + times)[j + 1];
          assert ([last] + times[1..])[i] == ([last] + times)[if i == 0 then 0 else i + 1];
        }
        AttemptsAreSpaced(t, last, times[1..]);
      }
    }
  }

  lemma {:induction false} SpacedSpan(times: seq<nat>, i: nat, j: nat)
    requires Spaced(times) && i <= j < |times|
    ensures times[j] - times[i] >= (j - i) * PERIOD
    decreases j
  {
    if i < j {
      SpacedSpan(times, i, j - 1);
    }
  }

  /** In one session, a window of W milliseconds holds at most W / 50 + 1 attempts. */
  lemma CadenceBound(t: Cadence, times: seq<nat>, i: nat, j: nat, window: nat)
    requires Ascending(times)
    requires var a := Attempts(Inactive(t), times); i <= j < |a| && a[j] - a[i] <= window
    ensures j - i + 1 <= window / PERIOD + 1
  {
    var a := Attempts(Inactive(t), times);
    assert times != [] && IsDue(Inactive(t), times[0] % TWO_64);
    assert [times[0]] + times[1..] == times;
    AttemptsAreSpaced(Activated(Inactive(t)).(firstDue := false, lastDue := times[0] % TWO_64), times[0], times[1..]);
    SpacedSpan(a, i, j);
  }

  // ---------------------------------------------------------------------------------------
  // The scheduler.

  class TelemetryScheduler {
    const counters: Counters
    const boardId: cstring
    const clock: Platform.Clock
    const application: Application
    const line: LineBuffer
    var nextSeq: nat
    var sessionActive: bool
    var firstFrameDue: bool
    var lastDueMs: uint64

    ghost predicate Valid()
      reads this, line, line.bytes
    {
      line.Valid()
    }

    ghost function Model(): Cadence
      reads this
    {
      Cadence(nextSeq, sessionActive, firstFrameDue, lastDueMs)
    }

    constructor (counters: Counters, boardId: cstring, clock: Platform.Clock, application: Application)
      ensures Valid() && Model() == INITIAL
      ensures this.counters == counters && this.boardId == boardId && this.clock == clock
      ensures this.application == application && fresh(line) && fresh(line.bytes)
    {
      this.counters, this.boardId, this.clock, this.application := counters, boardId, clock, application;
      line := new LineBuffer();
      nextSeq, sessionActive, firstFrameDue, lastDueMs := 1, false, true, 0;
    }

    /** The clock is read, and the provider runs only when a frame is due by that reading. */
    method Service(outbound: OutboundScheduler) returns (ghost p: Provided, reasons: seq<reason>)
      requires Valid() && outbound.Valid()
      modifies this, line, line.bytes, counters, clock, application, outbound
      ensures Valid() && outbound.Valid() && Model() == Serviced(old(Model()), boardId, p)
      ensures var f := Frame(old(Model()), boardId, p);
              outbound.Model() == if f.Some? then TelemetryReplaced(old(outbound.Model()), f.value) else old(outbound.Model())
      ensures counters.values == CountedFrame(old(counters.values), old(Model()), boardId, p, old(outbound.Model()).telemetry.Some?)
      ensures old(clock.ticks) <= p.at <= p.stamped <= clock.ticks
      ensures application.log == old(application.log) + ProviderFacts(old(Model()), p, reasons)
      ensures !IsDue(old(Model()), p.at % TWO_64) ==> reasons == []
    {
      hide TelemetryLine, Payloads.Filled, Payloads.Closed, OutboundScheduler.Valid, OutboundScheduler.Model, LineBuffer.Valid;
      if !sessionActive {
        sessionActive := true;
        firstFrameDue := true;
      }
      var now := clock.MonotonicMilliseconds();
      ghost var at := clock.ticks;
      p, reasons := Provided(at, false, [], at), [];
      if !firstFrameDue && (now - lastDueMs) % TWO_64 < PERIOD {
        return;
      }
      firstFrameDue := false;
      lastDueMs := now;
      p, reasons := BuildAndQueue(outbound, at);
    }

    method OnSessionInactive()
      modifies this
      ensures Model() == Inactive(old(Model()))
    {
      sessionActive := false;
      firstFrameDue := true;
    }

    /** What an attempt does to queue, number and counters. */
    twostate predicate Attempted(outbound: OutboundScheduler, p: Provided)
      requires old(outbound.Valid()) && outbound.Valid()
      reads this, counters, outbound, outbound.critical
    {
      var l := BuiltLine(old(Model()), boardId, p);
      if l.Some? then
        && outbound.Model() == TelemetryReplaced(old(outbound.Model()), l.value)
        && nextSeq == old(nextSeq) + 1
        && counters.values == if old(outbound.Model()).telemetry.Some?
             then old(counters.values).(telemetryCoalesced := old(counters.values).telemetryCoalesced + 1)
             else old(counters.values)
      else
        && outbound.Model() == old(outbound.Model()) && nextSeq == old(nextSeq)
        && counters.values == old(counters.values).(telemetryDropped := old(counters.values).telemetryDropped + 1)
    }

    method BuildAndQueue(outbound: OutboundScheduler, ghost at: nat) returns (ghost p: Provided, reasons: seq<reason>)
      requires Valid() && outbound.Valid() && at <= clock.ticks
      modifies this`nextSeq, line, line.bytes, counters, clock, application, outbound
      ensures Valid() && outbound.Valid() && p.at == at && Attempted(outbound, p)
      ensures old(clock.ticks) <= p.stamped <= clock.ticks
      ensures application.log == old(application.log) + [ProviderRan(p.ok, p.uses, reasons)]
    {
      hide TelemetryText, Payloads.Filled, Payloads.Closed, OutboundScheduler.Valid, OutboundScheduler.Model, IsValidLine;
      var payload;
      ghost var uses;
      payload, reasons, uses := Provide();
      p := Provided(at, payload.Some?, uses, clock.ticks);
      if payload == None {
        counters.values := counters.values.(telemetryDropped := counters.values.telemetryDropped + 1);
        return;
      }
      var timestamp := clock.MonotonicMilliseconds();
      p := p.(stamped := clock.ticks);
      var ok := BuildLine(nextSeq % TWO_64, timestamp, payload.value);
      if !ok {
        counters.values := counters.values.(telemetryDropped := counters.values.telemetryDropped + 1);
        return;
      }
      var result, coalesced := outbound.ReplaceTelemetryLine(line.bytes[..line.size]);
      if coalesced {
        counters.values := counters.values.(telemetryCoalesced := counters.values.telemetryCoalesced + 1);
      }
      // The scheduler refuses no line that was built, so the source's branch for a refusal is never taken.
      assert result == Queued;
      nextSeq := nextSeq + 1;
    }

    /** Runs the provider on a fresh payload; nothing comes of it when the provider fails. */
    method Provide() returns (payload: Option<string>, reasons: seq<reason>, ghost uses: Payloads.script)
      modifies application
      ensures application.log == old(application.log) + [ProviderRan(payload.Some?, uses, reasons)]
      ensures payload.Some? ==> payload.value == Payloads.Closed(Payloads.Filled(uses)).w.text
    {
      hide Payloads.Filled, Payloads.Closed;
      var telemetry := new Payloads.ObjectWriter();
      var ok;
      ok, reasons, uses := application.RunProvider(telemetry);
      if !ok {
        return None, reasons, uses;
      }
      Payloads.PayloadAlwaysCloses(uses);
      var closed := telemetry.Close();
      // The source drops the frame when the payload cannot be closed, which never happens.
      assert closed;
      payload := Some(telemetry.buffer[..telemetry.writer.length]);
    }

    method BuildLine(seq_: uint64, timestamp: uint64, payload: string) returns (ok: bool)
      requires Valid()
      modifies line, line.bytes
      ensures Valid()
      ensures ok <==> TelemetryLine(seq_, timestamp, boardId, payload).Some?
      ensures ok ==> line.Text() == TelemetryText(seq_, timestamp, boardId, payload) && IsValidLine(line.Text())
    {
      hide TelemetryPrefix;
      line.Reset();
      if |payload| < 2 || payload[0] != '{' || payload[|payload| - 1] != '}' {
        return false;
      }
      ok := AppendPrefix(seq_, timestamp);
      if !ok { return; }
      ok := line.AppendBytes(payload);
      if !ok { return; }
      ok := line.AppendBytes("}\n");
    }

    method AppendPrefix(seq_: uint64, timestamp: uint64) returns (ok: bool)
      requires Valid() && line.Text() == ""
      modifies line, line.bytes
      ensures Valid()
      ensures ok <==> |TelemetryPrefix(seq_, timestamp, boardId)| <= ROOM
      ensures ok ==> line.Text() == TelemetryPrefix(seq_, timestamp, boardId)
    {
      hide NumbersText, AddressText;
      ok := AppendNumbers(seq_, timestamp);
      if !ok { return; }
      ok := AppendAddress();
    }

    method AppendNumbers(seq_: uint64, timestamp: uint64) returns (ok: bool)
      requires Valid() && line.Text() == ""
      modifies line, line.bytes
      ensures Valid()
      ensures ok <==> |NumbersText(seq_, timestamp)| <= ROOM
      ensures ok ==> line.Text() == NumbersText(seq_, timestamp)
    {
      hide Decimal;
      ok := line.AppendUInt64("{\"type\":\"telemetry\",\"seq\":", seq_);
      if !ok { return; }
      ok := line.AppendUInt64(",\"timestamp\":", timestamp);
    }

    method AppendAddress() returns (ok: bool)
      requires Valid()
      modifies line, line.bytes
      ensures Valid()
      ensures ok <==> |old(line.Text())| + |AddressText(boardId)| <= ROOM
      ensures ok ==> line.Text() == old(line.Text()) + AddressText(boardId)
    {
      hide Quote;
      ghost var start := line.Text();
      ok := line.AppendBytes(",\"source\":");
      if !ok { return; }
      ok := line.AppendEscapedString(boardId, Upper);
      if !ok { return; }
      Assoc(start, ",\"source\":", Quote(boardId, Upper));
      Assoc(start, ",\"source\":" + Quote(boardId, Upper), ",\"target\":\"controller\",\"telemetry\":");
      ok := line.AppendBytes(",\"target\":\"controller\",\"telemetry\":");
    }
  }
}
