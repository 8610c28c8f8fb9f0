/** The transmit path of one line: partial writes under a deadline, and the telemetry failure streak. */
module OutboundWriting {
  import opened Common
  import opened CounterBank
  import opened Platform
  import Limits

  datatype MessageClass = CriticalMessage | TelemetryMessage
  datatype SendResult = Sent | InvalidLine | NoActiveTransport | Busy | DeadlineExpired
  datatype TeardownReason =
    | CriticalTransmitFailure | TelemetryTransmitFailureStreak | ConnectionLost | LinkLost
    | SchemaSendFailure | ExplicitShutdown | Superseded

  const STREAK_LIMIT: nat := Limits.TELEMETRY_DEADLINE_FAILURES_TO_TEARDOWN

  predicate IsValidWireLine(line: string) {
    && 0 < |line| <= Limits.BOARD_TX_MAX_LINE_BYTES
    && line[|line| - 1] == '\n'
    && forall k :: 0 <= k < |line| - 1 ==> line[k] != '\n'
  }

  /** The failure streak after a transmission that completed or expired. */
  function StreakAfter(failures: nat, cls: MessageClass, complete: bool): nat {
    if cls.CriticalMessage? then failures
    else if complete then 0
    else if failures < STREAK_LIMIT then failures + 1
    else failures
  }

  /** The teardown it asks for, if any. */
  function TeardownAfter(failures: nat, cls: MessageClass, complete: bool): Option<TeardownReason> {
    if complete then None
    else if cls.CriticalMessage? then Some(CriticalTransmitFailure)
    else if failures < STREAK_LIMIT && failures + 1 >= STREAK_LIMIT then Some(TelemetryTransmitFailureStreak)
    else None
  }

  function CountedAfter(c: Values, cls: MessageClass, complete: bool): Values {
    if complete then c
    else if cls.CriticalMessage? then c.(txFailures := c.txFailures + 1)
    else c.(telemetryDropped := c.telemetryDropped + 1)
  }

  // ---------------------------------------------------------------------------------------
  // The streak over a whole session.

  datatype Transmission = Transmission(cls: MessageClass, complete: bool)

  /** Telemetry expiries since the last telemetry success, or since the transport was bound. */
  function Expiries(sends: seq<Transmission>): nat {
    if sends == [] then 0
    else
      var last, before := sends[|sends| - 1], Expiries(sends[..|sends| - 1]);
      if last.cls.CriticalMessage? then before else if last.complete then 0 else before + 1
  }

  function Streak(sends: seq<Transmission>): nat {
    if sends == [] then 0
    else StreakAfter(Streak(sends[..|sends| - 1]), sends[|sends| - 1].cls, sends[|sends| - 1].complete)
  }

  lemma {:induction false} StreakCountsExpiries(sends: seq<Transmission>)
    ensures Streak(sends) == if Expiries(sends) <= STREAK_LIMIT then Expiries(sends) else STREAK_LIMIT
  {
    if sends != [] {
      StreakCountsExpiries(sends[..|sends| - 1]);
    }
  }

  lemma StreakAppend(sends: seq<Transmission>, t: Transmission)
    ensures Streak(sends + [t]) == StreakAfter(Streak(sends), t.cls, t.complete)
    ensures Expiries(sends + [t]) ==
              if t.cls.CriticalMessage? then Expiries(sends) else if t.complete then 0 else Expiries(sends) + 1
  {
    assert (sends + [t])[..|sends|] == sends;
  }

  /** A telemetry transmission asks for teardown exactly when it is the tenth expiry to accumulate. */
  lemma TelemetryTeardownIff(sends: seq<Transmission>, complete: bool)
    ensures TeardownAfter(Streak(sends), TelemetryMessage, complete) == Some(TelemetryTransmitFailureStreak)
       <==> !complete && Expiries(sends + [Transmission(TelemetryMessage, complete)]) == STREAK_LIMIT
  {
    StreakCountsExpiries(sends);
    assert (sends + [Transmission(TelemetryMessage, complete)])[..|sends|] == sends;
  }

  /** While fewer than ten expiries have accumulated, one more send ends the session for their number exactly when it makes them ten. */
  lemma OneMoreSend(sends: seq<Transmission>, cls: MessageClass, complete: bool)
    requires Expiries(sends) < STREAK_LIMIT
    ensures var n := Expiries(sends + [Transmission(cls, complete)]);
            n <= STREAK_LIMIT && (TeardownAfter(Streak(sends), cls, complete) == Some(TelemetryTransmitFailureStreak) <==> n == STREAK_LIMIT)
  {
    StreakAppend(sends, Transmission(cls, complete));
    if cls.TelemetryMessage? {
      TelemetryTeardownIff(sends, complete);
    }
  }

  // ---------------------------------------------------------------------------------------
  // The writer.

  class OutboundWriter {
    const clock: Clock
    const counters: Counters
    var transport: Transport?
    var failures: nat
    var sendInProgress: bool

    constructor (clock: Clock, counters: Counters)
      ensures this.clock == clock && this.counters == counters
      ensures transport == null && failures == 0 && !sendInProgress
    {
      this.clock, this.counters := clock, counters;
      transport, failures, sendInProgress := null, 0, false;
    }

    method BindTransport(t: Transport)
      modifies this
      ensures transport == t && failures == 0 && sendInProgress == old(sendInProgress)
    {
      transport := t;
      failures := 0;
    }

    method ClearTransport()
      modifies this
      ensures transport == null && failures == 0 && !sendInProgress
    {
      transport := null;
      sendInProgress := false;
      failures := 0;
    }

    /**
     Sends one line. `accepted` is the length of the prefix the transport took; `teardown` is the
     request made of the session; `started` is true time when the deadline began to run.
     */
    method SendLine(line: string, cls: MessageClass)
      returns (result: SendResult, teardown: Option<TeardownReason>, ghost accepted: nat, ghost started: nat)
      modifies this, clock, counters, transport
      ensures transport == old(transport) && sendInProgress == old(sendInProgress)
      ensures old(clock.ticks) <= clock.ticks && (transport != null ==> transport.sights == old(transport.sights))
      ensures result == if old(sendInProgress) then Busy
                        else if !IsValidWireLine(line) then InvalidLine
                        else if transport == null then NoActiveTransport
                        else if accepted == |line| then Sent else DeadlineExpired
      ensures accepted <= |line|
      ensures result !in {Sent, DeadlineExpired} ==>
                && teardown == None && failures == old(failures) && counters.values == old(counters.values)
                && (transport != null ==> transport.received == old(transport.received) && transport.flushes == old(transport.flushes))
      ensures result in {Sent, DeadlineExpired} ==>
                && transport != null
                && transport.received == old(transport.received) + line[..accepted]
                && transport.flushes == old(transport.flushes) + (if result == Sent then 1 else 0)
                && transport.available == old(transport.available)
                && failures == StreakAfter(old(failures), cls, result == Sent)
                && teardown == TeardownAfter(old(failures), cls, result == Sent)
                && counters.values == CountedAfter(old(counters.values), cls, result == Sent)
                && old(clock.ticks) <= started <= clock.ticks
                && (result == DeadlineExpired <==> clock.ticks - started >= Limits.TRANSMIT_DEADLINE_MS)
    {
      accepted, started, teardown := 0, clock.ticks, None;
      if sendInProgress {
        return Busy, None, 0, clock.ticks;
      }
      if !IsValidWireLine(line) {
        return InvalidLine, None, 0, clock.ticks;
      }
      if transport == null {
        return NoActiveTransport, None, 0, clock.ticks;
      }
      sendInProgress := true;
      result, teardown, accepted, started := SendValidLine(line, cls);
      sendInProgress := false;
    }

    method SendValidLine(line: string, cls: MessageClass)
      returns (result: SendResult, teardown: Option<TeardownReason>, ghost took: nat, ghost started: nat)
      requires IsValidWireLine(line) && transport != null
      modifies this`failures, clock, counters, transport
      ensures took <= |line| && result == if took == |line| then Sent else DeadlineExpired
      ensures transport.received == old(transport.received) + line[..took]
      ensures transport.flushes == old(transport.flushes) + (if result == Sent then 1 else 0)
      ensures transport.available == old(transport.available) && transport.sights == old(transport.sights)
      ensures failures == StreakAfter(old(failures), cls, result == Sent)
      ensures teardown == TeardownAfter(old(failures), cls, result == Sent)
      ensures counters.values == CountedAfter(old(counters.values), cls, result == Sent)
      ensures old(clock.ticks) <= started <= clock.ticks
      ensures result == DeadlineExpired <==> clock.ticks - started >= Limits.TRANSMIT_DEADLINE_MS
    {
      var start := clock.MonotonicMilliseconds();
      started := clock.ticks;
      var accepted := 0;
      while accepted < |line|
        invariant accepted < |line|
        invariant transport.received == old(transport.received) + line[..accepted]
        invariant transport.flushes == old(transport.flushes) && transport.available == old(transport.available)
        invariant transport.sights == old(transport.sights)
        invariant counters.values == old(counters.values) && failures == old(failures)
        invariant old(clock.ticks) <= started <= clock.ticks < started + Limits.TRANSMIT_DEADLINE_MS
        decreases started + Limits.TRANSMIT_DEADLINE_MS - clock.ticks, clock.stalls
      {
        var expired := IsDeadlineExpired(start, started);
        if expired {
          took := accepted;
          result := DeadlineExpired;
          teardown := HandleDeadline(cls);
          return;
        }
        var written := transport.WriteSome(line[accepted..]);
        assert line[..accepted] + line[accepted..][..written] == line[..accepted + written];
        accepted := accepted + written;
        if accepted == |line| {
          transport.Flush();
          if cls == TelemetryMessage {
            failures := 0;
          }
          return Sent, None, accepted, started;
        }
        // The network makes progress here; nothing the writer reads changes.
      }
    }

    /** Subtraction modulo 2^64 measures true elapsed time, whether or not the counter wrapped. */
    method IsDeadlineExpired(start: uint64, ghost started: nat) returns (expired: bool)
      requires start == started % TWO_64 && started <= clock.ticks < started + Limits.TRANSMIT_DEADLINE_MS
      modifies clock
      ensures expired <==> clock.ticks - started >= Limits.TRANSMIT_DEADLINE_MS
      ensures old(clock.ticks) <= clock.ticks
      ensures clock.ticks > old(clock.ticks) || clock.stalls < old(clock.stalls)
    {
      var now := clock.MonotonicMilliseconds();
      ElapsedIsExact(started, clock.ticks);
      expired := (now - start) % TWO_64 >= Limits.TRANSMIT_DEADLINE_MS;
    }

    method HandleDeadline(cls: MessageClass) returns (teardown: Option<TeardownReason>)
      modifies this`failures, counters
      ensures failures == StreakAfter(old(failures), cls, false)
      ensures teardown == TeardownAfter(old(failures), cls, false)
      ensures counters.values == CountedAfter(old(counters.values), cls, false)
    {
      if cls == CriticalMessage {
        counters.values := counters.values.(txFailures := counters.values.txFailures + 1);
        return Some(CriticalTransmitFailure);
      }
      counters.values := counters.values.(telemetryDropped := counters.values.telemetryDropped + 1);
      var belowThreshold := failures < STREAK_LIMIT;
      if belowThreshold {
        failures := failures + 1;
      }
      if belowThreshold && failures >= STREAK_LIMIT {
        return Some(TelemetryTransmitFailureStreak);
      }
      return None;
    }
  }
}
