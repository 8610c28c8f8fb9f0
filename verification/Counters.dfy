/**
 The diagnostic counters shared by every component. The device keeps each one modulo 2^32;
 here they are naturals, so an equation between them holds on the device modulo 2^32.
 */
module CounterBank {

  datatype Values = Values(
    sessionsAccepted: nat, sessionsRejected: nat, sessionsSuperseded: nat, schemasSent: nat,
    commandsReceived: nat, commandsOk: nat, commandsError: nat, unknownCommands: nat, invalidArguments: nat,
    invalidTargets: nat,
    oversizedLines: nat,
    telemetrySent: nat, telemetryCoalesced: nat, telemetryDropped: nat,
    estopReceived: nat, estopAckSent: nat, estopApplyFailed: nat,
    heartbeatReceived: nat, heartbeatAckSent: nat,
    txFailures: nat, controllerDisconnects: nat)

  const ZERO := Values(0, 0, 0, 0, 0, 0, 0, 0, 0, 0, 0, 0, 0, 0, 0, 0, 0, 0, 0, 0, 0)

  class Counters {
    var values: Values

    constructor ()
      ensures values == ZERO
    {
      values := ZERO;
    }
  }
}
