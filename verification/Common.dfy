/** Shared vocabulary: optional values, C strings and the library's fixed limits. */
module Common {

  datatype Option<+T> = None | Some(value: T)

  /** A NUL-terminated C string, seen as the characters before its terminator. */
  type cstring = s: string | '\0' !in s

  const TWO_32: nat := 0x1_0000_0000
  const TWO_64: nat := 0x1_0000_0000_0000_0000

  /** Concatenation is associative; stated once so that proofs can ask for it by name. */
  lemma Assoc<T>(a: seq<T>, b: seq<T>, c: seq<T>)
    ensures a + b + c == a + (b + c)
  {
  }

  type uint64 = n: int | 0 <= n < TWO_64

  /** Subtraction modulo 2^64 is exact across one wrap of the counter. */
  lemma ElapsedIsExact(from: nat, to: nat)
    requires from <= to < from + TWO_64
    ensures (to % TWO_64 - from % TWO_64) % TWO_64 == to - from
  {
    var q := from / TWO_64;
    assert from == q * TWO_64 + from % TWO_64;
    if to < (q + 1) * TWO_64 {
      assert to / TWO_64 == q;
    } else {
      assert to / TWO_64 == q + 1;
      assert to % TWO_64 - from % TWO_64 == to - from - TWO_64;
    }
  }
}

/** The compile-time capacities the modelled code depends on. */
module Limits {
  const BOARD_RX_MAX_LINE_BYTES: nat := 1024
  const BOARD_TX_MAX_LINE_BYTES: nat := 8192
  const OUTBOUND_CRITICAL_QUEUE_CAPACITY: nat := 4
  const RESPONSE_ENVELOPE_RESERVE_BYTES: nat := 512
  const MAX_RESULT_PAYLOAD_BYTES: nat := BOARD_TX_MAX_LINE_BYTES - RESPONSE_ENVELOPE_RESERVE_BYTES
  const MAX_ERROR_MESSAGE_BYTES: nat := 160
  const MAX_DOUBLE_LITERAL_BYTES: nat := 32
  const MAX_JSON_NESTING_DEPTH: nat := 8
  const TELEMETRY_PERIOD_MS: nat := 50
  const TRANSMIT_DEADLINE_MS: nat := 100
  const TELEMETRY_DEADLINE_FAILURES_TO_TEARDOWN: nat := 10
  const NETWORK_INIT_RETRY_MS: nat := 1000
  const MAX_REGISTERED_COMMANDS: nat := 16
  const MAX_ARGS_PER_COMMAND: nat := 8
  const MAX_BOARD_ID_BYTES: nat := 48
  const MAX_PROTOCOL_VERSION_BYTES: nat := 8
  const MAX_FIRMWARE_VERSION_BYTES: nat := 32
  const MAX_NAME_BYTES: nat := 48
  const MAX_FIELDS: nat := 24
  const ESTOP_REASON_MAX_BYTES: nat := 160
}
