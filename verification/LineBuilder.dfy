/**
 The fixed line buffer that responses and telemetry are assembled in. Both owners in the library
 carry their own copy of these routines, differing only in how they spell hexadecimal digits.
 */
module LineBuilding {
  import opened Common
  import opened Json
  import Limits

  /** The last byte of the buffer is kept for the terminator. */
  const ROOM: nat := Limits.BOARD_TX_MAX_LINE_BYTES - 1

  class LineBuffer {
    const bytes: array<char>
    var size: nat

    ghost predicate Valid()
      reads this, bytes
    {
      bytes.Length == ROOM + 1 && size <= ROOM && bytes[size] == '\0'
    }

    ghost function Text(): (s: string)
      requires Valid()
      reads this, bytes
      ensures |s| == size
    {
      bytes[..size]
    }

    constructor ()
      ensures Valid() && Text() == "" && fresh(bytes)
    {
      bytes := new char[ROOM + 1](_ => '\0');
      size := 0;
    }

    method Reset()
      requires Valid()
      modifies this, bytes
      ensures Valid() && Text() == ""
    {
      size := 0;
      bytes[0] := '\0';
    }

    method AppendBytes(value: string) returns (ok: bool)
      requires Valid()
      modifies this, bytes
      ensures Valid()
      ensures ok <==> |old(Text())| + |value| <= ROOM
      ensures Text() == if ok then old(Text()) + value else old(Text())
    {
      if |value| >= bytes.Length || size > bytes.Length - 1 - |value| {
        return false;
      }
      forall k | 0 <= k < |value| {
        bytes[size + k] := value[k];
      }
      size := size + |value|;
      bytes[size] := '\0';
      assert bytes[..size] == old(bytes[..size]) + value;
      return true;
    }

    /** A label and the value after it. */
    method AppendPair(label_: string, value: string) returns (ok: bool)
      requires Valid()
      modifies this, bytes
      ensures Valid()
      ensures ok <==> |old(Text())| + |label_ + value| <= ROOM
      ensures ok ==> Text() == old(Text()) + (label_ + value)
    {
      ghost var start := Text();
      ok := AppendBytes(label_);
      if !ok {
        return;
      }
      ok := AppendBytes(value);
      Assoc(start, label_, value);
    }

    /** Appends byte by byte; when it fails the line is abandoned, so how far it got does not matter. */
    method AppendEscapedString(value: cstring, hex: HexCase) returns (ok: bool)
      requires Valid()
      modifies this, bytes
      ensures Valid()
      ensures ok <==> |old(Text())| + |Quote(value, hex)| <= ROOM
      ensures ok ==> Text() == old(Text()) + Quote(value, hex)
    {
      hide Escape, EscapeChar;
      ghost var start := Text();
      ok := AppendBytes("\"");
      if !ok {
        return;
      }
      assert value[..0] == "";
      EscapeNothing(hex);
      var i := 0;
      while i < |value|
        invariant i <= |value| && Valid()
        invariant Text() == start + ("\"" + Escape(value[..i], hex))
      {
        ghost var done := "\"" + Escape(value[..i], hex);
        EscapeStep(value, i, hex);
        EscapePrefixIsShorter(value, i + 1, hex);
        ok := AppendBytes(EscapeChar(value[i], hex));
        if !ok {
          return;
        }
        Assoc(start, done, EscapeChar(value[i], hex));
        Assoc("\"", Escape(value[..i], hex), EscapeChar(value[i], hex));
        i := i + 1;
      }
      assert value[..i] == value;
      Assoc(start, "\"" + Escape(value, hex), "\"");
      ok := AppendBytes("\"");
    }

    method AppendUInt64(label_: string, value: uint64) returns (ok: bool)
      requires Valid()
      modifies this, bytes
      ensures Valid()
      ensures ok <==> |old(Text())| + |label_ + Decimal(value)| <= ROOM
      ensures ok ==> Text() == old(Text()) + (label_ + Decimal(value))
    {
      ok := AppendPair(label_, Decimal(value));
    }
  }
}
