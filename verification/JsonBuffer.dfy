/** The bounded JSON writer in its caller's buffer: byte-wise appends, snapshot and rollback. */
module JsonBuffer {
  import opened Common
  import opened Json
  import opened JsonWriting
  import Limits

  /** What an append of `piece`, complete or cut short, may have done to the writer. */
  ghost predicate Appended(before: Writer, after: Writer, piece: string, ok: bool) {
    && after == before.(text := after.text, failed := after.failed)
    && before.text <= after.text
    && (ok <==> Fits(before, piece))
    && (if ok then after == before.(text := before.text + piece) else after.failed)
  }

  lemma AppendedThen(a: Writer, b: Writer, c: Writer, p: string, q: string, ok: bool)
    requires Appended(a, b, p, true) && Appended(b, c, q, ok)
    ensures Appended(a, c, p + q, ok)
  {
    Assoc(a.text, p, q);
  }

  lemma AppendedShort(a: Writer, b: Writer, p: string, q: string)
    requires Appended(a, b, p, false) && |p| <= |q|
    ensures Appended(a, b, q, false)
  {
  }

  datatype Snapshot = Snapshot(length: nat, depth: nat, tailReserve: nat, closed: bool, first: seq<bool>)

  /** All of the writer is in the snapshot but its text, of which only the length is, and its failure flag. */
  ghost predicate Remembers(s: Snapshot, w: Writer) {
    && s.length == |w.text| && s.tailReserve == w.reserve && s.closed == w.closed
    && |s.first| == Limits.MAX_JSON_NESTING_DEPTH && s.depth <= |s.first| && s.first[..s.depth] == w.first
  }

  class BoundedJsonWriter {
    const buffer: array<char>
    const capacity: nat
    const first: array<bool>
    var length: nat
    var depth: nat
    var tailReserve: nat
    var failed: bool
    var closed: bool

    ghost predicate Valid()
      reads this, buffer, first
    {
      && first.Length == Limits.MAX_JSON_NESTING_DEPTH
      && length + tailReserve <= capacity <= buffer.Length
      && depth <= first.Length
      && (length < capacity ==> buffer[length] == '\0')
    }

    ghost function Model(): (w: Writer)
      requires Valid()
      reads this, buffer, first
    {
      Writer(buffer[..length], capacity, tailReserve, first[..depth], closed, failed)
    }

    constructor (buffer: array<char>, capacity: nat)
      requires capacity <= buffer.Length
      modifies buffer
      ensures Valid() && Model() == NewWriter(capacity)
      ensures this.buffer == buffer && this.capacity == capacity && fresh(first)
    {
      this.buffer := buffer;
      this.capacity := capacity;
      first := new bool[Limits.MAX_JSON_NESTING_DEPTH](_ => true);
      length, depth, tailReserve, failed, closed := 0, 0, 0, false, false;
      new;
      if capacity > 0 {
        buffer[0] := '\0';
      }
    }

    function Remaining(): (r: nat)
      requires Valid()
      reads this, buffer, first
      ensures r == if capacity <= tailReserve || length >= capacity - tailReserve then 0 else capacity - tailReserve - length
    {
      if capacity <= tailReserve || length >= capacity - tailReserve then 0 else capacity - tailReserve - length
    }

    method AppendBytes(value: string) returns (ok: bool)
      requires Valid()
      modifies this, buffer
      ensures Valid() && Result(Model(), ok) == Put(old(Model()), value) && unchanged(first)
    {
      if |value| > Remaining() {
        failed := true;
        return false;
      }
      forall k | 0 <= k < |value| {
        buffer[length + k] := value[k];
      }
      length := length + |value|;
      Terminate();
      assert buffer[..length] == old(buffer[..length]) + value;
      return true;
    }

    method Terminate()
      requires length <= capacity <= buffer.Length
      modifies buffer
      ensures length < capacity ==> buffer[length] == '\0'
      ensures forall k :: 0 <= k < buffer.Length && k != length ==> buffer[k] == old(buffer[k])
    {
      if capacity > 0 && length < capacity {
        buffer[length] := '\0';
      }
    }

    method WriteEscapedString(value: string) returns (ok: bool)
      requires Valid()
      modifies this, buffer
      ensures Valid() && Appended(old(Model()), Model(), Quote(value, Upper), ok) && unchanged(first)
    {
      hide Escape, EscapeChar;
      ghost var start := Model();
      ghost var whole := Quote(value, Upper);
      ok := AppendBytes("\"");
      if !ok {
        AppendedShort(start, Model(), "\"", whole);
        return;
      }
      ghost var written := "\"";
      assert value[..0] == "";
      EscapeNothing(Upper);
      var i := 0;
      while i < |value|
        invariant i <= |value| && Valid() && unchanged(first)
        invariant written == "\"" + Escape(value[..i], Upper)
        invariant Appended(start, Model(), written, true)
      {
        ghost var mid := Model();
        var piece := EscapeChar(value[i], Upper);
        ok := AppendBytes(piece);
        AppendedThen(start, mid, Model(), written, piece, ok);
        EscapeStep(value, i, Upper);
        Assoc("\"", Escape(value[..i], Upper), piece);
        written := written + piece;
        if !ok {
          EscapePrefixIsShorter(value, i + 1, Upper);
          AppendedShort(start, Model(), written, whole);
          return;
        }
        i := i + 1;
      }
      assert value[..i] == value;
      ghost var mid := Model();
      ok := AppendBytes("\"");
      AppendedThen(start, mid, Model(), written, "\"", ok);
    }

    method WriteFieldPrefix(name: cstring) returns (ok: bool)
      requires Valid() && InObject(Model())
      modifies this, buffer, first
      ensures Valid()
      ensures Appended(old(Model()), Model().(first := old(Model()).first), FieldPrefix(old(Model()), name), ok)
      ensures Model().first == if ok then Started(old(Model()).first) else old(Model()).first
    {
      hide Quote;
      ghost var start := Model();
      ghost var prefix := FieldPrefix(start, name);
      ghost var separator := if first[depth - 1] then "" else ",";
      if !first[depth - 1] {
        ok := AppendBytes(",");
        if !ok {
          AppendedShort(start, Model(), ",", prefix);
          return;
        }
      }
      ghost var comma := Model();
      assert Appended(start, comma, separator, true);
      ok := WriteEscapedString(name);
      AppendedThen(start, comma, Model(), separator, Quote(name, Upper), ok);
      if !ok {
        AppendedShort(start, Model(), separator + Quote(name, Upper), prefix);
        return;
      }
      ghost var named := Model();
      ok := AppendBytes(":");
      AppendedThen(start, named, Model(), separator + Quote(name, Upper), ":", ok);
      Assoc(separator, Quote(name, Upper), ":");
      if ok {
        first[depth - 1] := false;
      }
    }

    method Capture() returns (s: Snapshot)
      requires Valid()
      ensures Remembers(s, Model())
    {
      s := Snapshot(length, depth, tailReserve, closed, first[..]);
    }

    /** Brings back the writer of the snapshot, whatever was appended since, but for the failure flag. */
    method Restore(s: Snapshot, ghost w: Writer)
      requires Valid() && Remembers(s, w) && w.text <= Model().text && w.capacity == capacity
      requires |w.text| + w.reserve <= capacity
      modifies this, buffer, first
      ensures Valid() && Model() == w.(failed := true)
    {
      length := s.length;
      depth := s.depth;
      tailReserve := s.tailReserve;
      closed := s.closed;
      forall i | 0 <= i < first.Length {
        first[i] := s.first[i];
      }
      Terminate();
      failed := true;
      assert first[..depth] == w.first;
      assert buffer[..length] == old(buffer[..length])[..s.length] == w.text;
    }

    method BeginObject() returns (ok: bool)
      requires Valid()
      modifies this, buffer, first
      ensures Valid() && Result(Model(), ok) == Apply(old(Model()), Call.BeginObject)
    {
      if closed || depth >= Limits.MAX_JSON_NESTING_DEPTH {
        failed := true;
        return false;
      }
      var snapshot := Capture();
      ghost var start := Model();
      ok := AppendBytes("{");
      if !ok {
        Restore(snapshot, start);
        return;
      }
      first[depth] := true;
      depth := depth + 1;
    }

    method BeginObjectField(name: Option<cstring>) returns (ok: bool)
      requires Valid()
      modifies this, buffer, first
      ensures Valid() && Result(Model(), ok) == Apply(old(Model()), Call.BeginObjectField(name))
    {
      hide Quote;
      if name == None || !(depth > 0 && !closed) || depth >= Limits.MAX_JSON_NESTING_DEPTH {
        failed := true;
        return false;
      }
      ok := WriteField(name.value, "{");
      if ok {
        assert depth == |Model().first| == |old(Model()).first|;
        first[depth] := true;
        depth := depth + 1;
      }
    }

    method EndObject() returns (ok: bool)
      requires Valid()
      modifies this, buffer, first
      ensures Valid() && Result(Model(), ok) == Apply(old(Model()), Call.EndObject)
    {
      if depth == 0 {
        failed := true;
        return false;
      }
      var snapshot := Capture();
      ghost var start := Model();
      ok := AppendBytes("}");
      if !ok {
        Restore(snapshot, start);
        return;
      }
      depth := depth - 1;
      closed := depth == 0;
    }

    /** Prefix and value, or neither. */
    method WriteField(name: cstring, value: string) returns (ok: bool)
      requires Valid() && InObject(Model())
      modifies this, buffer, first
      ensures Valid() && Result(Model(), ok) == Field(old(Model()), Some(name), value)
    {
      var snapshot := Capture();
      ghost var start := Model();
      ok := WriteFieldPrefix(name);
      if ok {
        ghost var mid := Model().(first := start.first);
        ok := AppendBytes(value);
        AppendedThen(start, mid, Model().(first := start.first), FieldPrefix(start, name), value, ok);
      } else {
        AppendedShort(start, Model().(first := start.first), FieldPrefix(start, name), FieldPrefix(start, name) + value);
      }
      if !ok {
        Restore(snapshot, start);
      }
    }

    /** The same for a string value, escaped as it is written. */
    method WriteStringField(name: cstring, value: string) returns (ok: bool)
      requires Valid() && InObject(Model())
      modifies this, buffer, first
      ensures Valid() && Result(Model(), ok) == Field(old(Model()), Some(name), Quote(value, Upper))
    {
      var snapshot := Capture();
      ghost var start := Model();
      ghost var quoted := Quote(value, Upper);
      ok := WriteFieldPrefix(name);
      if ok {
        ghost var mid := Model().(first := start.first);
        ok := WriteEscapedString(value);
        AppendedThen(start, mid, Model().(first := start.first), FieldPrefix(start, name), quoted, ok);
      } else {
        AppendedShort(start, Model().(first := start.first), FieldPrefix(start, name), FieldPrefix(start, name) + quoted);
      }
      if !ok {
        Restore(snapshot, start);
      }
    }

    method AddNumberLiteral(name: Option<cstring>, literal: string) returns (ok: bool)
      requires Valid()
      modifies this, buffer, first
      ensures Valid() && Result(Model(), ok) == Field(old(Model()), name, literal)
    {
      if name == None || !(depth > 0 && !closed) {
        failed := true;
        return false;
      }
      ok := WriteField(name.value, literal);
    }

    method AddInt(name: Option<cstring>, value: int) returns (ok: bool)
      requires Valid()
      modifies this, buffer, first
      ensures Valid() && Result(Model(), ok) == Apply(old(Model()), Call.AddInt(name, value))
    {
      ok := AddNumberLiteral(name, DecimalInt(value));
    }

    method AddUInt64(name: Option<cstring>, value: uint64) returns (ok: bool)
      requires Valid()
      modifies this, buffer, first
      ensures Valid() && Result(Model(), ok) == Apply(old(Model()), Call.AddUInt64(name, value))
    {
      ok := AddNumberLiteral(name, Decimal(value));
    }

    method AddDouble(name: Option<cstring>, value: Double) returns (ok: bool)
      requires Valid()
      modifies this, buffer, first
      ensures Valid() && Result(Model(), ok) == Apply(old(Model()), Call.AddDouble(name, value))
    {
      hide IsNumber;
      if value.NonFinite? {
        failed := true;
        return false;
      }
      if |value.literal| >= Limits.MAX_DOUBLE_LITERAL_BYTES {
        failed := true;
        return false;
      }
      ok := AddNumberLiteral(name, value.literal);
    }

    method AddBool(name: Option<cstring>, value: bool) returns (ok: bool)
      requires Valid()
      modifies this, buffer, first
      ensures Valid() && Result(Model(), ok) == Apply(old(Model()), Call.AddBool(name, value))
    {
      ok := AddNumberLiteral(name, if value then "true" else "false");
    }

    method AddNull(name: Option<cstring>) returns (ok: bool)
      requires Valid()
      modifies this, buffer, first
      ensures Valid() && Result(Model(), ok) == Apply(old(Model()), Call.AddNull(name))
    {
      ok := AddNumberLiteral(name, "null");
    }

    method AddString(name: Option<cstring>, value: Option<cstring>) returns (ok: bool)
      requires Valid()
      modifies this, buffer, first
      ensures Valid() && Result(Model(), ok) == Apply(old(Model()), Call.AddString(name, value))
    {
      if value == None {
        return false;
      }
      ok := AddBytes(name, Some(value.value));
    }

    method AddBytes(name: Option<cstring>, value: Option<string>) returns (ok: bool)
      requires Valid()
      modifies this, buffer, first
      ensures Valid() && Result(Model(), ok) == Apply(old(Model()), Call.AddBytes(name, value))
    {
      if name == None || value == None || !(depth > 0 && !closed) {
        failed := true;
        return false;
      }
      ok := WriteStringField(name.value, value.value);
    }

    method AppendNewline() returns (ok: bool)
      requires Valid()
      modifies this, buffer
      ensures Valid() && Result(Model(), ok) == Apply(old(Model()), Call.AppendNewline) && unchanged(first)
    {
      ok := AppendBytes("\n");
    }

    method ReserveTailBytes(bytes: nat) returns (ok: bool)
      requires Valid()
      modifies this
      ensures Valid() && Result(Model(), ok) == Apply(old(Model()), Call.ReserveTailBytes(bytes))
    {
      if bytes > capacity || length > capacity - bytes {
        failed := true;
        return false;
      }
      tailReserve := bytes;
      return true;
    }

    method ReleaseTailReserve()
      requires Valid()
      modifies this
      ensures Valid() && Result(Model(), true) == Apply(old(Model()), Call.ReleaseTailReserve)
    {
      tailReserve := 0;
    }
  }
}
