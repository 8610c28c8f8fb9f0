/**
 The payload writer handed to command handlers and telemetry providers: a bounded JSON object that
 can always be closed, whatever was added to it.
 */
module Payloads {
  import opened Common
  import opened Json
  import opened JsonWriting
  import opened JsonBuffer
  import Limits

  const CAPACITY: nat := Limits.MAX_RESULT_PAYLOAD_BYTES

  /** The name the dispatcher keeps for itself. */
  const PROC_NAME: cstring := "board_proc_us"

  datatype Payload = Payload(w: Writer, closed: bool)

  function Opened(): Payload {
    Payload(Apply(Apply(NewWriter(CAPACITY), BeginObject).w, ReserveTailBytes(1)).w, false)
  }

  /** The calls a payload writer offers. */
  predicate IsAdd(c: Call) {
    c.AddInt? || c.AddUInt64? || c.AddDouble? || c.AddBool? || c.AddString? || c.AddBytes?
  }

  predicate Allowed(p: Payload, name: Option<cstring>) {
    !p.closed && name.Some? && name.value != PROC_NAME
  }

  function Added(p: Payload, c: Call): Payload
    requires IsAdd(c)
  {
    if Allowed(p, c.name) then p.(w := Apply(p.w, c).w) else p
  }

  predicate IsAdded(p: Payload, c: Call)
    requires IsAdd(c)
  {
    Allowed(p, c.name) && Apply(p.w, c).ok
  }

  function Closed(p: Payload): Payload {
    if p.closed then p
    else
      var r := Apply(Apply(p.w, ReleaseTailReserve).w, EndObject);
      Payload(r.w, r.ok)
  }

  /** What a handler may do with a payload, in any order. */
  datatype Use = Add(call: Call) | Close

  predicate IsUse(u: Use) {
    u.Add? ==> IsAdd(u.call)
  }

  predicate AreUses(us: seq<Use>) {
    forall k :: 0 <= k < |us| ==> IsUse(us[k])
  }

  /** All that a handler does with one payload. */
  type script = us: seq<Use> | AreUses(us) witness []

  function After(p: Payload, u: Use): Payload
    requires IsUse(u)
  {
    if u.Add? then Added(p, u.call) else Closed(p)
  }

  function Filled(us: seq<Use>): Payload
    requires AreUses(us)
  {
    if us == [] then Opened() else After(Filled(us[..|us| - 1]), us[|us| - 1])
  }

  function ValueOf(c: Call): Value
    requires IsAdd(c)
  {
    match c
    case AddInt(_, i) => Literal(DecimalInt(i))
    case AddUInt64(_, n) => Literal(Decimal(n))
    case AddDouble(_, d) => Literal(if d.Finite? then d.literal else "null")
    case AddBool(_, b) => Literal(if b then "true" else "false")
    case AddString(_, v) => Text(if v.Some? then v.value else "")
    case AddBytes(_, v) => Text(if v.Some? then v.value else "")
  }

  /** The members that were accepted. */
  function Accepted(us: seq<Use>): Members
    requires AreUses(us)
  {
    if us == [] then Empty
    else
      var front, u := us[..|us| - 1], us[|us| - 1];
      if u.Add? && IsAdded(Filled(front), u.call) then Snoc(Accepted(front), u.call.name.value, ValueOf(u.call)) else Accepted(front)
  }

  // ---------------------------------------------------------------------------------------
  // It can always be closed, and then says what was accepted.

  function TraceOf(p: Payload, m: Members): Trace {
    Trace(p.w, if p.closed then Done(m) else Building(Root(m)), 0, false)
  }

  ghost predicate Holds(p: Payload, m: Members) {
    && Invariant(TraceOf(p, m)) && p.w.capacity == CAPACITY && (!p.closed ==> p.w.reserve == 1)
    && PROC_NAME !in Names(m)
  }

  lemma OpenedHolds()
    ensures Holds(Opened(), Empty)
  {
    assert Opened().w.text == "{" == PrintOpen(Root(Empty));
  }

  lemma AddGrowsALeaf(t: Trace, c: Call)
    requires IsAdd(c) && t.tree.Building? && t.tree.open.Root? && Apply(t.w, c).ok
    ensures c.name.Some?
    ensures Step(t, c) == Trace(Apply(t.w, c).w, Building(Root(Snoc(t.tree.open.members, c.name.value, ValueOf(c)))), t.newlines, t.spoiled)
  {
    hide Quote, IsNumber;
  }

  lemma AddedHolds(p: Payload, m: Members, c: Call)
    requires Holds(p, m) && IsAdd(c)
    ensures Holds(Added(p, c), if IsAdded(p, c) then Snoc(m, c.name.value, ValueOf(c)) else m)
  {
    hide Apply, Invariant, Grow;
    if Allowed(p, c.name) {
      var t := TraceOf(p, m);
      StepKeepsInvariant(t, c);
      InvariantIsBounded(t);
      CallsAreTransactions(p.w, c);
      if Apply(p.w, c).ok {
        AddGrowsALeaf(t, c);
      }
    }
  }

  lemma InvariantIsBounded(t: Trace)
    requires Invariant(t)
    ensures InBounds(t.w)
  {
  }

  /** The reserved byte is the closing brace. */
  lemma CloseSucceeds(p: Payload, m: Members)
    requires Holds(p, m)
    ensures Closed(p).closed && Holds(Closed(p), m)
  {
    if !p.closed {
      var t := TraceOf(p, m);
      assert |p.w.first| == 1 && |p.w.text| + 1 <= CAPACITY;
      var u := Step(t, ReleaseTailReserve);
      StepKeepsInvariant(t, ReleaseTailReserve);
      StepKeepsInvariant(u, EndObject);
      assert Step(u, EndObject) == TraceOf(Closed(p), m);
    }
  }

  lemma {:induction false} FilledHolds(us: seq<Use>)
    requires AreUses(us)
    ensures Holds(Filled(us), Accepted(us))
  {
    hide Holds, Added, Closed, IsAdded, ValueOf;
    if us == [] {
      OpenedHolds();
    } else {
      var front, u := us[..|us| - 1], us[|us| - 1];
      assert IsUse(u);
      FilledHolds(front);
      if u.Add? {
        AddedHolds(Filled(front), Accepted(front), u.call);
      } else {
        CloseSucceeds(Filled(front), Accepted(front));
      }
    }
  }

  /** Text of an object: what the envelopes ask of a payload before they embed it. */
  predicate IsObjectText(text: string) {
    |text| >= 2 && text[0] == '{' && text[|text| - 1] == '}'
  }

  /**
   Whatever was added, in whatever order, accepted or refused, the payload can be closed within its
   capacity; the result is the JSON text of exactly the accepted members, none of which has the
   dispatcher's name.
   */
  lemma PayloadAlwaysCloses(us: seq<Use>)
    requires AreUses(us)
    ensures var p, m := Closed(Filled(us)), Accepted(us);
            && p.closed && |p.w.text| <= CAPACITY && IsObjectText(p.w.text)
            && p.w.text == Print(Object(m)) && WellFormedMembers(m) && PROC_NAME !in Names(m)
            && ParseDocument(p.w.text) == Some(Object(m))
  {
    hide Filled, Accepted;
    var p, m := Closed(Filled(us)), Accepted(us);
    FilledHolds(us);
    CloseSucceeds(Filled(us), m);
    ClosedText(p, m);
  }

  lemma ClosedText(p: Payload, m: Members)
    requires Holds(p, m) && p.closed
    ensures |p.w.text| <= CAPACITY && IsObjectText(p.w.text) && p.w.text == Print(Object(m)) && WellFormedMembers(m)
    ensures ParseDocument(p.w.text) == Some(Object(m))
  {
    assert p.w.text == Print(Object(m)) + Newlines(0);
    assert Newlines(0) == "";
    assert p.w.text == Print(Object(m)) + "";
    ParsePrint(Object(m), "");
  }

  // ---------------------------------------------------------------------------------------
  // The writer.

  class ObjectWriter {
    const buffer: array<char>
    const writer: BoundedJsonWriter
    var closed: bool

    ghost predicate Valid()
      reads this, writer, buffer, writer.first
    {
      writer.buffer == buffer && writer.Valid()
    }

    ghost function Model(): Payload
      requires Valid()
      reads this, writer, buffer, writer.first
    {
      Payload(writer.Model(), closed)
    }

    constructor ()
      ensures Valid() && Model() == Opened() && fresh(buffer) && fresh(writer) && fresh(writer.first)
    {
      hide Apply;
      var bytes := new char[CAPACITY](_ => '\0');
      buffer := bytes;
      writer := new BoundedJsonWriter(bytes, CAPACITY);
      closed := false;
      new;
      var ok := writer.BeginObject();
      ok := writer.ReserveTailBytes(1);
    }

    method IsAllowed(name: Option<cstring>) returns (allowed: bool)
      requires Valid()
      ensures allowed <==> Allowed(Model(), name)
    {
      allowed := !closed && name != None && name.value != PROC_NAME;
    }

    method AddInt(name: Option<cstring>, value: int) returns (ok: bool)
      requires Valid()
      modifies this, writer, buffer, writer.first
      ensures Valid() && Model() == Added(old(Model()), Call.AddInt(name, value))
              && ok == IsAdded(old(Model()), Call.AddInt(name, value))
    {
      hide Apply, BoundedJsonWriter.Valid, BoundedJsonWriter.Model;
      ok := IsAllowed(name);
      if ok {
        ok := writer.AddInt(name, value);
      }
    }

    method AddUInt64(name: Option<cstring>, value: uint64) returns (ok: bool)
      requires Valid()
      modifies this, writer, buffer, writer.first
      ensures Valid() && Model() == Added(old(Model()), Call.AddUInt64(name, value))
              && ok == IsAdded(old(Model()), Call.AddUInt64(name, value))
    {
      hide Apply, BoundedJsonWriter.Valid, BoundedJsonWriter.Model;
      ok := IsAllowed(name);
      if ok {
        ok := writer.AddUInt64(name, value);
      }
    }

    method AddDouble(name: Option<cstring>, value: Double) returns (ok: bool)
      requires Valid()
      modifies this, writer, buffer, writer.first
      ensures Valid() && Model() == Added(old(Model()), Call.AddDouble(name, value))
              && ok == IsAdded(old(Model()), Call.AddDouble(name, value))
    {
      hide Apply, BoundedJsonWriter.Valid, BoundedJsonWriter.Model;
      ok := IsAllowed(name);
      if ok {
        ok := writer.AddDouble(name, value);
      }
    }

    method AddBool(name: Option<cstring>, value: bool) returns (ok: bool)
      requires Valid()
      modifies this, writer, buffer, writer.first
      ensures Valid() && Model() == Added(old(Model()), Call.AddBool(name, value))
              && ok == IsAdded(old(Model()), Call.AddBool(name, value))
    {
      hide Apply, BoundedJsonWriter.Valid, BoundedJsonWriter.Model;
      ok := IsAllowed(name);
      if ok {
        ok := writer.AddBool(name, value);
      }
    }

    method AddString(name: Option<cstring>, value: Option<cstring>) returns (ok: bool)
      requires Valid()
      modifies this, writer, buffer, writer.first
      ensures Valid() && Model() == Added(old(Model()), Call.AddString(name, value))
              && ok == IsAdded(old(Model()), Call.AddString(name, value))
    {
      hide Apply, BoundedJsonWriter.Valid, BoundedJsonWriter.Model;
      ok := IsAllowed(name);
      if ok {
        ok := writer.AddString(name, value);
      }
    }

    method AddBytes(name: Option<cstring>, value: Option<string>) returns (ok: bool)
      requires Valid()
      modifies this, writer, buffer, writer.first
      ensures Valid() && Model() == Added(old(Model()), Call.AddBytes(name, value))
              && ok == IsAdded(old(Model()), Call.AddBytes(name, value))
    {
      hide Apply, BoundedJsonWriter.Valid, BoundedJsonWriter.Model;
      ok := IsAllowed(name);
      if ok {
        ok := writer.AddBytes(name, value);
      }
    }

    method Close() returns (ok: bool)
      requires Valid()
      modifies this, writer, buffer, writer.first
      ensures Valid() && Model() == Closed(old(Model())) && ok == closed
    {
      hide Apply, BoundedJsonWriter.Valid, BoundedJsonWriter.Model;
      if closed {
        return true;
      }
      writer.ReleaseTailReserve();
      closed := writer.EndObject();
      ok := closed;
    }
  }
}
