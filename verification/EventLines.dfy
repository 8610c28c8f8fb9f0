/** The board's own events and acknowledgements: their scripts, their lines, and why the lines always fit. */
module EventLines {
  import opened Common
  import opened Json
  import opened JsonWriting
  import opened JsonScripts
  import opened JsonBuffer
  import Limits

  // ---------------------------------------------------------------------------------------
  // The lines.

  /** An event: envelope, then a details object with one string member. */
  function EventCalls(boardId: cstring, timestamp: uint64, event: cstring, detail: Call): seq<Call> {
    [BeginObject] + ([AddString(Some("type"), Some("event"))] + ([AddUInt64(Some("timestamp"), timestamp)] +
    ([AddString(Some("source"), Some(boardId))] + ([AddString(Some("target"), Some("controller"))] +
    ([AddString(Some("event"), Some(event))] + DetailCalls(detail))))))
  }

  function DetailCalls(detail: Call): seq<Call> {
    [BeginObjectField(Some("details"))] + ([detail] + ([EndObject] + [EndObject]))
  }

  function AckCalls(boardId: cstring, timestamp: uint64): seq<Call> {
    EventCalls(boardId, timestamp, "estop_ack", AddString(Some("state"), Some("safe")))
  }

  function TriggeredCalls(boardId: cstring, timestamp: uint64, reason: string): seq<Call> {
    EventCalls(boardId, timestamp, "estop_triggered", AddBytes(Some("reason"), Some(reason)))
  }

  function AckLine(boardId: cstring, timestamp: uint64): Option<string> {
    Line(Limits.BOARD_TX_MAX_LINE_BYTES, AckCalls(boardId, timestamp))
  }

  function TriggeredLine(boardId: cstring, timestamp: uint64, reason: string): Option<string> {
    Line(Limits.BOARD_TX_MAX_LINE_BYTES, TriggeredCalls(boardId, timestamp, reason))
  }

  function HeartbeatCalls(boardId: cstring, seq_: uint64): seq<Call> {
    [BeginObject] + ([AddString(Some("type"), Some("heartbeat"))] + ([AddUInt64(Some("seq"), seq_)] +
    ([AddString(Some("source"), Some(boardId))] + ([AddString(Some("target"), Some("controller"))] + [EndObject]))))
  }

  function HeartbeatLine(boardId: cstring, seq_: uint64): Option<string> {
    Line(Limits.BOARD_TX_MAX_LINE_BYTES, HeartbeatCalls(boardId, seq_))
  }

  predicate IsDetail(detail: Call) {
    || (detail.AddString? && detail.name.Some? && detail.value.Some?)
    || (detail.AddBytes? && detail.name.Some? && detail.bytes.Some?)
  }

  lemma ConsShape(one: Call, rest: seq<Call>)
    ensures ([one] + rest)[0] == one && ([one] + rest)[1..] == rest
    ensures TotalWidth([one] + rest) == Width(one) + TotalWidth(rest)
  {
    assert ([one] + rest)[1..] == rest;
  }

  lemma DetailIsShaped(detail: Call)
    requires IsDetail(detail)
    ensures Shaped(1, DetailCalls(detail))
    ensures TotalWidth(DetailCalls(detail)) <= 50 + Width(detail)
  {
    assert [EndObject][1..] == [] && Shaped(1, [EndObject]) && TotalWidth([EndObject]) == 1;
    ConsShape(EndObject, [EndObject]);
    assert Shaped(2, [EndObject] + [EndObject]);
    ConsShape(detail, [EndObject] + [EndObject]);
    ConsShape(BeginObjectField(Some("details")), [detail] + ([EndObject] + [EndObject]));
    EscapePrintable("details", Upper);
  }

  lemma LeafShape(one: Call, rest: seq<Call>)
    requires (one.AddString? && one.name.Some? && one.value.Some?) || (one.AddUInt64? && one.name.Some?)
    requires Shaped(1, rest)
    ensures Shaped(1, [one] + rest) && TotalWidth([one] + rest) == Width(one) + TotalWidth(rest)
  {
    ConsShape(one, rest);
  }

  lemma BytesWidth(name: cstring, bytes: string)
    ensures Width(AddBytes(Some(name), Some(bytes))) <= 6 * |name| + 6 * |bytes| + 6
  {
    EscapePrintable(name, Upper);
    EscapePrintable(bytes, Upper);
  }

  lemma EventShape(c1: Call, c2: Call, c3: Call, c4: Call, c5: Call, tail: seq<Call>)
    requires Shaped(1, tail) && c2.AddUInt64? && c2.name.Some?
    requires forall c :: c in {c1, c3, c4, c5} ==> c.AddString? && c.name.Some? && c.value.Some?
    ensures var calls := [BeginObject] + ([c1] + ([c2] + ([c3] + ([c4] + ([c5] + tail)))));
            IsScript(calls) && TotalWidth(calls) == 1 + Width(c1) + Width(c2) + Width(c3) + Width(c4) + Width(c5) + TotalWidth(tail)
  {
    hide Width;
    LeafShape(c5, tail);
    LeafShape(c4, [c5] + tail);
    LeafShape(c3, [c4] + ([c5] + tail));
    LeafShape(c2, [c3] + ([c4] + ([c5] + tail)));
    LeafShape(c1, [c2] + ([c3] + ([c4] + ([c5] + tail))));
    ConsShape(BeginObject, [c1] + ([c2] + ([c3] + ([c4] + ([c5] + tail)))));
    BraceWidths();
  }

  /** Every event fits: at most 6 bytes for a byte of the board id or the reason. */
  lemma EventIsScript(boardId: cstring, timestamp: uint64, event: cstring, detail: Call)
    requires |boardId| <= Limits.MAX_BOARD_ID_BYTES && |event| <= 20 && IsDetail(detail)
    ensures IsScript(EventCalls(boardId, timestamp, event, detail))
    ensures TotalWidth(EventCalls(boardId, timestamp, event, detail)) <= 900 + Width(detail)
  {
    hide Quote, Width, DetailCalls, TotalWidth, IsScript;
    DetailIsShaped(detail);
    EventShape(AddString(Some("type"), Some("event")), AddUInt64(Some("timestamp"), timestamp),
               AddString(Some("source"), Some(boardId)), AddString(Some("target"), Some("controller")),
               AddString(Some("event"), Some(event)), DetailCalls(detail));
    StringWidth("type", "event");
    UInt64Width("timestamp", timestamp);
    StringWidth("source", boardId);
    StringWidth("target", "controller");
    StringWidth("event", event);
  }

  lemma EventFits(boardId: cstring, timestamp: uint64, event: cstring, detail: Call)
    requires |boardId| <= Limits.MAX_BOARD_ID_BYTES && |event| <= 20 && IsDetail(detail) && Width(detail) <= 2000
    ensures var l := Line(Limits.BOARD_TX_MAX_LINE_BYTES, EventCalls(boardId, timestamp, event, detail));
            l.Some? && IsWireText(l.value)
  {
    var calls := EventCalls(boardId, timestamp, event, detail);
    EventIsScript(boardId, timestamp, event, detail);
    FullRun(calls);
    LineIff(Limits.BOARD_TX_MAX_LINE_BYTES, calls);
    LineIsWireText(Limits.BOARD_TX_MAX_LINE_BYTES, calls);
  }

  lemma AckLineFits(boardId: cstring, timestamp: uint64)
    requires |boardId| <= Limits.MAX_BOARD_ID_BYTES
    ensures AckLine(boardId, timestamp).Some? && IsWireText(AckLine(boardId, timestamp).value)
  {
    StringWidth("state", "safe");
    EventFits(boardId, timestamp, "estop_ack", AddString(Some("state"), Some("safe")));
  }

  lemma TriggeredLineFits(boardId: cstring, timestamp: uint64, reason: string)
    requires |boardId| <= Limits.MAX_BOARD_ID_BYTES && |reason| <= Limits.ESTOP_REASON_MAX_BYTES
    ensures TriggeredLine(boardId, timestamp, reason).Some?
            && IsWireText(TriggeredLine(boardId, timestamp, reason).value)
  {
    hide Width, Line;
    BytesWidth("reason", reason);
    EventFits(boardId, timestamp, "estop_triggered", AddBytes(Some("reason"), Some(reason)));
  }

  lemma EndShape()
    ensures Shaped(1, [EndObject]) && TotalWidth([EndObject]) == 1
  {
    assert [EndObject][1..] == [];
  }

  lemma HeartbeatIsScript(boardId: cstring, seq_: uint64)
    requires |boardId| <= Limits.MAX_BOARD_ID_BYTES
    ensures IsScript(HeartbeatCalls(boardId, seq_)) && TotalWidth(HeartbeatCalls(boardId, seq_)) <= 900
  {
    hide Quote, Escape, Shaped, Width;
    var c1 := AddString(Some("type"), Some("heartbeat"));
    var c2 := AddUInt64(Some("seq"), seq_);
    var c3 := AddString(Some("source"), Some(boardId));
    var c4 := AddString(Some("target"), Some("controller"));
    EndShape();
    BraceWidths();
    LeafShape(c4, [EndObject]);
    LeafShape(c3, [c4] + [EndObject]);
    LeafShape(c2, [c3] + ([c4] + [EndObject]));
    LeafShape(c1, [c2] + ([c3] + ([c4] + [EndObject])));
    ConsShape(BeginObject, [c1] + ([c2] + ([c3] + ([c4] + [EndObject]))));
    StringWidth("type", "heartbeat");
    UInt64Width("seq", seq_);
    StringWidth("source", boardId);
    StringWidth("target", "controller");
  }

  lemma HeartbeatLineFits(boardId: cstring, seq_: uint64)
    requires |boardId| <= Limits.MAX_BOARD_ID_BYTES
    ensures HeartbeatLine(boardId, seq_).Some? && IsWireText(HeartbeatLine(boardId, seq_).value)
  {
    hide HeartbeatCalls, Line, IsWireText, AllContent, FullText;
    HeartbeatIsScript(boardId, seq_);
    FullRun(HeartbeatCalls(boardId, seq_));
    LineIff(Limits.BOARD_TX_MAX_LINE_BYTES, HeartbeatCalls(boardId, seq_));
    LineIsWireText(Limits.BOARD_TX_MAX_LINE_BYTES, HeartbeatCalls(boardId, seq_));
  }

  // ---------------------------------------------------------------------------------------
  // What the controller reads.

  /** An event as the protocol lays it out: who, when, what, and the details. */
  function EventTree(boardId: cstring, timestamp: uint64, event: string, details: Members): Value {
    Object(Snoc(Snoc(Snoc(Snoc(Snoc(Snoc(Empty, "type", Text("event")), "timestamp", Literal(Decimal(timestamp))),
      "source", Text(boardId)), "target", Text("controller")), "event", Text(event)), "details", Object(details)))
  }

  function HeartbeatTree(boardId: cstring, seq_: uint64): Value {
    Object(Snoc(Snoc(Snoc(Snoc(Empty, "type", Text("heartbeat")), "seq", Literal(Decimal(seq_))),
      "source", Text(boardId)), "target", Text("controller")))
  }

  lemma DetailBuild(o: Open, detail: Call, name: cstring, text: string)
    requires o.Root? && (detail == AddBytes(Some(name), Some(text)) || ('\0' !in text && detail == AddString(Some(name), Some(text))))
    ensures Build(Building(o), DetailCalls(detail)) == Done(Snoc(o.members, "details", Object(Snoc(Empty, name, Text(text)))))
  {
    hide Build, Quote;
    var inner := Nested(o, "details", Empty);
    BuildCons(Building(o), BeginObjectField(Some("details")), [detail] + ([EndObject] + [EndObject]));
    BuildCons(Building(inner), detail, [EndObject] + [EndObject]);
    GrowLeaf(inner, name, text, 0);
    var full := AddMember(inner, name, Text(text));
    BuildCons(Building(full), EndObject, [EndObject]);
    BuildOne(Building(AddMember(o, "details", Object(full.members))), EndObject);
  }

  lemma EventBuild(boardId: cstring, timestamp: uint64, event: cstring, detail: Call, name: cstring, text: string)
    requires detail == AddBytes(Some(name), Some(text)) || ('\0' !in text && detail == AddString(Some(name), Some(text)))
    ensures var t := Build(NoTree, EventCalls(boardId, timestamp, event, detail));
            t.Done? && Object(t.members) == EventTree(boardId, timestamp, event, Snoc(Empty, name, Text(text)))
  {
    hide Build, Grow, Decimal, DetailCalls;
    var c1, c2 := AddString(Some("type"), Some("event")), AddUInt64(Some("timestamp"), timestamp);
    var c3, c4 := AddString(Some("source"), Some(boardId)), AddString(Some("target"), Some("controller"));
    var c5, tail := AddString(Some("event"), Some(event)), DetailCalls(detail);
    BuildCons(NoTree, BeginObject, [c1] + ([c2] + ([c3] + ([c4] + ([c5] + tail)))));
    var o := Root(Empty);
    GrowLeaf(o, "type", "event", 0);
    BuildCons(Building(o), c1, [c2] + ([c3] + ([c4] + ([c5] + tail))));
    var o1 := AddMember(o, "type", Text("event"));
    GrowLeaf(o1, "timestamp", "", timestamp);
    BuildCons(Building(o1), c2, [c3] + ([c4] + ([c5] + tail)));
    var o2 := AddMember(o1, "timestamp", Literal(Decimal(timestamp)));
    GrowLeaf(o2, "source", boardId, 0);
    BuildCons(Building(o2), c3, [c4] + ([c5] + tail));
    var o3 := AddMember(o2, "source", Text(boardId));
    GrowLeaf(o3, "target", "controller", 0);
    BuildCons(Building(o3), c4, [c5] + tail);
    var o4 := AddMember(o3, "target", Text("controller"));
    GrowLeaf(o4, "event", event, 0);
    BuildCons(Building(o4), c5, tail);
    DetailBuild(AddMember(o4, "event", Text(event)), detail, name, text);
  }

  lemma EventParses(boardId: cstring, timestamp: uint64, event: cstring, detail: Call, name: cstring, text: string)
    requires |boardId| <= Limits.MAX_BOARD_ID_BYTES && |event| <= 20 && IsDetail(detail)
    requires detail == AddBytes(Some(name), Some(text)) || ('\0' !in text && detail == AddString(Some(name), Some(text)))
    requires Line(Limits.BOARD_TX_MAX_LINE_BYTES, EventCalls(boardId, timestamp, event, detail)).Some?
    ensures ParseDocument(Line(Limits.BOARD_TX_MAX_LINE_BYTES, EventCalls(boardId, timestamp, event, detail)).value)
         == Some(EventTree(boardId, timestamp, event, Snoc(Empty, name, Text(text))))
  {
    hide EventCalls, EventTree, Build, Line, ParseDocument;
    EventIsScript(boardId, timestamp, event, detail);
    EventBuild(boardId, timestamp, event, detail, name, text);
    LineParses(Limits.BOARD_TX_MAX_LINE_BYTES, EventCalls(boardId, timestamp, event, detail));
  }

  /** The event line is there for every id and reason that fit their limits, and says when it was requested and why. */
  lemma TriggeredLineParses(boardId: cstring, timestamp: uint64, reason: string)
    requires |boardId| <= Limits.MAX_BOARD_ID_BYTES && |reason| <= Limits.ESTOP_REASON_MAX_BYTES
    ensures TriggeredLine(boardId, timestamp, reason).Some?
    ensures ParseDocument(TriggeredLine(boardId, timestamp, reason).value)
         == Some(EventTree(boardId, timestamp, "estop_triggered", Snoc(Empty, "reason", Text(reason))))
  {
    hide Line, EventTree, ParseDocument, EventCalls;
    TriggeredLineFits(boardId, timestamp, reason);
    EventParses(boardId, timestamp, "estop_triggered", AddBytes(Some("reason"), Some(reason)), "reason", reason);
  }

  lemma AckLineParses(boardId: cstring, timestamp: uint64)
    requires |boardId| <= Limits.MAX_BOARD_ID_BYTES
    ensures AckLine(boardId, timestamp).Some?
    ensures ParseDocument(AckLine(boardId, timestamp).value)
         == Some(EventTree(boardId, timestamp, "estop_ack", Snoc(Empty, "state", Text("safe"))))
  {
    hide Line, EventTree, ParseDocument, EventCalls;
    AckLineFits(boardId, timestamp);
    EventParses(boardId, timestamp, "estop_ack", AddString(Some("state"), Some("safe")), "state", "safe");
  }

  lemma HeartbeatBuild(boardId: cstring, seq_: uint64)
    ensures var t := Build(NoTree, HeartbeatCalls(boardId, seq_)); t.Done? && Object(t.members) == HeartbeatTree(boardId, seq_)
  {
    hide Build, Decimal;
    var c1, c2 := AddString(Some("type"), Some("heartbeat")), AddUInt64(Some("seq"), seq_);
    var c3, c4 := AddString(Some("source"), Some(boardId)), AddString(Some("target"), Some("controller"));
    BuildCons(NoTree, BeginObject, [c1] + ([c2] + ([c3] + ([c4] + [EndObject]))));
    var o := Root(Empty);
    GrowLeaf(o, "type", "heartbeat", 0);
    BuildCons(Building(o), c1, [c2] + ([c3] + ([c4] + [EndObject])));
    var o1 := AddMember(o, "type", Text("heartbeat"));
    GrowLeaf(o1, "seq", "", seq_);
    BuildCons(Building(o1), c2, [c3] + ([c4] + [EndObject]));
    var o2 := AddMember(o1, "seq", Literal(Decimal(seq_)));
    GrowLeaf(o2, "source", boardId, 0);
    BuildCons(Building(o2), c3, [c4] + [EndObject]);
    var o3 := AddMember(o2, "source", Text(boardId));
    GrowLeaf(o3, "target", "controller", 0);
    BuildCons(Building(o3), c4, [EndObject]);
    BuildOne(Building(AddMember(o3, "target", Text("controller"))), EndObject);
  }

  /** The acknowledgement of a heartbeat echoes its number. */
  lemma HeartbeatLineParses(boardId: cstring, seq_: uint64)
    requires |boardId| <= Limits.MAX_BOARD_ID_BYTES
    ensures HeartbeatLine(boardId, seq_).Some?
    ensures ParseDocument(HeartbeatLine(boardId, seq_).value) == Some(HeartbeatTree(boardId, seq_))
  {
    hide Build, Line, ParseDocument, HeartbeatTree, HeartbeatCalls;
    HeartbeatLineFits(boardId, seq_);
    HeartbeatIsScript(boardId, seq_);
    HeartbeatBuild(boardId, seq_);
    LineParses(Limits.BOARD_TX_MAX_LINE_BYTES, HeartbeatCalls(boardId, seq_));
  }

  // ---------------------------------------------------------------------------------------
  // Writing them into a buffer.

  /** Both event builders: the same envelope around different details. */
  method BuildEventLine(boardId: cstring, timestamp: uint64, event: cstring, detail: Call) returns (line: Option<string>)
    requires IsDetail(detail)
    ensures line == Line(Limits.BOARD_TX_MAX_LINE_BYTES, EventCalls(boardId, timestamp, event, detail))
  {
    var buffer := new char[Limits.BOARD_TX_MAX_LINE_BYTES](_ => '\0');
    var writer := new BoundedJsonWriter(buffer, Limits.BOARD_TX_MAX_LINE_BYTES);
    var reserved := writer.ReserveTailBytes(1);
    var ok := WriteEvent(writer, boardId, timestamp, event, detail);
    if !ok {
      return None;
    }
    writer.ReleaseTailReserve();
    ok := writer.AppendNewline();
    if !ok || writer.length > Limits.BOARD_TX_MAX_LINE_BYTES {
      return None;
    }
    return Some(buffer[..writer.length]);
  }

  method BuildTriggeredLine(boardId: cstring, timestamp: uint64, reason: string) returns (line: Option<string>)
    ensures line == TriggeredLine(boardId, timestamp, reason)
  {
    line := BuildEventLine(boardId, timestamp, "estop_triggered", AddBytes(Some("reason"), Some(reason)));
  }

  method BuildAckLine(boardId: cstring, timestamp: uint64) returns (line: Option<string>)
    ensures line == AckLine(boardId, timestamp)
  {
    line := BuildEventLine(boardId, timestamp, "estop_ack", AddString(Some("state"), Some("safe")));
  }

  method BuildHeartbeatLine(boardId: cstring, seq_: uint64) returns (line: Option<string>)
    ensures line == HeartbeatLine(boardId, seq_)
  {
    var buffer := new char[Limits.BOARD_TX_MAX_LINE_BYTES](_ => '\0');
    var writer := new BoundedJsonWriter(buffer, Limits.BOARD_TX_MAX_LINE_BYTES);
    var reserved := writer.ReserveTailBytes(1);
    var ok := WriteHeartbeat(writer, boardId, seq_);
    if !ok {
      return None;
    }
    writer.ReleaseTailReserve();
    ok := writer.AppendNewline();
    if !ok || writer.length > Limits.BOARD_TX_MAX_LINE_BYTES {
      return None;
    }
    return Some(buffer[..writer.length]);
  }

  method WriteHeartbeat(writer: BoundedJsonWriter, boardId: cstring, seq_: uint64) returns (ok: bool)
    requires writer.Valid()
    modifies writer, writer.buffer, writer.first
    ensures writer.Valid()
    ensures Result(writer.Model(), ok) == Run(old(writer.Model()), HeartbeatCalls(boardId, seq_))
  {
    hide Apply, Quote, Decimal;
    ghost var c1 := AddString(Some("type"), Some("heartbeat"));
    ghost var c2 := Call.AddUInt64(Some("seq"), seq_);
    ghost var c3 := AddString(Some("source"), Some(boardId));
    ghost var c4 := AddString(Some("target"), Some("controller"));
    RunCons(writer.Model(), BeginObject, [c1] + ([c2] + ([c3] + ([c4] + [EndObject]))));
    ok := writer.BeginObject();
    if !ok { return; }
    RunCons(writer.Model(), c1, [c2] + ([c3] + ([c4] + [EndObject])));
    ok := writer.AddString(Some("type"), Some("heartbeat"));
    if !ok { return; }
    RunCons(writer.Model(), c2, [c3] + ([c4] + [EndObject]));
    ok := writer.AddUInt64(Some("seq"), seq_);
    if !ok { return; }
    RunCons(writer.Model(), c3, [c4] + [EndObject]);
    ok := writer.AddString(Some("source"), Some(boardId));
    if !ok { return; }
    RunCons(writer.Model(), c4, [EndObject]);
    ok := writer.AddString(Some("target"), Some("controller"));
    if !ok { return; }
    RunOne(writer.Model(), EndObject);
    ok := writer.EndObject();
  }

  method WriteEvent(writer: BoundedJsonWriter, boardId: cstring, timestamp: uint64, event: cstring, detail: Call) returns (ok: bool)
    requires writer.Valid() && IsDetail(detail)
    modifies writer, writer.buffer, writer.first
    ensures writer.Valid()
    ensures Result(writer.Model(), ok) == Run(old(writer.Model()), EventCalls(boardId, timestamp, event, detail))
  {
    ghost var c1 := AddString(Some("type"), Some("event"));
    ghost var c2 := Call.AddUInt64(Some("timestamp"), timestamp);
    ghost var c3 := AddString(Some("source"), Some(boardId));
    ghost var c4 := AddString(Some("target"), Some("controller"));
    ghost var c5 := AddString(Some("event"), Some(event));
    RunCons(writer.Model(), BeginObject, [c1] + ([c2] + ([c3] + ([c4] + ([c5] + DetailCalls(detail))))));
    ok := writer.BeginObject();
    if !ok { return; }
    RunCons(writer.Model(), c1, [c2] + ([c3] + ([c4] + ([c5] + DetailCalls(detail)))));
    ok := writer.AddString(Some("type"), Some("event"));
    if !ok { return; }
    RunCons(writer.Model(), c2, [c3] + ([c4] + ([c5] + DetailCalls(detail))));
    ok := writer.AddUInt64(Some("timestamp"), timestamp);
    if !ok { return; }
    RunCons(writer.Model(), c3, [c4] + ([c5] + DetailCalls(detail)));
    ok := writer.AddString(Some("source"), Some(boardId));
    if !ok { return; }
    RunCons(writer.Model(), c4, [c5] + DetailCalls(detail));
    ok := writer.AddString(Some("target"), Some("controller"));
    if !ok { return; }
    RunCons(writer.Model(), c5, DetailCalls(detail));
    ok := writer.AddString(Some("event"), Some(event));
    if !ok { return; }
    ok := WriteDetails(writer, detail);
  }

  method WriteDetails(writer: BoundedJsonWriter, detail: Call) returns (ok: bool)
    requires writer.Valid() && IsDetail(detail)
    modifies writer, writer.buffer, writer.first
    ensures writer.Valid() && Result(writer.Model(), ok) == Run(old(writer.Model()), DetailCalls(detail))
  {
    RunCons(writer.Model(), BeginObjectField(Some("details")), [detail] + ([EndObject] + [EndObject]));
    ok := writer.BeginObjectField(Some("details"));
    if !ok { return; }
    RunCons(writer.Model(), detail, [EndObject] + [EndObject]);
    if detail.AddString? {
      ok := writer.AddString(detail.name, detail.value);
    } else {
      ok := writer.AddBytes(detail.name, detail.bytes);
    }
    if !ok { return; }
    RunCons(writer.Model(), EndObject, [EndObject]);
    ok := writer.EndObject();
    if !ok { return; }
    RunOne(writer.Model(), EndObject);
    ok := writer.EndObject();
  }
}
