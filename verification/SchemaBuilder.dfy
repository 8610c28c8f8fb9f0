/**
 The schema line: what is written, when it fits, what a controller reads from it, and why one
 check at seal time is enough for every later build.
 */
module Schema {
  import opened Common
  import opened Json
  import opened JsonWriting
  import opened JsonScripts
  import opened Registry
  import Limits

  const SCHEMA_SEQ: uint64 := 1
  const MAX_TIMESTAMP: uint64 := TWO_64 - 1

  function TypeName(t: ValueType): cstring {
    match t
    case Int => "int"
    case Float => "float"
    case Bool => "bool"
    case String => "string"
  }

  function FieldCalls(ns: seq<Named>): seq<Call> {
    if ns == [] then [] else [AddString(Some(ns[0].name), Some(TypeName(ns[0].kind)))] + FieldCalls(ns[1..])
  }

  function ObjectCalls(name: cstring, inside: seq<Call>): seq<Call> {
    [BeginObjectField(Some(name))] + (inside + [EndObject])
  }

  function CommandCalls(c: Command): seq<Call> {
    ObjectCalls(c.name, ObjectCalls("args", FieldCalls(c.args)) + [AddBool(Some("blocked_by_estop"), c.blockedByEstop)])
  }

  function AllCommandCalls(cs: seq<Command>): seq<Call> {
    if cs == [] then [] else CommandCalls(cs[0]) + AllCommandCalls(cs[1..])
  }

  function HeaderCalls(b: Board, timestamp: uint64): seq<Call> {
    [BeginObject] + ([AddString(Some("type"), Some("schema"))] + ([AddUInt64(Some("seq"), SCHEMA_SEQ)] +
    ([AddUInt64(Some("timestamp"), timestamp)] + ([AddString(Some("source"), Some(b.identity.boardId))] +
    ([AddString(Some("target"), Some("controller"))] +
    [AddString(Some("protocol_version"), Some(b.identity.protocolVersion))])))))
  }

  function SchemaObjectCalls(b: Board): seq<Call> {
    ObjectCalls("schema",
      ObjectCalls("commands", AllCommandCalls(b.commands)) +
      (ObjectCalls("telemetry", FieldCalls(b.telemetry)) +
      (ObjectCalls("state", FieldCalls(b.state)) +
      [AddString(Some("firmware_version"), Some(b.identity.firmwareVersion))])))
  }

  function SchemaCalls(b: Board, timestamp: uint64): seq<Call> {
    HeaderCalls(b, timestamp) + (SchemaObjectCalls(b) + [EndObject])
  }

  /** What `buildSchemaLine` leaves in an 8192-byte buffer. */
  function SchemaLine(b: Board, timestamp: uint64): Option<string> {
    Line(Limits.BOARD_TX_MAX_LINE_BYTES, SchemaCalls(b, timestamp))
  }

  /** The check made once, before sealing. */
  predicate MaximumSchemaFits(b: Board) {
    SchemaLine(b, MAX_TIMESTAMP).Some?
  }

  // ---------------------------------------------------------------------------------------
  // The seal-time check is enough.

  /** Two calls alike but for an integer that is no larger. */
  predicate NoWider(c: Call, d: Call) {
    c == d || (c.AddUInt64? && d.AddUInt64? && c.name == d.name && c.n <= d.n)
  }

  predicate AllNoWider(cs: seq<Call>, ds: seq<Call>) {
    |cs| == |ds| && forall k :: 0 <= k < |cs| ==> NoWider(cs[k], ds[k])
  }

  /** The same writer state with no more text. */
  predicate NoLonger(v: Writer, w: Writer) {
    |v.text| <= |w.text| && w == v.(text := w.text)
  }

  lemma FieldNoLonger(v: Writer, w: Writer, name: Option<cstring>, short: string, long: string)
    requires NoLonger(v, w) && |short| <= |long| && Field(w, name, long).ok
    ensures Field(v, name, short).ok && NoLonger(Field(v, name, short).w, Field(w, name, long).w)
  {
  }

  lemma CallNoLonger(v: Writer, w: Writer, c: Call, d: Call)
    requires NoLonger(v, w) && NoWider(c, d) && IsContent(d) && Apply(w, d).ok
    ensures Apply(v, c).ok && NoLonger(Apply(v, c).w, Apply(w, d).w)
  {
    match d
    case BeginObjectField(name) => FieldNoLonger(v, w, name, "{", "{");
    case AddString(name, s) => FieldNoLonger(v, w, name, Quote(s.value, Upper), Quote(s.value, Upper));
    case AddBytes(name, s) => FieldNoLonger(v, w, name, Quote(s.value, Upper), Quote(s.value, Upper));
    case AddInt(name, i) => FieldNoLonger(v, w, name, DecimalInt(i), DecimalInt(i));
    case AddUInt64(name, n) => DecimalWidth(c.n, n); FieldNoLonger(v, w, name, Decimal(c.n), Decimal(n));
    case AddDouble(name, x) => FieldNoLonger(v, w, name, x.literal, x.literal);
    case AddBool(name, x) => FieldNoLonger(v, w, name, if x then "true" else "false", if x then "true" else "false");
    case AddNull(name) => FieldNoLonger(v, w, name, "null", "null");
    case _ =>
  }

  lemma {:induction false} RunNoLonger(v: Writer, w: Writer, cs: seq<Call>, ds: seq<Call>)
    requires NoLonger(v, w) && AllNoWider(cs, ds) && AllContent(ds) && Run(w, ds).ok
    ensures Run(v, cs).ok && NoLonger(Run(v, cs).w, Run(w, ds).w)
    decreases |cs|
  {
    if cs != [] {
      CallNoLonger(v, w, cs[0], ds[0]);
      RunNoLonger(Apply(v, cs[0]).w, Apply(w, ds[0]).w, cs[1..], ds[1..]);
    }
  }

  lemma {:induction false} FieldCallsShaped(ns: seq<Named>, depth: nat, rest: seq<Call>)
    requires depth > 0 && Shaped(depth, rest)
    ensures Shaped(depth, FieldCalls(ns) + rest)
    decreases |ns|
  {
    if ns == [] {
      assert FieldCalls(ns) + rest == rest;
    } else {
      FieldCallsShaped(ns[1..], depth, rest);
      ShapedCons([AddString(Some(ns[0].name), Some(TypeName(ns[0].kind)))], FieldCalls(ns[1..]), rest);
    }
  }

  lemma ShapedCons(one: seq<Call>, more: seq<Call>, rest: seq<Call>)
    requires |one| == 1
    ensures (one + more) + rest == one + (more + rest)
    ensures (one + (more + rest))[1..] == more + rest && (one + (more + rest))[0] == one[0]
  {
  }

  /** An object's calls are shaped when its inside is, up to its end. */
  lemma ObjectShaped(name: cstring, inside: seq<Call>, depth: nat, rest: seq<Call>)
    requires 0 < depth < Limits.MAX_JSON_NESTING_DEPTH
    requires Shaped(depth + 1, inside + ([EndObject] + rest))
    ensures Shaped(depth, ObjectCalls(name, inside) + rest)
  {
    ShapedCons([BeginObjectField(Some(name))], inside + [EndObject], rest);
    Assoc(inside, [EndObject], rest);
  }

  lemma EndShaped(depth: nat, rest: seq<Call>)
    requires depth > 1 && Shaped(depth - 1, rest)
    ensures Shaped(depth, [EndObject] + rest)
  {
    assert ([EndObject] + rest)[1..] == rest;
  }

  lemma CommandShaped(c: Command, rest: seq<Call>)
    requires Shaped(3, rest)
    ensures Shaped(3, CommandCalls(c) + rest)
  {
    var flag := [AddBool(Some("blocked_by_estop"), c.blockedByEstop)];
    EndShaped(4, rest);
    var r1 := flag + ([EndObject] + rest);
    assert r1[1..] == [EndObject] + rest;
    EndShaped(5, r1);
    FieldCallsShaped(c.args, 5, [EndObject] + r1);
    ObjectShaped("args", FieldCalls(c.args), 4, r1);
    Assoc(ObjectCalls("args", FieldCalls(c.args)), flag, [EndObject] + rest);
    ObjectShaped(c.name, ObjectCalls("args", FieldCalls(c.args)) + flag, 3, rest);
  }

  lemma {:induction false} AllCommandsShaped(cs: seq<Command>, rest: seq<Call>)
    requires Shaped(3, rest)
    ensures Shaped(3, AllCommandCalls(cs) + rest)
    decreases |cs|
  {
    if cs == [] {
      assert AllCommandCalls(cs) + rest == rest;
    } else {
      AllCommandsShaped(cs[1..], rest);
      CommandShaped(cs[0], AllCommandCalls(cs[1..]) + rest);
      Assoc(CommandCalls(cs[0]), AllCommandCalls(cs[1..]), rest);
    }
  }

  lemma FieldsObjectShaped(name: cstring, ns: seq<Named>, rest: seq<Call>)
    requires Shaped(2, rest)
    ensures Shaped(2, ObjectCalls(name, FieldCalls(ns)) + rest)
  {
    EndShaped(3, rest);
    FieldCallsShaped(ns, 3, [EndObject] + rest);
    ObjectShaped(name, FieldCalls(ns), 2, rest);
  }

  lemma FirmwareShaped(firmware: Call)
    requires firmware.AddString? && firmware.name.Some? && firmware.value.Some?
    ensures Shaped(2, [firmware] + ([EndObject] + [EndObject]))
  {
    assert [EndObject][1..] == [] && Shaped(1, [EndObject]);
    EndShaped(2, [EndObject]);
    assert ([firmware] + ([EndObject] + [EndObject]))[1..] == [EndObject] + [EndObject];
  }

  lemma InnerObjectsShaped(b: Board, rest: seq<Call>)
    requires Shaped(2, rest)
    ensures Shaped(2, ObjectCalls("commands", AllCommandCalls(b.commands)) +
                      (ObjectCalls("telemetry", FieldCalls(b.telemetry)) + (ObjectCalls("state", FieldCalls(b.state)) + rest)))
  {
    FieldsObjectShaped("state", b.state, rest);
    var r1 := ObjectCalls("state", FieldCalls(b.state)) + rest;
    FieldsObjectShaped("telemetry", b.telemetry, r1);
    var r2 := ObjectCalls("telemetry", FieldCalls(b.telemetry)) + r1;
    EndShaped(3, r2);
    AllCommandsShaped(b.commands, [EndObject] + r2);
    ObjectShaped("commands", AllCommandCalls(b.commands), 2, r2);
  }

  lemma AssocFour(a: seq<Call>, b: seq<Call>, c: seq<Call>, d: seq<Call>, rest: seq<Call>)
    ensures (a + (b + (c + d))) + rest == a + (b + (c + (d + rest)))
  {
  }

  lemma SchemaObjectShaped(b: Board)
    ensures Shaped(1, SchemaObjectCalls(b) + [EndObject])
  {
    var end := [EndObject] + [EndObject];
    var firmware := AddString(Some("firmware_version"), Some(b.identity.firmwareVersion));
    FirmwareShaped(firmware);
    InnerObjectsShaped(b, [firmware] + end);
    var commands := ObjectCalls("commands", AllCommandCalls(b.commands));
    var telemetry := ObjectCalls("telemetry", FieldCalls(b.telemetry));
    var state := ObjectCalls("state", FieldCalls(b.state));
    AssocFour(commands, telemetry, state, [firmware], end);
    ObjectShaped("schema", commands + (telemetry + (state + [firmware])), 1, [EndObject]);
  }

  lemma LeafShaped(one: seq<Call>, rest: seq<Call>)
    requires |one| == 1 && (one[0].AddString? ==> one[0].value.Some?)
    requires (one[0].AddString? || one[0].AddUInt64?) && one[0].name.Some?
    requires Shaped(1, rest)
    ensures Shaped(1, one + rest)
  {
    assert (one + rest)[1..] == rest;
  }

  lemma SchemaIsScript(b: Board, timestamp: uint64)
    ensures IsScript(SchemaCalls(b, timestamp))
  {
    var rest := SchemaObjectCalls(b) + [EndObject];
    SchemaObjectShaped(b);
    var h6 := [AddString(Some("protocol_version"), Some(b.identity.protocolVersion))];
    var h5 := [AddString(Some("target"), Some("controller"))];
    var h4 := [AddString(Some("source"), Some(b.identity.boardId))];
    var h3 := [AddUInt64(Some("timestamp"), timestamp)];
    var h2 := [AddUInt64(Some("seq"), SCHEMA_SEQ)];
    var h1 := [AddString(Some("type"), Some("schema"))];
    LeafShaped(h6, rest);
    LeafShaped(h5, h6 + rest);
    LeafShaped(h4, h5 + (h6 + rest));
    LeafShaped(h3, h4 + (h5 + (h6 + rest)));
    LeafShaped(h2, h3 + (h4 + (h5 + (h6 + rest))));
    LeafShaped(h1, h2 + (h3 + (h4 + (h5 + (h6 + rest)))));
    HeaderUnfolds(b, timestamp, rest);
    assert ([BeginObject] + (h1 + (h2 + (h3 + (h4 + (h5 + (h6 + rest)))))))[1..] == h1 + (h2 + (h3 + (h4 + (h5 + (h6 + rest)))));
  }

  lemma HeaderUnfolds(b: Board, timestamp: uint64, rest: seq<Call>)
    ensures HeaderCalls(b, timestamp) + rest ==
      [BeginObject] + ([AddString(Some("type"), Some("schema"))] + ([AddUInt64(Some("seq"), SCHEMA_SEQ)] +
      ([AddUInt64(Some("timestamp"), timestamp)] + ([AddString(Some("source"), Some(b.identity.boardId))] +
      ([AddString(Some("target"), Some("controller"))] +
      ([AddString(Some("protocol_version"), Some(b.identity.protocolVersion))] + rest))))))
  {
  }

  lemma OnlyTheTimestampDiffers(b: Board, timestamp: uint64)
    ensures AllNoWider(SchemaCalls(b, timestamp), SchemaCalls(b, MAX_TIMESTAMP))
  {
    assert |HeaderCalls(b, timestamp)| == 7 == |HeaderCalls(b, MAX_TIMESTAMP)|;
    var cs, ds := SchemaCalls(b, timestamp), SchemaCalls(b, MAX_TIMESTAMP);
    forall k | 0 <= k < |cs| ensures NoWider(cs[k], ds[k]) {
      if k < 7 {
        assert NoWider(HeaderCalls(b, timestamp)[k], HeaderCalls(b, MAX_TIMESTAMP)[k]);
      }
    }
  }

  /**
   If the check passes before sealing, then for every timestamp the schema can be built, and the
   line passes the transmit path's test: at most 8192 bytes, no NUL, one newline, at the end.
   */
  lemma SealTimeCheckSuffices(b: Board, timestamp: uint64)
    requires MaximumSchemaFits(b)
    ensures SchemaLine(b, timestamp).Some? && IsWireText(SchemaLine(b, timestamp).value)
  {
    hide SchemaCalls, Run, IsScript, AllContent, IsWireText, SameContent, InBounds;
    var w := Reserved(Limits.BOARD_TX_MAX_LINE_BYTES);
    SchemaIsScript(b, MAX_TIMESTAMP);
    FullRun(SchemaCalls(b, MAX_TIMESTAMP));
    OnlyTheTimestampDiffers(b, timestamp);
    RunNoLonger(w, w, SchemaCalls(b, timestamp), SchemaCalls(b, MAX_TIMESTAMP));
    SchemaIsScript(b, timestamp);
    FullRun(SchemaCalls(b, timestamp));
    TextOnlyGrows(w, SchemaCalls(b, timestamp));
    LineIsWireText(Limits.BOARD_TX_MAX_LINE_BYTES, SchemaCalls(b, timestamp));
  }

  // ---------------------------------------------------------------------------------------
  // What the controller reads.

  function FieldMembers(m: Members, ns: seq<Named>): Members
    decreases |ns|
  {
    if ns == [] then m else FieldMembers(Snoc(m, ns[0].name, Text(TypeName(ns[0].kind))), ns[1..])
  }

  function CommandTree(c: Command): Value {
    Object(Snoc(Snoc(Empty, "args", Object(FieldMembers(Empty, c.args))),
                "blocked_by_estop", Literal(if c.blockedByEstop then "true" else "false")))
  }

  function CommandMembers(m: Members, cs: seq<Command>): Members
    decreases |cs|
  {
    if cs == [] then m else CommandMembers(Snoc(m, cs[0].name, CommandTree(cs[0])), cs[1..])
  }

  function HeaderMembers(b: Board, timestamp: uint64): Members {
    Snoc(Snoc(Snoc(Snoc(Snoc(Snoc(Empty, "type", Text("schema")), "seq", Literal(Decimal(SCHEMA_SEQ))),
      "timestamp", Literal(Decimal(timestamp))), "source", Text(b.identity.boardId)),
      "target", Text("controller")), "protocol_version", Text(b.identity.protocolVersion))
  }

  function SchemaMembers(b: Board): Members {
    Snoc(Snoc(Snoc(Snoc(Empty, "commands", Object(CommandMembers(Empty, b.commands))),
      "telemetry", Object(FieldMembers(Empty, b.telemetry))), "state", Object(FieldMembers(Empty, b.state))),
      "firmware_version", Text(b.identity.firmwareVersion))
  }

  function SchemaTree(b: Board, timestamp: uint64): Members {
    Snoc(HeaderMembers(b, timestamp), "schema", Object(SchemaMembers(b)))
  }

  function WithMembers(o: Open, m: Members): Open {
    o.(members := m)
  }

  lemma {:induction false} FieldCallsBuild(o: Open, ns: seq<Named>)
    ensures Build(Building(o), FieldCalls(ns)) == Building(WithMembers(o, FieldMembers(o.members, ns)))
    decreases |ns|
  {
    if ns != [] {
      var call := AddString(Some(ns[0].name), Some(TypeName(ns[0].kind)));
      BuildCons(Building(o), call, FieldCalls(ns[1..]));
      FieldCallsBuild(AddMember(o, ns[0].name, Text(TypeName(ns[0].kind))), ns[1..]);
    }
  }

  /** An object's calls add one member: the object its inside builds. */
  lemma ObjectBuild(o: Open, name: cstring, inside: seq<Call>, m: Members)
    requires Build(Building(Nested(o, name, Empty)), inside) == Building(Nested(o, name, m))
    ensures Build(Building(o), ObjectCalls(name, inside)) == Building(AddMember(o, name, Object(m)))
  {
    BuildCons(Building(o), BeginObjectField(Some(name)), inside + [EndObject]);
    BuildThen(Building(Nested(o, name, Empty)), inside, [EndObject]);
    BuildOne(Building(Nested(o, name, m)), EndObject);
  }

  lemma FieldsObjectBuild(o: Open, name: cstring, ns: seq<Named>)
    ensures Build(Building(o), ObjectCalls(name, FieldCalls(ns))) == Building(AddMember(o, name, Object(FieldMembers(Empty, ns))))
  {
    FieldCallsBuild(Nested(o, name, Empty), ns);
    ObjectBuild(o, name, FieldCalls(ns), FieldMembers(Empty, ns));
  }

  lemma CommandBuild(o: Open, c: Command)
    ensures Build(Building(o), CommandCalls(c)) == Building(AddMember(o, c.name, CommandTree(c)))
  {
    var inner := Nested(o, c.name, Empty);
    var args := ObjectCalls("args", FieldCalls(c.args));
    var flag := AddBool(Some("blocked_by_estop"), c.blockedByEstop);
    FieldsObjectBuild(inner, "args", c.args);
    BuildThen(Building(inner), args, [flag]);
    BuildOne(Building(AddMember(inner, "args", Object(FieldMembers(Empty, c.args)))), flag);
    ObjectBuild(o, c.name, args + [flag], CommandTree(c).members);
  }

  lemma {:induction false} CommandsBuild(o: Open, cs: seq<Command>)
    ensures Build(Building(o), AllCommandCalls(cs)) == Building(WithMembers(o, CommandMembers(o.members, cs)))
    decreases |cs|
  {
    if cs != [] {
      BuildThen(Building(o), CommandCalls(cs[0]), AllCommandCalls(cs[1..]));
      CommandBuild(o, cs[0]);
      CommandsBuild(AddMember(o, cs[0].name, CommandTree(cs[0])), cs[1..]);
    }
  }

  lemma SchemaObjectBuild(o: Open, b: Board)
    ensures Build(Building(o), SchemaObjectCalls(b)) == Building(AddMember(o, "schema", Object(SchemaMembers(b))))
  {
    hide AllCommandCalls, FieldCalls, CommandMembers, FieldMembers, Build;
    var o0 := Nested(o, "schema", Empty);
    var commands := ObjectCalls("commands", AllCommandCalls(b.commands));
    var telemetry := ObjectCalls("telemetry", FieldCalls(b.telemetry));
    var state := ObjectCalls("state", FieldCalls(b.state));
    var firmware := AddString(Some("firmware_version"), Some(b.identity.firmwareVersion));
    CommandsBuild(Nested(o0, "commands", Empty), b.commands);
    ObjectBuild(o0, "commands", AllCommandCalls(b.commands), CommandMembers(Empty, b.commands));
    var o1 := AddMember(o0, "commands", Object(CommandMembers(Empty, b.commands)));
    FieldsObjectBuild(o1, "telemetry", b.telemetry);
    var o2 := AddMember(o1, "telemetry", Object(FieldMembers(Empty, b.telemetry)));
    FieldsObjectBuild(o2, "state", b.state);
    var o3 := AddMember(o2, "state", Object(FieldMembers(Empty, b.state)));
    BuildOne(Building(o3), firmware);
    BuildThen(Building(o2), state, [firmware]);
    BuildThen(Building(o1), telemetry, state + [firmware]);
    BuildThen(Building(o0), commands, telemetry + (state + [firmware]));
    ObjectBuild(o, "schema", commands + (telemetry + (state + [firmware])), SchemaMembers(b));
  }

  lemma BuildSeven(t: Tree, c0: Call, c1: Call, c2: Call, c3: Call, c4: Call, c5: Call, c6: Call)
    ensures Build(t, [c0] + ([c1] + ([c2] + ([c3] + ([c4] + ([c5] + [c6]))))))
         == Grow(Grow(Grow(Grow(Grow(Grow(Grow(t, c0), c1), c2), c3), c4), c5), c6)
  {
    hide Grow, Build;
    BuildCons(t, c0, [c1] + ([c2] + ([c3] + ([c4] + ([c5] + [c6])))));
    var t1 := Grow(t, c0);
    BuildCons(t1, c1, [c2] + ([c3] + ([c4] + ([c5] + [c6]))));
    var t2 := Grow(t1, c1);
    BuildCons(t2, c2, [c3] + ([c4] + ([c5] + [c6])));
    var t3 := Grow(t2, c2);
    BuildCons(t3, c3, [c4] + ([c5] + [c6]));
    var t4 := Grow(t3, c3);
    BuildCons(t4, c4, [c5] + [c6]);
    BuildCons(Grow(t4, c4), c5, [c6]);
    BuildOne(Grow(Grow(t4, c4), c5), c6);
  }

  lemma HeaderBuild(b: Board, timestamp: uint64)
    ensures Build(NoTree, HeaderCalls(b, timestamp)) == Building(Root(HeaderMembers(b, timestamp)))
  {
    hide Build, Grow, Decimal;
    BuildSeven(NoTree, BeginObject, AddString(Some("type"), Some("schema")), AddUInt64(Some("seq"), SCHEMA_SEQ),
               AddUInt64(Some("timestamp"), timestamp), AddString(Some("source"), Some(b.identity.boardId)),
               AddString(Some("target"), Some("controller")), AddString(Some("protocol_version"), Some(b.identity.protocolVersion)));
    GrowLeaf(Root(Empty), "type", "schema", 0);
    var m1 := Snoc(Empty, "type", Text("schema"));
    GrowLeaf(Root(m1), "seq", "", SCHEMA_SEQ);
    var m2 := Snoc(m1, "seq", Literal(Decimal(SCHEMA_SEQ)));
    GrowLeaf(Root(m2), "timestamp", "", timestamp);
    var m3 := Snoc(m2, "timestamp", Literal(Decimal(timestamp)));
    GrowLeaf(Root(m3), "source", b.identity.boardId, 0);
    var m4 := Snoc(m3, "source", Text(b.identity.boardId));
    GrowLeaf(Root(m4), "target", "controller", 0);
    GrowLeaf(Root(Snoc(m4, "target", Text("controller"))), "protocol_version", b.identity.protocolVersion, 0);
  }

  /** Every schema line that is built parses to the tree of the registry. */
  lemma SchemaLineParses(b: Board, timestamp: uint64)
    requires SchemaLine(b, timestamp).Some?
    ensures ParseDocument(SchemaLine(b, timestamp).value) == Some(Object(SchemaTree(b, timestamp)))
  {
    var root := Root(HeaderMembers(b, timestamp));
    HeaderBuild(b, timestamp);
    SchemaObjectBuild(root, b);
    BuildThen(Building(root), SchemaObjectCalls(b), [EndObject]);
    BuildOne(Building(AddMember(root, "schema", Object(SchemaMembers(b)))), EndObject);
    BuildThen(NoTree, HeaderCalls(b, timestamp), SchemaObjectCalls(b) + [EndObject]);
    SchemaIsScript(b, timestamp);
    LineParses(Limits.BOARD_TX_MAX_LINE_BYTES, SchemaCalls(b, timestamp));
  }

  /** The value of the last member of that name. */
  function Lookup(m: Members, name: string): Option<Value> {
    match m
    case Empty => None
    case Snoc(front, n, v) => if n == name then Some(v) else Lookup(front, name)
  }

  function Child(v: Option<Value>, name: string): Option<Value> {
    if v.Some? && v.value.Object? then Lookup(v.value.members, name) else None
  }

  lemma {:induction false} CommandMembersLookup(m: Members, cs: seq<Command>, name: string)
    requires forall i, j :: 0 <= i < j < |cs| ==> cs[i].name != cs[j].name
    ensures HasCommand(cs, name) ==> exists k :: 0 <= k < |cs| && cs[k].name == name
                                               && Lookup(CommandMembers(m, cs), name) == Some(CommandTree(cs[k]))
    ensures !HasCommand(cs, name) ==> Lookup(CommandMembers(m, cs), name) == Lookup(m, name)
    decreases |cs|
  {
    if cs != [] {
      var m1 := Snoc(m, cs[0].name, CommandTree(cs[0]));
      CommandMembersLookup(m1, cs[1..], name);
      if HasCommand(cs[1..], name) {
        var k :| 0 <= k < |cs[1..]| && cs[1..][k].name == name
                 && Lookup(CommandMembers(m1, cs[1..]), name) == Some(CommandTree(cs[1..][k]));
        assert cs[k + 1] == cs[1..][k];
      } else {
        assert forall k :: 0 < k < |cs| ==> cs[k].name == cs[1..][k - 1].name;
      }
    }
  }

  lemma CommandsInSchema(b: Board)
    ensures Lookup(SchemaMembers(b), "commands") == Some(Object(CommandMembers(Empty, b.commands)))
  {
    var m := SchemaMembers(b);
    assert Lookup(m, "commands") == Lookup(m.front, "commands");
    assert Lookup(m.front, "commands") == Lookup(m.front.front, "commands");
    assert Lookup(m.front.front, "commands") == Lookup(m.front.front.front, "commands");
  }

  /**
   Dispatch and schema cannot drift: in the document the controller parses, a command name has a
   subtree exactly when the dispatcher finds it, and the subtree is that of the command found.
   */
  lemma DispatchableIffInSchema(b: Board, timestamp: uint64, name: cstring)
    requires Registry.WellFormed(b) && SchemaLine(b, timestamp).Some?
    ensures var doc := ParseDocument(SchemaLine(b, timestamp).value);
            var tree := Child(Child(Child(doc, "schema"), "commands"), name);
            match Find(b.commands, Some(name))
            case None => tree == None
            case Some(i) => tree == Some(CommandTree(b.commands[i]))
  {
    SchemaLineParses(b, timestamp);
    assert Child(Some(Object(SchemaTree(b, timestamp))), "schema") == Some(Object(SchemaMembers(b)));
    CommandsInSchema(b);
    CommandMembersLookup(Empty, b.commands, name);
  }
}
