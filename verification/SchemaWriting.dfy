/** The schema builder's loops over the registry, writing into a bounded buffer. */
module SchemaWriting {
  import opened Common
  import opened JsonWriting
  import opened JsonScripts
  import opened JsonBuffer
  import opened Registry
  import opened Schema
  import Limits

  /** Running an object's calls: its opening, its inside, its end. */
  lemma RunObject(w: Writer, name: cstring, inside: seq<Call>)
    ensures var open := Apply(w, BeginObjectField(Some(name)));
            Run(w, ObjectCalls(name, inside)) ==
              if !open.ok then open
              else if !Run(open.w, inside).ok then Run(open.w, inside)
              else Apply(Run(open.w, inside).w, EndObject)
  {
    var open := Apply(w, BeginObjectField(Some(name)));
    RunThen(w, [BeginObjectField(Some(name))], inside + [EndObject]);
    RunOne(w, BeginObjectField(Some(name)));
    RunNext(open.w, inside, EndObject);
  }

  lemma SplitAt<T>(s: seq<T>, i: nat)
    requires i < |s|
    ensures s[..i + 1] == s[..i] + [s[i]] && s == s[..i + 1] + s[i + 1..]
  {
  }

  lemma {:induction false} FieldCallsConcat(a: seq<Named>, b: seq<Named>)
    ensures FieldCalls(a + b) == FieldCalls(a) + FieldCalls(b)
    decreases |a|
  {
    if a == [] {
      assert a + b == b;
    } else {
      assert (a + b)[1..] == a[1..] + b;
      FieldCallsConcat(a[1..], b);
      Assoc([AddString(Some(a[0].name), Some(TypeName(a[0].kind)))], FieldCalls(a[1..]), FieldCalls(b));
    }
  }

  lemma FieldCallsNext(ns: seq<Named>, i: nat)
    requires i < |ns|
    ensures FieldCalls(ns[..i + 1]) == FieldCalls(ns[..i]) + [AddString(Some(ns[i].name), Some(TypeName(ns[i].kind)))]
    ensures FieldCalls(ns) == FieldCalls(ns[..i + 1]) + FieldCalls(ns[i + 1..])
  {
    hide FieldCalls, TypeName;
    SplitAt(ns, i);
    FieldCallsConcat(ns[..i], [ns[i]]);
    FieldCallsConcat(ns[..i + 1], ns[i + 1..]);
    OneField(ns[i]);
  }

  lemma OneField(n: Named)
    ensures FieldCalls([n]) == [AddString(Some(n.name), Some(TypeName(n.kind)))]
  {
    assert [n][1..] == [];
  }

  lemma {:induction false} AllCommandCallsConcat(a: seq<Command>, b: seq<Command>)
    ensures AllCommandCalls(a + b) == AllCommandCalls(a) + AllCommandCalls(b)
    decreases |a|
  {
    if a == [] {
      assert a + b == b;
    } else {
      assert (a + b)[1..] == a[1..] + b;
      AllCommandCallsConcat(a[1..], b);
      Assoc(CommandCalls(a[0]), AllCommandCalls(a[1..]), AllCommandCalls(b));
    }
  }

  lemma AllCommandCallsNext(cs: seq<Command>, i: nat)
    requires i < |cs|
    ensures AllCommandCalls(cs[..i + 1]) == AllCommandCalls(cs[..i]) + CommandCalls(cs[i])
    ensures AllCommandCalls(cs) == AllCommandCalls(cs[..i + 1]) + AllCommandCalls(cs[i + 1..])
  {
    hide CommandCalls, AllCommandCalls;
    SplitAt(cs, i);
    AllCommandCallsConcat(cs[..i], [cs[i]]);
    AllCommandCallsConcat(cs[..i + 1], cs[i + 1..]);
    OneCommand(cs[i]);
  }

  lemma OneCommand(c: Command)
    ensures AllCommandCalls([c]) == CommandCalls(c)
  {
    assert [c][1..] == [];
    AddNothing(CommandCalls(c), AllCommandCalls([c][1..]));
  }

  lemma AddNothing(calls: seq<Call>, nothing: seq<Call>)
    requires nothing == []
    ensures calls + nothing == calls
  {
  }

  /** A script that has failed stays failed however it goes on. */
  lemma FailedRunStays(w: Writer, calls: seq<Call>, rest: seq<Call>)
    requires !Run(w, calls).ok
    ensures Run(w, calls + rest) == Run(w, calls)
  {
    RunThen(w, calls, rest);
  }

  /** The member loop shared by argument lists and field lists. */
  method WriteMembers(writer: BoundedJsonWriter, fields: seq<Named>) returns (ok: bool)
    requires writer.Valid()
    modifies writer, writer.buffer, writer.first
    ensures writer.Valid() && Result(writer.Model(), ok) == Run(old(writer.Model()), FieldCalls(fields))
  {
    ghost var start := writer.Model();
    var i := 0;
    while i < |fields|
      invariant i <= |fields| && writer.Valid()
      invariant Run(start, FieldCalls(fields[..i])) == Result(writer.Model(), true)
    {
      ghost var call := AddString(Some(fields[i].name), Some(TypeName(fields[i].kind)));
      FieldCallsNext(fields, i);
      RunNext(start, FieldCalls(fields[..i]), call);
      ok := writer.AddString(Some(fields[i].name), Some(TypeName(fields[i].kind)));
      if !ok {
        FailedRunStays(start, FieldCalls(fields[..i + 1]), FieldCalls(fields[i + 1..]));
        return;
      }
      i := i + 1;
    }
    assert fields[..i] == fields;
    return true;
  }

  method WriteFields(writer: BoundedJsonWriter, name: cstring, fields: seq<Named>) returns (ok: bool)
    requires writer.Valid()
    modifies writer, writer.buffer, writer.first
    ensures writer.Valid()
            && Result(writer.Model(), ok) == Run(old(writer.Model()), ObjectCalls(name, FieldCalls(fields)))
  {
    RunObject(writer.Model(), name, FieldCalls(fields));
    ok := writer.BeginObjectField(Some(name));
    if !ok { return; }
    ok := WriteMembers(writer, fields);
    if !ok { return; }
    ok := writer.EndObject();
  }

  method WriteCommand(writer: BoundedJsonWriter, command: Command) returns (ok: bool)
    requires writer.Valid()
    modifies writer, writer.buffer, writer.first
    ensures writer.Valid() && Result(writer.Model(), ok) == Run(old(writer.Model()), CommandCalls(command))
  {
    ghost var args := ObjectCalls("args", FieldCalls(command.args));
    ghost var flag := Call.AddBool(Some("blocked_by_estop"), command.blockedByEstop);
    RunObject(writer.Model(), command.name, args + [flag]);
    ok := writer.BeginObjectField(Some(command.name));
    if !ok { return; }
    RunNext(writer.Model(), args, flag);
    ok := WriteFields(writer, "args", command.args);
    if !ok { return; }
    ok := writer.AddBool(Some("blocked_by_estop"), command.blockedByEstop);
    if !ok { return; }
    ok := writer.EndObject();
  }

  method WriteCommands(writer: BoundedJsonWriter, registry: CommandRegistry) returns (ok: bool)
    requires writer.Valid() && registry.Valid()
    modifies writer, writer.buffer, writer.first
    ensures writer.Valid() && unchanged(registry) && unchanged(registry.commands)
    ensures Result(writer.Model(), ok) == Run(old(writer.Model()), ObjectCalls("commands", AllCommandCalls(registry.Model().commands)))
  {
    ghost var cs := registry.Model().commands;
    RunObject(writer.Model(), "commands", AllCommandCalls(cs));
    ok := writer.BeginObjectField(Some("commands"));
    if !ok { return; }
    ghost var start := writer.Model();
    var i := 0;
    while i < registry.commandCount
      invariant i <= registry.commandCount == |cs| && writer.Valid()
      invariant registry.commands[..registry.commandCount] == cs
      invariant Run(start, AllCommandCalls(cs[..i])) == Result(writer.Model(), true)
    {
      AllCommandCallsNext(cs, i);
      RunThen(start, AllCommandCalls(cs[..i]), CommandCalls(cs[i]));
      ok := WriteCommand(writer, registry.commands[i]);
      if !ok {
        FailedRunStays(start, AllCommandCalls(cs[..i + 1]), AllCommandCalls(cs[i + 1..]));
        return;
      }
      i := i + 1;
    }
    assert cs[..i] == cs;
    ok := writer.EndObject();
  }

  method WriteSchemaObject(writer: BoundedJsonWriter, registry: CommandRegistry) returns (ok: bool)
    requires writer.Valid() && registry.Valid()
    modifies writer, writer.buffer, writer.first
    ensures writer.Valid() && unchanged(registry)
    ensures Result(writer.Model(), ok) == Run(old(writer.Model()), SchemaObjectCalls(registry.Model()))
  {
    hide Apply, BoundedJsonWriter.Valid, BoundedJsonWriter.Model, Run, ObjectCalls, FieldCalls, AllCommandCalls,
         Registry.WellFormed;
    ghost var b := registry.Model();
    ghost var commands := ObjectCalls("commands", AllCommandCalls(b.commands));
    ghost var telemetry := ObjectCalls("telemetry", FieldCalls(b.telemetry));
    ghost var state := ObjectCalls("state", FieldCalls(b.state));
    ghost var firmware := AddString(Some("firmware_version"), Some(b.identity.firmwareVersion));
    RunObject(writer.Model(), "schema", commands + (telemetry + (state + [firmware])));
    ok := writer.BeginObjectField(Some("schema"));
    if !ok { return; }
    RunThen(writer.Model(), commands, telemetry + (state + [firmware]));
    ok := WriteCommands(writer, registry);
    if !ok { return; }
    RunThen(writer.Model(), telemetry, state + [firmware]);
    ok := WriteFields(writer, "telemetry", registry.telemetryFields[..registry.telemetryFieldCount]);
    if !ok { return; }
    RunThen(writer.Model(), state, [firmware]);
    ok := WriteFields(writer, "state", registry.stateFields[..registry.stateFieldCount]);
    if !ok { return; }
    RunOne(writer.Model(), firmware);
    ok := writer.AddString(Some("firmware_version"), Some(registry.identity.firmwareVersion));
    if !ok { return; }
    ok := writer.EndObject();
  }

  method WriteHeader(writer: BoundedJsonWriter, identity: Identity, timestamp: uint64, ghost b: Board) returns (ok: bool)
    requires writer.Valid() && b.identity == identity
    modifies writer, writer.buffer, writer.first
    ensures writer.Valid() && Result(writer.Model(), ok) == Run(old(writer.Model()), HeaderCalls(b, timestamp))
  {
    hide Apply, BoundedJsonWriter.Valid, BoundedJsonWriter.Model, Run;
    ghost var c1 := AddString(Some("type"), Some("schema"));
    ghost var c2 := Call.AddUInt64(Some("seq"), SCHEMA_SEQ);
    ghost var c3 := Call.AddUInt64(Some("timestamp"), timestamp);
    ghost var c4 := AddString(Some("source"), Some(identity.boardId));
    ghost var c5 := AddString(Some("target"), Some("controller"));
    ghost var c6 := AddString(Some("protocol_version"), Some(identity.protocolVersion));
    RunCons(writer.Model(), BeginObject, [c1] + ([c2] + ([c3] + ([c4] + ([c5] + [c6])))));
    ok := writer.BeginObject();
    if !ok { return; }
    RunCons(writer.Model(), c1, [c2] + ([c3] + ([c4] + ([c5] + [c6]))));
    ok := writer.AddString(Some("type"), Some("schema"));
    if !ok { return; }
    RunCons(writer.Model(), c2, [c3] + ([c4] + ([c5] + [c6])));
    ok := writer.AddUInt64(Some("seq"), SCHEMA_SEQ);
    if !ok { return; }
    RunCons(writer.Model(), c3, [c4] + ([c5] + [c6]));
    ok := writer.AddUInt64(Some("timestamp"), timestamp);
    if !ok { return; }
    RunCons(writer.Model(), c4, [c5] + [c6]);
    ok := writer.AddString(Some("source"), Some(identity.boardId));
    if !ok { return; }
    RunCons(writer.Model(), c5, [c6]);
    ok := writer.AddString(Some("target"), Some("controller"));
    if !ok { return; }
    RunOne(writer.Model(), c6);
    ok := writer.AddString(Some("protocol_version"), Some(identity.protocolVersion));
  }

  method WriteSchema(writer: BoundedJsonWriter, registry: CommandRegistry, timestamp: uint64) returns (ok: bool)
    requires writer.Valid() && registry.Valid()
    modifies writer, writer.buffer, writer.first
    ensures writer.Valid()
    ensures Result(writer.Model(), ok) == Run(old(writer.Model()), SchemaCalls(registry.Model(), timestamp))
  {
    ghost var b := registry.Model();
    RunThen(writer.Model(), HeaderCalls(b, timestamp), SchemaObjectCalls(b) + [EndObject]);
    ok := WriteHeader(writer, registry.identity, timestamp, b);
    if !ok { return; }
    RunNext(writer.Model(), SchemaObjectCalls(b), EndObject);
    ok := WriteSchemaObject(writer, registry);
    if !ok { return; }
    ok := writer.EndObject();
  }

  method BuildSchemaLineWithTimestamp(registry: CommandRegistry, timestamp: uint64, buffer: array?<char>, capacity: nat)
    returns (status: Status)
    requires registry.Valid() && (buffer != null ==> capacity <= buffer.Length)
    modifies buffer
    ensures buffer == null ==> status == InvalidConfiguration
    ensures buffer != null ==>
              match Line(capacity, SchemaCalls(registry.Model(), timestamp))
              case None => status == CapacityExceeded
              case Some(line) => && status == Ok && |line| <= capacity && buffer[..|line|] == line
                                 && (|line| < capacity ==> buffer[|line|] == '\0')
  {
    hide SchemaCalls, Run, CommandRegistry.Valid, CommandRegistry.Model;
    if buffer == null {
      return InvalidConfiguration;
    }
    var writer := new BoundedJsonWriter(buffer, capacity);
    var reserved := writer.ReserveTailBytes(1);
    var ok := WriteSchema(writer, registry, timestamp);
    if !ok {
      return CapacityExceeded;
    }
    writer.ReleaseTailReserve();
    ok := writer.AppendNewline();
    if !ok || writer.length > Limits.BOARD_TX_MAX_LINE_BYTES {
      return CapacityExceeded;
    }
    return Ok;
  }

  /** The check made once before sealing: the widest timestamp in a full-size buffer. */
  method ValidateMaximumSchemaSize(registry: CommandRegistry) returns (status: Status)
    requires registry.Valid()
    ensures status == if MaximumSchemaFits(registry.Model()) then Ok else CapacityExceeded
  {
    var buffer := new char[Limits.BOARD_TX_MAX_LINE_BYTES](_ => '\0');
    status := BuildSchemaLineWithTimestamp(registry, MAX_TIMESTAMP, buffer, Limits.BOARD_TX_MAX_LINE_BYTES);
  }

  /** Validate, check the size, seal: the registry part of starting the server. */
  method Seal(registry: CommandRegistry, networkConfigured: bool) returns (status: Status)
    requires registry.Valid()
    modifies registry
    ensures registry.Valid()
    ensures status == SealStatus(old(registry.Model()), networkConfigured)
    ensures registry.Model() == if status == Ok then old(registry.Model()).(isSealed := true) else old(registry.Model())
  {
    if !networkConfigured {
      return InvalidConfiguration;
    }
    status := registry.ValidateMetadataForSeal();
    if status != Ok {
      return;
    }
    status := ValidateMaximumSchemaSize(registry);
    if status != Ok {
      return;
    }
    status := registry.CommitSeal();
  }

  function SealStatus(b: Board, networkConfigured: bool): Status {
    if !networkConfigured then InvalidConfiguration
    else if MetadataStatus(b) != Ok then MetadataStatus(b)
    else if !MaximumSchemaFits(b) then CapacityExceeded
    else if b.isSealed then RegistrationSealed
    else Ok
  }

  // ---------------------------------------------------------------------------------------
  // The life of a registry, from registration to any time after the seal.

  datatype Action =
    | SetIdentity(id: IdentityArgs)
    | Register(r: Registration)
    | AddTelemetryField(spec: Spec)
    | AddStateField(spec: Spec)
    | SetProvider(present: bool)
    | SetEstopHook(present: bool)
    | SetLossHook(present: bool)
    | Start(networkConfigured: bool)

  function After(b: Board, a: Action): Board {
    match a
    case SetIdentity(id) => IdentityAfter(b, id)
    case Register(r) => if r.args.Some? && r.argCount > |r.args.value| then b else Registered(b, r)
    case AddTelemetryField(spec) => b.(telemetry := FieldsAfter(b.isSealed, b.telemetry, spec))
    case AddStateField(spec) => b.(state := FieldsAfter(b.isSealed, b.state, spec))
    case SetProvider(present) => if b.isSealed || !present then b else b.(provider := true)
    case SetEstopHook(present) => if b.isSealed || !present then b else b.(estopHook := true)
    case SetLossHook(present) => if b.isSealed || !present then b else b.(lossHook := true)
    case Start(networkConfigured) => if SealStatus(b, networkConfigured) == Ok then b.(isSealed := true) else b
  }

  function Play(actions: seq<Action>): Board {
    if actions == [] then NEW_BOARD else After(Play(actions[..|actions| - 1]), actions[|actions| - 1])
  }

  /** What holds of every board that can be served from. */
  ghost predicate Servable(b: Board) {
    b.isSealed && Registry.WellFormed(b) && MetadataStatus(b) == Ok && MaximumSchemaFits(b)
  }

  lemma SealingKeepsTheSchema(b: Board, timestamp: uint64)
    ensures SchemaCalls(b.(isSealed := true), timestamp) == SchemaCalls(b, timestamp)
  {
  }

  lemma SealedBoardIsFixed(b: Board, a: Action)
    requires b.isSealed
    ensures After(b, a) == b
  {
  }

  lemma IdentityKeepsWellFormed(b: Board, id: IdentityArgs)
    requires Registry.WellFormed(b) && !b.isSealed
    ensures Registry.WellFormed(IdentityAfter(b, id)) && !IdentityAfter(b, id).isSealed
  {
    hide Registry.GoodNames, Registry.GoodName;
  }

  lemma RegistrationKeepsWellFormed(b: Board, a: Action)
    requires Registry.WellFormed(b) && !b.isSealed && !a.Start?
    ensures Registry.WellFormed(After(b, a)) && !After(b, a).isSealed
  {
    hide Registered, FieldsAfter, IdentityAfter, Registry.GoodNames, Registry.GoodName;
    match a
    case SetIdentity(id) => IdentityKeepsWellFormed(b, id);
    case Register(r) => if r.args.Some? ==> r.argCount <= |r.args.value| { RegisteringKeepsWellFormed(b, r); }
    case AddTelemetryField(spec) => AddingAFieldKeepsGoodNames(b.isSealed, b.telemetry, spec);
    case AddStateField(spec) => AddingAFieldKeepsGoodNames(b.isSealed, b.state, spec);
    case _ =>
  }

  lemma ActionKeepsGood(b: Board, a: Action)
    requires Registry.WellFormed(b) && (b.isSealed ==> Servable(b))
    ensures Registry.WellFormed(After(b, a)) && (After(b, a).isSealed ==> Servable(After(b, a)))
  {
    if b.isSealed {
      SealedBoardIsFixed(b, a);
    } else if a.Start? {
      SealingKeepsTheSchema(b, MAX_TIMESTAMP);
    } else {
      RegistrationKeepsWellFormed(b, a);
    }
  }

  /** Any sequence of registrations leaves unique, bounded names; a sealed registry is servable. */
  lemma {:induction false} RegistryStaysGood(actions: seq<Action>)
    ensures Registry.WellFormed(Play(actions))
    ensures Play(actions).isSealed ==> Servable(Play(actions))
  {
    if actions != [] {
      RegistryStaysGood(actions[..|actions| - 1]);
      ActionKeepsGood(Play(actions[..|actions| - 1]), actions[|actions| - 1]);
    }
  }

  /** Nothing changes after the seal, whatever is called. */
  lemma {:induction false} SealIsFinal(actions: seq<Action>, more: seq<Action>)
    requires Play(actions).isSealed
    ensures Play(actions + more) == Play(actions)
    decreases |more|
  {
    if more == [] {
      assert actions + more == actions;
    } else {
      var front := more[..|more| - 1];
      SealIsFinal(actions, front);
      SealedBoardIsFixed(Play(actions), more[|more| - 1]);
      assert (actions + more)[..|actions + more| - 1] == actions + front;
    }
  }

  /** A board that sealed can build a valid schema line at any later time, whatever happened in between. */
  lemma SealedBoardsAlwaysHaveASchema(actions: seq<Action>, more: seq<Action>, timestamp: uint64)
    requires Play(actions).isSealed
    ensures var b := Play(actions + more);
            SchemaLine(b, timestamp).Some? && IsWireText(SchemaLine(b, timestamp).value)
  {
    SealIsFinal(actions, more);
    RegistryStaysGood(actions);
    SealTimeCheckSuffices(Play(actions), timestamp);
  }

  function IdentityCalls(actions: seq<Action>): seq<Action> {
    if actions == [] then []
    else
      var last := actions[|actions| - 1];
      IdentityCalls(actions[..|actions| - 1]) +
        if last.SetIdentity? && !Play(actions[..|actions| - 1]).isSealed then [last] else []
  }

  predicate Accepted(b: Board, a: Action) {
    a.SetIdentity? && IdentityStatus(b, a.id).Ok?
  }

  predicate OneAccepted(calls: seq<Action>) {
    exists k :: 0 <= k < |calls| && Accepted(NEW_BOARD, calls[k])
  }

  lemma IdentityStatusIgnoresTheRest(b: Board, c: Board, id: IdentityArgs)
    requires !b.isSealed && !c.isSealed
    ensures IdentityStatus(b, id) == IdentityStatus(c, id)
  {
  }

  lemma OthersKeepTheIdentity(b: Board, a: Action)
    ensures After(b, a).identity == if a.SetIdentity? && !b.isSealed then IdentityAfter(b, a.id).identity else b.identity
    ensures After(b, a).identitySet == if a.SetIdentity? && !b.isSealed then IdentityAfter(b, a.id).identitySet else b.identitySet
  {
  }

  /**
   The seal asks only whether some call to set the identity succeeded, and a failing call blanks the
   field it fails on. So the identity of a board is complete exactly when the last such call before
   the seal succeeded, and all the seal vouches for is that one of them did.
   */
  lemma {:induction false} IdentityIsCompleteIffLastCallSucceeded(actions: seq<Action>)
    ensures var calls := IdentityCalls(actions);
            && (IsComplete(Play(actions).identity) <==> calls != [] && Accepted(NEW_BOARD, calls[|calls| - 1]))
            && (Play(actions).identitySet <==> OneAccepted(calls))
            && (Play(actions).isSealed ==> Play(actions).identitySet)
  {
    hide After, IdentityStatus, IdentityAfter, MaximumSchemaFits, Registry.WellFormed;
    if actions != [] {
      var front, a := actions[..|actions| - 1], actions[|actions| - 1];
      IdentityIsCompleteIffLastCallSucceeded(front);
      RegistryStaysGood(actions);
      var b := Play(front);
      OthersKeepTheIdentity(b, a);
      if a.SetIdentity? && !b.isSealed {
        IdentityIsCompleteIff(b, a.id);
        IdentityStatusIgnoresTheRest(b, NEW_BOARD, a.id);
        OneMoreAccepted(IdentityCalls(front), a);
      } else {
        assert IdentityCalls(actions) == IdentityCalls(front);
      }
    }
  }

  lemma OneMoreAccepted(calls: seq<Action>, a: Action)
    ensures OneAccepted(calls + [a]) <==> Accepted(NEW_BOARD, a) || OneAccepted(calls)
  {
    if OneAccepted(calls) {
      var k :| 0 <= k < |calls| && Accepted(NEW_BOARD, calls[k]);
      assert (calls + [a])[k] == calls[k];
    }
    if Accepted(NEW_BOARD, a) {
      assert (calls + [a])[|calls|] == a;
    }
  }

  // ---------------------------------------------------------------------------------------
  // Boards that seal, with a complete identity and without one.

  /** No commands and no fields: the schema is little more than the identity. */
  predicate IsBare(b: Board) {
    b.commands == [] && b.telemetry == [] && b.state == []
  }

  lemma ObjectWidth(name: cstring, inside: seq<Call>)
    ensures TotalWidth(ObjectCalls(name, inside)) <= 6 * |name| + 6 + TotalWidth(inside)
  {
    ObjectFieldWidth(name);
    TotalWidthOne(EndObject);
    TotalWidthOne(BeginObjectField(Some(name)));
    TotalWidthConcat(inside, [EndObject]);
    TotalWidthConcat([BeginObjectField(Some(name))], inside + [EndObject]);
  }

  lemma BareSchemaWidth(b: Board)
    requires IsBare(b) && |b.identity.firmwareVersion| <= Limits.MAX_FIRMWARE_VERSION_BYTES
    ensures TotalWidth(SchemaObjectCalls(b)) <= 700
  {
    hide TotalWidth, Width, ObjectCalls;
    var firmware := AddString(Some("firmware_version"), Some(b.identity.firmwareVersion));
    var telemetry, state := ObjectCalls("telemetry", []), ObjectCalls("state", []);
    NoCalls();
    StringWidth("firmware_version", b.identity.firmwareVersion);
    TotalWidthOne(firmware);
    ObjectWidth("state", []);
    TotalWidthConcat(state, [firmware]);
    ObjectWidth("telemetry", []);
    TotalWidthConcat(telemetry, state + [firmware]);
    ObjectWidth("commands", []);
    TotalWidthConcat(ObjectCalls("commands", []), telemetry + (state + [firmware]));
    ObjectWidth("schema", ObjectCalls("commands", []) + (telemetry + (state + [firmware])));
  }

  lemma NoCalls()
    ensures TotalWidth([]) == 0 && FieldCalls([]) == [] && AllCommandCalls([]) == []
  {
  }

  lemma HeaderWidth(b: Board, timestamp: uint64)
    requires |b.identity.boardId| <= Limits.MAX_BOARD_ID_BYTES && |b.identity.protocolVersion| <= Limits.MAX_PROTOCOL_VERSION_BYTES
    ensures TotalWidth(HeaderCalls(b, timestamp)) <= 900
  {
    hide TotalWidth, Width;
    var c1, c2 := AddString(Some("type"), Some("schema")), AddUInt64(Some("seq"), SCHEMA_SEQ);
    var c3, c4 := AddUInt64(Some("timestamp"), timestamp), AddString(Some("source"), Some(b.identity.boardId));
    var c5 := AddString(Some("target"), Some("controller"));
    var c6 := AddString(Some("protocol_version"), Some(b.identity.protocolVersion));
    StringWidth("protocol_version", b.identity.protocolVersion);
    TotalWidthOne(c6);
    StringWidth("target", "controller");
    TotalWidthCons(c5, [c6]);
    StringWidth("source", b.identity.boardId);
    TotalWidthCons(c4, [c5] + [c6]);
    UInt64Width("timestamp", timestamp);
    TotalWidthCons(c3, [c4] + ([c5] + [c6]));
    UInt64Width("seq", SCHEMA_SEQ);
    TotalWidthCons(c2, [c3] + ([c4] + ([c5] + [c6])));
    StringWidth("type", "schema");
    TotalWidthCons(c1, [c2] + ([c3] + ([c4] + ([c5] + [c6]))));
    BraceWidths();
    TotalWidthCons(BeginObject, [c1] + ([c2] + ([c3] + ([c4] + ([c5] + [c6])))));
  }

  lemma TotalWidthCons(call: Call, rest: seq<Call>)
    ensures TotalWidth([call] + rest) == Width(call) + TotalWidth(rest)
  {
    TotalWidthOne(call);
    TotalWidthConcat([call], rest);
  }

  lemma BareBoardFits(b: Board)
    requires IsBare(b) && Registry.WellFormed(b)
    ensures MaximumSchemaFits(b)
  {
    hide HeaderCalls, SchemaObjectCalls, TotalWidth, Width, IsScript, FullText, Line;
    BareSchemaWidth(b);
    BraceWidths();
    HeaderWidth(b, MAX_TIMESTAMP);
    TotalWidthOne(EndObject);
    TotalWidthConcat(SchemaObjectCalls(b), [EndObject]);
    TotalWidthConcat(HeaderCalls(b, MAX_TIMESTAMP), SchemaObjectCalls(b) + [EndObject]);
    SchemaIsScript(b, MAX_TIMESTAMP);
    FullRun(SchemaCalls(b, MAX_TIMESTAMP));
    LineIff(Limits.BOARD_TX_MAX_LINE_BYTES, SchemaCalls(b, MAX_TIMESTAMP));
  }

  /** Everything a seal asks for besides the identity, and then the seal. */
  const THE_REST: seq<Action> := [SetProvider(true), SetEstopHook(true), SetLossHook(true), Start(true)]

  const NOTHING: IdentityArgs := IdentityArgs(None, None, None)

  function BlankBoot(good: IdentityArgs): seq<Action> {
    [SetIdentity(good), SetIdentity(NOTHING)] + THE_REST
  }

  function PlainBoot(good: IdentityArgs): seq<Action> {
    [SetIdentity(good)] + THE_REST
  }

  lemma PlayNext(actions: seq<Action>, a: Action)
    ensures Play(actions + [a]) == After(Play(actions), a)
  {
    assert (actions + [a])[..|actions|] == actions;
  }

  /** A bare board with an accepted identity call behind it seals. */
  lemma TheRestSeals(actions: seq<Action>)
    requires !Play(actions).isSealed && Play(actions).identitySet && IsBare(Play(actions))
    ensures Play(actions + THE_REST).isSealed && Play(actions + THE_REST).identity == Play(actions).identity
  {
    hide Play, MaximumSchemaFits, Registry.WellFormed;
    var a1 := actions + [SetProvider(true)];
    var a2 := a1 + [SetEstopHook(true)];
    var a3 := a2 + [SetLossHook(true)];
    PlayNext(actions, SetProvider(true));
    PlayNext(a1, SetEstopHook(true));
    PlayNext(a2, SetLossHook(true));
    PlayNext(a3, Start(true));
    RegistryStaysGood(a3);
    BareBoardFits(Play(a3));
    assert a3 + [Start(true)] == actions + THE_REST;
  }

  lemma FirstIdentity(good: IdentityArgs)
    requires IdentityStatus(NEW_BOARD, good).Ok?
    ensures Play([SetIdentity(good)]) == IdentityAfter(NEW_BOARD, good)
  {
    assert [SetIdentity(good)][..0] == [];
  }

  /** The seal can be had, with a complete identity. */
  lemma PlainBootSeals(good: IdentityArgs)
    requires IdentityStatus(NEW_BOARD, good).Ok?
    ensures Play(PlainBoot(good)).isSealed && IsComplete(Play(PlainBoot(good)).identity)
  {
    hide Play;
    FirstIdentity(good);
    IdentityIsCompleteIff(NEW_BOARD, good);
    TheRestSeals([SetIdentity(good)]);
  }

  /** And it can be had with a blank board id: a later call with no board id fails, blanks it, and does not stop the seal. */
  lemma BlankBootSeals(good: IdentityArgs)
    requires IdentityStatus(NEW_BOARD, good).Ok?
    ensures Play(BlankBoot(good)).isSealed && Play(BlankBoot(good)).identity.boardId == ""
  {
    hide Play;
    FirstIdentity(good);
    IdentityIsCompleteIff(NEW_BOARD, good);
    PlayNext([SetIdentity(good)], SetIdentity(NOTHING));
    assert [SetIdentity(good)] + [SetIdentity(NOTHING)] == [SetIdentity(good), SetIdentity(NOTHING)];
    TheRestSeals([SetIdentity(good), SetIdentity(NOTHING)]);
  }
}
