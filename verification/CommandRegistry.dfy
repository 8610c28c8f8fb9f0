/**
 The command registry: fixed tables filled before the board is sealed and never changed after.
 Handlers, hooks and providers appear only as present or absent.
 */
module Registry {
  import opened Common
  import Limits

  datatype ValueType = Int | Float | Bool | String
  datatype Status =
    | Ok | RegistrationSealed | InvalidArgumentSchema | InvalidConfiguration | CapacityExceeded
    | InvalidName | DuplicateRegistration | NoTelemetryProvider | NoEstopHook | NoControllerLossHook

  /** A name with its declared type: a command argument, or a telemetry or state field. */
  datatype Named = Named(name: cstring, kind: ValueType)
  datatype Command = Command(name: cstring, args: seq<Named>, blockedByEstop: bool)
  datatype Identity = Identity(boardId: cstring, protocolVersion: cstring, firmwareVersion: cstring)

  datatype Board = Board(
    isSealed: bool, identitySet: bool, identity: Identity,
    commands: seq<Command>, telemetry: seq<Named>, state: seq<Named>,
    provider: bool, estopHook: bool, lossHook: bool)

  const BLANK := Identity("", "", "")
  const NEW_BOARD := Board(false, false, BLANK, [], [], [], false, false, false)

  // What callers pass: any pointer may be null.
  datatype Spec = Spec(name: Option<cstring>, kind: ValueType)
  datatype Registration = Registration(
    name: Option<cstring>, args: Option<seq<Spec>>, argCount: nat,
    blockedSpecified: bool, blockedByEstop: bool, handler: bool)
  datatype IdentityArgs = IdentityArgs(boardId: Option<cstring>, protocolVersion: Option<cstring>, firmwareVersion: Option<cstring>)

  // ---------------------------------------------------------------------------------------
  // Registration as functions on a board.

  datatype CopyResult = Copied | Missing | TooLong

  function Copy(s: Option<cstring>, capacity: nat): CopyResult {
    if s.None? || s.value == "" then Missing else if |s.value| > capacity then TooLong else Copied
  }

  /** The destination afterwards: blank unless the copy went through. */
  function CopyOf(s: Option<cstring>, capacity: nat): cstring {
    if Copy(s, capacity).Copied? then s.value else ""
  }

  function CopyStatus(s: Option<cstring>, capacity: nat, missing: Status): Status {
    match Copy(s, capacity)
    case Copied => Ok
    case Missing => missing
    case TooLong => CapacityExceeded
  }

  predicate HasName(ns: seq<Named>, name: string) {
    exists k :: 0 <= k < |ns| && ns[k].name == name
  }

  predicate HasCommand(cs: seq<Command>, name: string) {
    exists k :: 0 <= k < |cs| && cs[k].name == name
  }

  function Stored(spec: Spec): Named {
    Named(CopyOf(spec.name, Limits.MAX_NAME_BYTES), spec.kind)
  }

  function StoredAll(specs: seq<Spec>): seq<Named> {
    seq(|specs|, i requires 0 <= i < |specs| => Stored(specs[i]))
  }

  /** The first problem among the arguments, in declaration order. */
  function ArgsStatus(specs: seq<Spec>): Status {
    if specs == [] then Ok
    else
      var n := |specs| - 1;
      var before := ArgsStatus(specs[..n]);
      if !before.Ok? then before
      else if !Copy(specs[n].name, Limits.MAX_NAME_BYTES).Copied? then
        CopyStatus(specs[n].name, Limits.MAX_NAME_BYTES, InvalidArgumentSchema)
      else if HasName(StoredAll(specs[..n]), specs[n].name.value) then DuplicateRegistration
      else Ok
  }

  function RegisterStatus(b: Board, r: Registration): Status
    requires r.args.Some? ==> r.argCount <= |r.args.value|
  {
    if b.isSealed then RegistrationSealed
    else if !r.blockedSpecified then InvalidArgumentSchema
    else if !r.handler then InvalidConfiguration
    else if r.argCount > Limits.MAX_ARGS_PER_COMMAND then CapacityExceeded
    else if r.argCount > 0 && r.args.None? then InvalidArgumentSchema
    else if |b.commands| >= Limits.MAX_REGISTERED_COMMANDS then CapacityExceeded
    else if !Copy(r.name, Limits.MAX_NAME_BYTES).Copied? then CopyStatus(r.name, Limits.MAX_NAME_BYTES, InvalidName)
    else if HasCommand(b.commands, r.name.value) then DuplicateRegistration
    else ArgsStatus(Args(r))
  }

  function Args(r: Registration): seq<Spec>
    requires r.args.Some? ==> r.argCount <= |r.args.value|
  {
    if r.args.Some? then r.args.value[..r.argCount] else []
  }

  function Registered(b: Board, r: Registration): Board
    requires r.args.Some? ==> r.argCount <= |r.args.value|
  {
    if RegisterStatus(b, r).Ok?
    then b.(commands := b.commands + [Command(r.name.value, StoredAll(Args(r)), r.blockedByEstop)]) else b
  }

  function FieldStatus(isSealed: bool, fields: seq<Named>, spec: Spec): Status {
    if isSealed then RegistrationSealed
    else if |fields| >= Limits.MAX_FIELDS then CapacityExceeded
    else if !Copy(spec.name, Limits.MAX_NAME_BYTES).Copied? then CopyStatus(spec.name, Limits.MAX_NAME_BYTES, InvalidName)
    else if HasName(fields, spec.name.value) then DuplicateRegistration
    else Ok
  }

  function FieldsAfter(isSealed: bool, fields: seq<Named>, spec: Spec): seq<Named> {
    if FieldStatus(isSealed, fields, spec).Ok? then fields + [Stored(spec)] else fields
  }

  function IdentityStatus(b: Board, id: IdentityArgs): Status {
    if b.isSealed then RegistrationSealed
    else if !Copy(id.boardId, Limits.MAX_BOARD_ID_BYTES).Copied? then
      CopyStatus(id.boardId, Limits.MAX_BOARD_ID_BYTES, InvalidName)
    else if !Copy(id.protocolVersion, Limits.MAX_PROTOCOL_VERSION_BYTES).Copied? then
      CopyStatus(id.protocolVersion, Limits.MAX_PROTOCOL_VERSION_BYTES, InvalidConfiguration)
    else CopyStatus(id.firmwareVersion, Limits.MAX_FIRMWARE_VERSION_BYTES, InvalidConfiguration)
  }

  /** Not all or nothing: the fields are overwritten one by one up to the one that fails, which is blanked. */
  function IdentityAfter(b: Board, id: IdentityArgs): Board {
    if b.isSealed then b
    else
      var i1 := b.identity.(boardId := CopyOf(id.boardId, Limits.MAX_BOARD_ID_BYTES));
      if !Copy(id.boardId, Limits.MAX_BOARD_ID_BYTES).Copied? then b.(identity := i1)
      else
        var i2 := i1.(protocolVersion := CopyOf(id.protocolVersion, Limits.MAX_PROTOCOL_VERSION_BYTES));
        if !Copy(id.protocolVersion, Limits.MAX_PROTOCOL_VERSION_BYTES).Copied? then b.(identity := i2)
        else
          var i3 := i2.(firmwareVersion := CopyOf(id.firmwareVersion, Limits.MAX_FIRMWARE_VERSION_BYTES));
          b.(identity := i3, identitySet := b.identitySet || Copy(id.firmwareVersion, Limits.MAX_FIRMWARE_VERSION_BYTES).Copied?)
  }

  function MetadataStatus(b: Board): Status {
    if !b.identitySet then InvalidConfiguration
    else if !b.provider then NoTelemetryProvider
    else if !b.estopHook then NoEstopHook
    else if !b.lossHook then NoControllerLossHook
    else Ok
  }

  // ---------------------------------------------------------------------------------------
  // What any sequence of registrations keeps.

  predicate DistinctNames(ns: seq<Named>) {
    forall i, j :: 0 <= i < j < |ns| ==> ns[i].name != ns[j].name
  }

  predicate GoodName(name: string) {
    0 < |name| <= Limits.MAX_NAME_BYTES
  }

  predicate GoodNames(ns: seq<Named>) {
    DistinctNames(ns) && forall k :: 0 <= k < |ns| ==> GoodName(ns[k].name)
  }

  ghost predicate WellFormed(b: Board) {
    && |b.commands| <= Limits.MAX_REGISTERED_COMMANDS
    && (forall i, j :: 0 <= i < j < |b.commands| ==> b.commands[i].name != b.commands[j].name)
    && (forall k :: 0 <= k < |b.commands| ==>
          && GoodName(b.commands[k].name)
          && |b.commands[k].args| <= Limits.MAX_ARGS_PER_COMMAND && GoodNames(b.commands[k].args))
    && |b.telemetry| <= Limits.MAX_FIELDS && GoodNames(b.telemetry)
    && |b.state| <= Limits.MAX_FIELDS && GoodNames(b.state)
    && |b.identity.boardId| <= Limits.MAX_BOARD_ID_BYTES
    && |b.identity.protocolVersion| <= Limits.MAX_PROTOCOL_VERSION_BYTES
    && |b.identity.firmwareVersion| <= Limits.MAX_FIRMWARE_VERSION_BYTES
  }

  lemma {:induction false} AcceptedArgsAreGood(specs: seq<Spec>)
    requires ArgsStatus(specs).Ok?
    ensures GoodNames(StoredAll(specs))
  {
    if specs != [] {
      var n := |specs| - 1;
      AcceptedArgsAreGood(specs[..n]);
      assert StoredAll(specs)[..n] == StoredAll(specs[..n]);
      forall i | 0 <= i < n ensures StoredAll(specs)[i].name != StoredAll(specs)[n].name {
        assert StoredAll(specs[..n])[i].name == StoredAll(specs)[i].name;
      }
      forall k | 0 <= k < n ensures GoodName(StoredAll(specs)[k].name) {
        assert StoredAll(specs)[k] == StoredAll(specs[..n])[k];
      }
      forall i, j | 0 <= i < j < n ensures StoredAll(specs)[i].name != StoredAll(specs)[j].name {
        assert StoredAll(specs)[i] == StoredAll(specs[..n])[i] && StoredAll(specs)[j] == StoredAll(specs[..n])[j];
      }
    }
  }

  lemma RegisteringKeepsWellFormed(b: Board, r: Registration)
    requires WellFormed(b) && (r.args.Some? ==> r.argCount <= |r.args.value|)
    ensures WellFormed(Registered(b, r)) && Registered(b, r).isSealed == b.isSealed
  {
    if RegisterStatus(b, r).Ok? {
      AcceptedArgsAreGood(Args(r));
    }
  }

  lemma AddingAFieldKeepsGoodNames(isSealed: bool, fields: seq<Named>, spec: Spec)
    requires GoodNames(fields) && |fields| <= Limits.MAX_FIELDS
    ensures GoodNames(FieldsAfter(isSealed, fields, spec))
            && |FieldsAfter(isSealed, fields, spec)| <= Limits.MAX_FIELDS
  {
  }

  /** No identity field is blank. */
  predicate IsComplete(id: Identity) {
    id.boardId != "" && id.protocolVersion != "" && id.firmwareVersion != ""
  }

  /** Setting the identity completes it exactly when it succeeds; that some call succeeded is remembered for the seal. */
  lemma IdentityIsCompleteIff(b: Board, id: IdentityArgs)
    requires !b.isSealed
    ensures IsComplete(IdentityAfter(b, id).identity) <==> IdentityStatus(b, id).Ok?
    ensures IdentityAfter(b, id).identitySet <==> b.identitySet || IdentityStatus(b, id).Ok?
  {
  }

  /** The lookup the dispatcher uses: the first command of that name. */
  function Find(cs: seq<Command>, name: Option<cstring>): (i: Option<nat>)
    ensures i.Some? ==> i.value < |cs| && name == Some(cs[i.value].name)
    ensures i.None? && name.Some? ==> !HasCommand(cs, name.value)
  {
    if cs == [] || name.None? then None
    else
      var n := |cs| - 1;
      var i := Find(cs[..n], name);
      if i.Some? then i else if cs[n].name == name.value then Some(n) else None
  }

  /** The search through a list of names, which registration and dispatch both make. */
  method NameExists(ns: seq<Named>, name: string) returns (found: bool)
    ensures found <==> HasName(ns, name)
  {
    var i := 0;
    while i < |ns|
      invariant i <= |ns| && forall k :: 0 <= k < i ==> ns[k].name != name
    {
      if ns[i].name == name {
        return true;
      }
      i := i + 1;
    }
    return false;
  }

  // ---------------------------------------------------------------------------------------
  // The registry's fixed tables.

  class CommandRegistry {
    var isSealed: bool
    var identitySet: bool
    var identity: Identity
    const commands: array<Command>
    var commandCount: nat
    const telemetryFields: array<Named>
    var telemetryFieldCount: nat
    const stateFields: array<Named>
    var stateFieldCount: nat
    var provider: bool
    var estopHook: bool
    var lossHook: bool

    ghost predicate Valid()
      reads this
    {
      && commands.Length == Limits.MAX_REGISTERED_COMMANDS && commandCount <= commands.Length
      && telemetryFields != stateFields
      && telemetryFields.Length == stateFields.Length == Limits.MAX_FIELDS
      && telemetryFieldCount <= telemetryFields.Length && stateFieldCount <= stateFields.Length
    }

    ghost function Model(): Board
      requires Valid()
      reads this, commands, telemetryFields, stateFields
    {
      Board(isSealed, identitySet, identity, commands[..commandCount],
            telemetryFields[..telemetryFieldCount], stateFields[..stateFieldCount], provider, estopHook, lossHook)
    }

    constructor ()
      ensures Valid() && Model() == NEW_BOARD
      ensures fresh(commands) && fresh(telemetryFields) && fresh(stateFields)
    {
      isSealed, identitySet, identity := false, false, BLANK;
      commands := new Command[Limits.MAX_REGISTERED_COMMANDS](_ => Command("", [], false));
      telemetryFields := new Named[Limits.MAX_FIELDS](_ => Named("", Int));
      stateFields := new Named[Limits.MAX_FIELDS](_ => Named("", Int));
      commandCount, telemetryFieldCount, stateFieldCount := 0, 0, 0;
      provider, estopHook, lossHook := false, false, false;
    }

    method SetIdentity(id: IdentityArgs) returns (status: Status)
      requires Valid()
      modifies this
      ensures Valid() && Model() == IdentityAfter(old(Model()), id) && status == IdentityStatus(old(Model()), id)
    {
      if isSealed {
        return RegistrationSealed;
      }
      identity := identity.(boardId := CopyOf(id.boardId, Limits.MAX_BOARD_ID_BYTES));
      if Copy(id.boardId, Limits.MAX_BOARD_ID_BYTES) != Copied {
        return CopyStatus(id.boardId, Limits.MAX_BOARD_ID_BYTES, InvalidName);
      }
      identity := identity.(protocolVersion := CopyOf(id.protocolVersion, Limits.MAX_PROTOCOL_VERSION_BYTES));
      if Copy(id.protocolVersion, Limits.MAX_PROTOCOL_VERSION_BYTES) != Copied {
        return CopyStatus(id.protocolVersion, Limits.MAX_PROTOCOL_VERSION_BYTES, InvalidConfiguration);
      }
      identity := identity.(firmwareVersion := CopyOf(id.firmwareVersion, Limits.MAX_FIRMWARE_VERSION_BYTES));
      if Copy(id.firmwareVersion, Limits.MAX_FIRMWARE_VERSION_BYTES) != Copied {
        return CopyStatus(id.firmwareVersion, Limits.MAX_FIRMWARE_VERSION_BYTES, InvalidConfiguration);
      }
      identitySet := true;
      return Ok;
    }

    method RegisterCommand(r: Registration) returns (status: Status)
      requires Valid() && (r.args.Some? ==> r.argCount <= |r.args.value|)
      modifies this, commands
      ensures Valid() && Model() == Registered(old(Model()), r) && status == RegisterStatus(old(Model()), r)
    {
      if isSealed { return RegistrationSealed; }
      if !r.blockedSpecified { return InvalidArgumentSchema; }
      if !r.handler { return InvalidConfiguration; }
      if r.argCount > Limits.MAX_ARGS_PER_COMMAND { return CapacityExceeded; }
      if r.argCount > 0 && r.args == None { return InvalidArgumentSchema; }
      if commandCount >= Limits.MAX_REGISTERED_COMMANDS { return CapacityExceeded; }
      if Copy(r.name, Limits.MAX_NAME_BYTES) != Copied {
        return CopyStatus(r.name, Limits.MAX_NAME_BYTES, InvalidName);
      }
      var existing := FindCommand(r.name);
      if existing.Some? {
        assert HasCommand(Model().commands, r.name.value) by { assert Model().commands[existing.value].name == r.name.value; }
        return DuplicateRegistration;
      }
      var pending: seq<Named>;
      status, pending := CopyArguments(Args(r));
      if status != Ok {
        return;
      }
      commands[commandCount] := Command(r.name.value, pending, r.blockedByEstop);
      commandCount := commandCount + 1;
    }

    /** The argument loop: copies each name, refusing the first missing, long or repeated one. */
    method CopyArguments(specs: seq<Spec>) returns (status: Status, pending: seq<Named>)
      ensures status == ArgsStatus(specs)
      ensures status == Ok ==> pending == StoredAll(specs)
    {
      pending := [];
      var i := 0;
      while i < |specs|
        invariant i <= |specs| && ArgsStatus(specs[..i]) == Ok && pending == StoredAll(specs[..i])
      {
        assert specs[..i + 1][..i] == specs[..i];
        if Copy(specs[i].name, Limits.MAX_NAME_BYTES) != Copied {
          status := CopyStatus(specs[i].name, Limits.MAX_NAME_BYTES, InvalidArgumentSchema);
          FirstProblemStays(specs, i + 1);
          return;
        }
        var repeated := NameExists(pending, specs[i].name.value);
        if repeated {
          FirstProblemStays(specs, i + 1);
          return DuplicateRegistration, pending;
        }
        pending := pending + [Stored(specs[i])];
        i := i + 1;
      }
      assert specs[..i] == specs;
      return Ok, pending;
    }

    method RegisterTelemetryField(spec: Spec) returns (status: Status)
      requires Valid()
      modifies this, telemetryFields
      ensures Valid() && status == FieldStatus(old(isSealed), old(Model()).telemetry, spec)
      ensures Model() == old(Model()).(telemetry := FieldsAfter(old(isSealed), old(Model()).telemetry, spec))
    {
      status := RegisterField(spec, telemetryFields, telemetryFieldCount);
      if status == Ok {
        telemetryFieldCount := telemetryFieldCount + 1;
      }
    }

    method RegisterStateField(spec: Spec) returns (status: Status)
      requires Valid()
      modifies this, stateFields
      ensures Valid() && status == FieldStatus(old(isSealed), old(Model()).state, spec)
      ensures Model() == old(Model()).(state := FieldsAfter(old(isSealed), old(Model()).state, spec))
    {
      status := RegisterField(spec, stateFields, stateFieldCount);
      if status == Ok {
        stateFieldCount := stateFieldCount + 1;
      }
    }

    /** The name is written to the next free slot before it is checked for repetition, and blanked if it repeats. */
    method RegisterField(spec: Spec, fields: array<Named>, count: nat) returns (status: Status)
      requires count <= fields.Length == Limits.MAX_FIELDS
      modifies fields
      ensures status == FieldStatus(isSealed, old(fields[..count]), spec)
      ensures fields[..count] == old(fields[..count])
      ensures status == Ok ==> count < fields.Length && fields[count] == Stored(spec)
    {
      if isSealed { return RegistrationSealed; }
      if count >= Limits.MAX_FIELDS { return CapacityExceeded; }
      fields[count] := fields[count].(name := CopyOf(spec.name, Limits.MAX_NAME_BYTES));
      if Copy(spec.name, Limits.MAX_NAME_BYTES) != Copied {
        return CopyStatus(spec.name, Limits.MAX_NAME_BYTES, InvalidName);
      }
      var repeated := NameExists(fields[..count], fields[count].name);
      if repeated {
        fields[count] := fields[count].(name := "");
        return DuplicateRegistration;
      }
      fields[count] := fields[count].(kind := spec.kind);
      return Ok;
    }

    method SetTelemetryProvider(present: bool) returns (status: Status)
      requires Valid()
      modifies this
      ensures Valid() && Model() == if old(isSealed) || !present then old(Model()) else old(Model()).(provider := true)
      ensures status == if old(isSealed) then RegistrationSealed else if present then Ok else NoTelemetryProvider
    {
      if isSealed { return RegistrationSealed; }
      if !present { return NoTelemetryProvider; }
      provider := true;
      return Ok;
    }

    method SetEstopHook(present: bool) returns (status: Status)
      requires Valid()
      modifies this
      ensures Valid() && Model() == if old(isSealed) || !present then old(Model()) else old(Model()).(estopHook := true)
      ensures status == if old(isSealed) then RegistrationSealed else if present then Ok else NoEstopHook
    {
      if isSealed { return RegistrationSealed; }
      if !present { return NoEstopHook; }
      estopHook := true;
      return Ok;
    }

    method SetControllerLossHook(present: bool) returns (status: Status)
      requires Valid()
      modifies this
      ensures Valid() && Model() == if old(isSealed) || !present then old(Model()) else old(Model()).(lossHook := true)
      ensures status == if old(isSealed) then RegistrationSealed else if present then Ok else NoControllerLossHook
    {
      if isSealed { return RegistrationSealed; }
      if !present { return NoControllerLossHook; }
      lossHook := true;
      return Ok;
    }

    method ValidateMetadataForSeal() returns (status: Status)
      requires Valid()
      ensures status == MetadataStatus(Model())
    {
      if !identitySet { return InvalidConfiguration; }
      if !provider { return NoTelemetryProvider; }
      if !estopHook { return NoEstopHook; }
      if !lossHook { return NoControllerLossHook; }
      return Ok;
    }

    method CommitSeal() returns (status: Status)
      requires Valid()
      modifies this
      ensures Valid() && Model() == old(Model()).(isSealed := true)
      ensures status == if old(isSealed) then RegistrationSealed else Ok
    {
      if isSealed { return RegistrationSealed; }
      isSealed := true;
      return Ok;
    }

    method FindCommand(name: Option<cstring>) returns (index: Option<nat>)
      requires Valid()
      ensures index == Find(Model().commands, name)
    {
      if name == None {
        return None;
      }
      ghost var cs := Model().commands;
      var i := 0;
      while i < commandCount
        invariant i <= commandCount && Find(cs[..i], name) == None
      {
        assert cs[..i + 1][..i] == cs[..i];
        if commands[i].name == name.value {
          FirstMatchStays(cs, i + 1, name);
          return Some(i);
        }
        i := i + 1;
      }
      assert cs[..i] == cs;
      return None;
    }
  }

  lemma {:induction false} FirstProblemStays(specs: seq<Spec>, i: nat)
    requires i <= |specs| && ArgsStatus(specs[..i]) != Ok
    ensures ArgsStatus(specs) == ArgsStatus(specs[..i])
    decreases |specs| - i
  {
    if i == |specs| {
      assert specs[..i] == specs;
    } else {
      assert specs[..i + 1][..i] == specs[..i];
      FirstProblemStays(specs, i + 1);
    }
  }

  lemma {:induction false} FirstMatchStays(cs: seq<Command>, i: nat, name: Option<cstring>)
    requires i <= |cs| && Find(cs[..i], name).Some?
    ensures Find(cs, name) == Find(cs[..i], name)
    decreases |cs| - i
  {
    if i == |cs| {
      assert cs[..i] == cs;
    } else {
      assert cs[..i + 1][..i] == cs[..i];
      FirstMatchStays(cs, i + 1, name);
    }
  }
}
