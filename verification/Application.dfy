/**
 What the library calls back into or leaves to others: the parser's reading of a line, command
 handlers, the telemetry provider and the safety hooks. Their answers are arbitrary, and noted in a
 log that the library never reads.
 */
module Applications {
  import opened Common
  import opened JsonWriting
  import opened Payloads
  import opened ArgumentValidation
  import Limits

  /** A parsed command. `literal` is the controller's time as the C library prints it. */
  datatype Command = Command(seq_: uint64, literal: number, name: Option<cstring>, args: seq<Arg>)

  /** What a line turned out to be. `Ignored` covers what is malformed, unsupported or answered by no route. */
  datatype Received = Ignored | ForAnother | ACommand(command: Command) | AnEstop | AHeartbeat(seq_: uint64)

  /** What a command handler returns beside its payload. */
  datatype Answer = Answer(ok: bool, code: BoardErrorCode, message: Option<cstring>)

  type reason = Option<cstring>

  /** What was asked of the application and what it answered, e-stop requests included. */
  datatype Fact =
    | LineRead(line: string, received: Received)
    | HandlerRan(command: Command, answer: Answer, uses: script, reasons: seq<reason>)
    | ProviderRan(ok: bool, uses: script, reasons: seq<reason>)
    | HookRan(safe: bool, reasons: seq<reason>)
    | Asked(reasons: seq<reason>)

  class Application {
    ghost var log: seq<Fact>

    constructor ()
      ensures log == []
    {
      log := [];
    }

    /** A double printed with 17 digits takes fewer than 32 characters. */
    method Parse(line: string) returns (r: Received)
      modifies this
      ensures log == old(log) + [LineRead(line, r)]
      ensures r.ACommand? ==> |r.command.literal| < Limits.MAX_DOUBLE_LITERAL_BYTES
    {
      r := *;
      if r.ACommand? && |r.command.literal| >= Limits.MAX_DOUBLE_LITERAL_BYTES {
        r := Ignored;
      }
      log := log + [LineRead(line, r)];
    }

    method RunHandler(command: Command, result: ObjectWriter)
      returns (answer: Answer, reasons: seq<reason>, ghost uses: script)
      requires result.Valid() && result.Model() == Opened()
      modifies this, result, result.writer, result.buffer, result.writer.first
      ensures result.Valid() && result.Model() == Filled(uses)
      ensures log == old(log) + [HandlerRan(command, answer, uses, reasons)]
    {
      uses := FillPayload(result);
      answer, reasons := *, *;
      log := log + [HandlerRan(command, answer, uses, reasons)];
    }

    method RunProvider(telemetry: ObjectWriter) returns (ok: bool, reasons: seq<reason>, ghost uses: script)
      requires telemetry.Valid() && telemetry.Model() == Opened()
      modifies this, telemetry, telemetry.writer, telemetry.buffer, telemetry.writer.first
      ensures telemetry.Valid() && telemetry.Model() == Filled(uses)
      ensures log == old(log) + [ProviderRan(ok, uses, reasons)]
    {
      uses := FillPayload(telemetry);
      ok, reasons := *, *;
      log := log + [ProviderRan(ok, uses, reasons)];
    }

    method RunEstopHook() returns (safe: bool, reasons: seq<reason>)
      modifies this
      ensures log == old(log) + [HookRan(safe, reasons)]
    {
      safe, reasons := *, *;
      log := log + [HookRan(safe, reasons)];
    }

    /** It may ask for an e-stop event from the controller-loss hook too. */
    method Ask() returns (reasons: seq<reason>)
      modifies this
      ensures log == old(log) + [Asked(reasons)]
    {
      reasons := *;
      log := log + [Asked(reasons)];
    }
  }

  /** Whatever a handler or provider does with the payload it is given. */
  method FillPayload(payload: ObjectWriter) returns (ghost uses: script)
    requires payload.Valid() && payload.Model() == Opened()
    modifies payload, payload.writer, payload.buffer, payload.writer.first
    ensures payload.Valid() && payload.Model() == Filled(uses)
  {
    hide ObjectWriter.Model, Opened, After;
    var plan: seq<Use> := *;
    uses := [];
    var i := 0;
    while i < |plan|
      invariant i <= |plan| && payload.Valid() && payload.Model() == Filled(uses)
    {
      if IsUse(plan[i]) {
        UseOnce(payload, plan[i]);
        uses := OneMore(uses, plan[i]);
      }
      i := i + 1;
    }
  }

  ghost function OneMore(uses: script, u: Use): (more: script)
    requires IsUse(u)
    ensures more == uses + [u] && more[..|uses|] == uses
  {
    assert (uses + [u])[..|uses|] == uses;
    uses + [u]
  }

  method UseOnce(payload: ObjectWriter, u: Use)
    requires payload.Valid() && IsUse(u)
    modifies payload, payload.writer, payload.buffer, payload.writer.first
    ensures payload.Valid() && payload.Model() == After(old(payload.Model()), u)
  {
    hide ObjectWriter.Model, ObjectWriter.Valid, Added, Closed;
    var ok: bool;
    match u
    case Close => ok := payload.Close();
    case Add(AddInt(name, i)) => ok := payload.AddInt(name, i);
    case Add(AddUInt64(name, n)) => ok := payload.AddUInt64(name, n);
    case Add(AddDouble(name, d)) => ok := payload.AddDouble(name, d);
    case Add(AddBool(name, b)) => ok := payload.AddBool(name, b);
    case Add(AddString(name, value)) => ok := payload.AddString(name, value);
    case Add(AddBytes(name, bytes)) => ok := payload.AddBytes(name, bytes);
  }
}
