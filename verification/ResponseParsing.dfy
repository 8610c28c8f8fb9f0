/** What a controller reads back from a response line. */
module ResponseParsing {
  import opened Common
  import opened Json
  import opened JsonWriting
  import opened Payloads
  import opened Dispatching
  import opened ArgumentValidation
  import Registry
  import Schema
  import Limits

  /** An object's text before its closing brace. */
  function OpenText(m: Members): string {
    "{" + PrintMembers(m)
  }

  lemma OneMore(m: Members, name: string, v: Value)
    requires !m.Empty?
    ensures OpenText(Snoc(m, name, v)) == OpenText(m) + ("," + (Quote(name, Upper) + ":") + Print(v))
  {
    hide Quote;
    var piece := "," + (Quote(name, Upper) + ":" + Print(v));
    assert PrintMembers(Snoc(m, name, v)) == PrintMembers(m) + piece;
    Assoc("{", PrintMembers(m), piece);
    Assoc(",", Quote(name, Upper) + ":", Print(v));
  }

  predicate IsLabel(tag: string, name: string) {
    tag == "," + (Quote(name, Upper) + ":")
  }

  lemma Labeled(m: Members, name: string, v: Value, tag: string)
    requires !m.Empty? && IsLabel(tag, name)
    ensures OpenText(Snoc(m, name, v)) == OpenText(m) + (tag + Print(v))
  {
    hide Quote;
    OneMore(m, name, v);
  }

  lemma PlainLabel(tag: string, name: string)
    requires IsPlain(name) && tag == ",\"" + name + "\":"
    ensures IsLabel(tag, name)
  {
    hide Escape;
    PlainEscape(name, Upper);
    assert Quote(name, Upper) == "\"" + name + "\"";
  }

  lemma NumberLabels()
    ensures IsLabel(CONTROLLER_TS_LABEL, "controller_ts") && IsLabel(TIMESTAMP_LABEL, "timestamp")
  {
    hide IsLabel;
    PlainLabel(CONTROLLER_TS_LABEL, "controller_ts");
    PlainLabel(TIMESTAMP_LABEL, "timestamp");
  }

  lemma ResultLabels()
    ensures IsLabel(SOURCE_LABEL, "source") && IsLabel(RESULT_LABEL, "result")
  {
    hide IsLabel;
    PlainLabel(SOURCE_LABEL, "source");
    PlainLabel(RESULT_LABEL, "result");
  }

  // ---------------------------------------------------------------------------------------
  // The document.

  const TYPED: Members := Snoc(Empty, "type", Text("response"))

  function Numbered(o: Origin): Members {
    Snoc(Snoc(Snoc(TYPED, "seq", Literal(Decimal(o.seq_))), "controller_ts", Literal(o.literal)), "timestamp", Literal(Decimal(o.timestamp)))
  }

  function Addressed(o: Origin, status: string): Members {
    Snoc(Snoc(Snoc(Numbered(o), "source", Text(o.boardId)), "target", Text("controller")), "status", Text(status))
  }

  function OkMembers(o: Origin, result: Members, us: uint64): Members {
    Snoc(Snoc(Addressed(o, "ok"), "result", Object(Snoc(result, PROC_NAME, Literal(Decimal(us))))), "error", Literal("null"))
  }

  lemma TypeQuoted()
    ensures Quote("type", Upper) == "\"type\""
  {
    hide Escape;
    PlainEscape("type", Upper);
  }

  lemma ResponseQuoted()
    ensures Print(Text("response")) == "\"response\""
  {
    hide Escape;
    PlainEscape("response", Upper);
  }

  lemma TypedText()
    ensures OpenText(TYPED) == "{\"type\":\"response\""
  {
    hide Quote;
    TypeQuoted();
    ResponseQuoted();
    assert PrintMembers(TYPED) == "" + ("" + Member("type", Print(Text("response"))));
  }

  lemma SeqLabel()
    ensures SEQ_LABEL == "{\"type\":\"response\"" + ",\"seq\":" && IsLabel(",\"seq\":", "seq")
  {
    hide IsLabel;
    PlainLabel(",\"seq\":", "seq");
  }

  lemma SeqText(o: Origin)
    ensures OpenText(Snoc(TYPED, "seq", Literal(Decimal(o.seq_)))) == SEQ_LABEL + Decimal(o.seq_)
  {
    hide OpenText, Decimal, IsLabel;
    TypedText();
    SeqLabel();
    Labeled(TYPED, "seq", Literal(Decimal(o.seq_)), ",\"seq\":");
    PrintLiteral(Decimal(o.seq_));
    Assoc(OpenText(TYPED), ",\"seq\":", Decimal(o.seq_));
  }

  lemma PrintLiteral(t: string)
    ensures Print(Literal(t)) == t
  {
  }

  lemma HeadIsNumbered(o: Origin)
    ensures OpenText(Numbered(o)) == HeadText(o)
  {
    hide OpenText, Decimal, IsLabel, IsNumber;
    var m1 := Snoc(TYPED, "seq", Literal(Decimal(o.seq_)));
    var m2 := Snoc(m1, "controller_ts", Literal(o.literal));
    SeqText(o);
    NumberLabels();
    PrintLiteral(o.literal);
    PrintLiteral(Decimal(o.timestamp));
    Labeled(m1, "controller_ts", Literal(o.literal), CONTROLLER_TS_LABEL);
    Labeled(m2, "timestamp", Literal(Decimal(o.timestamp)), TIMESTAMP_LABEL);
  }

  lemma SnocWellFormed(m: Members, name: string, v: Value)
    requires WellFormedMembers(m) && WellFormed(v)
    ensures WellFormedMembers(Snoc(m, name, v))
  {
  }

  lemma LiteralsWellFormed(o: Origin, us: uint64)
    ensures WellFormed(Literal(Decimal(o.seq_))) && WellFormed(Literal(o.literal))
            && WellFormed(Literal(Decimal(o.timestamp)))
    ensures WellFormed(Literal(Decimal(us))) && WellFormed(Literal("null"))
  {
    hide Decimal, IsNumber;
    DecimalIsNumber(o.seq_);
    DecimalIsNumber(o.timestamp);
    DecimalIsNumber(us);
  }

  lemma NumberedWellFormed(o: Origin)
    ensures WellFormedMembers(Numbered(o))
  {
    hide WellFormed, Decimal, IsNumber;
    LiteralsWellFormed(o, 0);
    TypedWellFormed();
    var m1 := Snoc(TYPED, "seq", Literal(Decimal(o.seq_)));
    SnocWellFormed(TYPED, "seq", Literal(Decimal(o.seq_)));
    SnocWellFormed(m1, "controller_ts", Literal(o.literal));
    SnocWellFormed(Snoc(m1, "controller_ts", Literal(o.literal)), "timestamp", Literal(Decimal(o.timestamp)));
  }

  lemma TypedWellFormed()
    ensures WellFormedMembers(TYPED) && forall s: string :: WellFormed(Text(s))
  {
  }

  // ---------------------------------------------------------------------------------------
  // Reading a document member by member, however its strings are escaped.

  /** The text of one value, whatever follows it. */
  ghost predicate Spells(text: string, v: Value) {
    forall rest: string :: Delimited(rest) ==> ParseValue(text + rest) == Ok(v, rest)
  }

  /** The text of an object so far: reading it leaves the members read and the rest to read. */
  ghost predicate ReadsAs(text: string, m: Members) {
    forall tail: string :: tail != "" && Delimited(tail) ==> ParseValue(text + tail) == ParseMembers(tail, m)
  }

  lemma PrintedReads(m: Members)
    requires WellFormedMembers(m)
    ensures ReadsAs(OpenText(m), m)
  {
    hide PrintMembers;
    forall tail: string | tail != "" && Delimited(tail) ensures ParseValue(OpenText(m) + tail) == ParseMembers(tail, m) {
      Absorb(m, tail);
      Assoc("{", PrintMembers(m), tail);
      BraceThen(PrintMembers(m) + tail);
    }
  }

  lemma PrintedSpells(v: Value)
    requires WellFormed(v)
    ensures Spells(Print(v), v)
  {
    forall rest: string | Delimited(rest) ensures ParseValue(Print(v) + rest) == Ok(v, rest) {
      ParsePrint(v, rest);
    }
  }

  lemma QuoteSpells(content: string, hex: HexCase)
    ensures Spells(Quote(content, hex), Text(content))
  {
    hide Escape;
    forall rest: string | Delimited(rest) ensures ParseValue(Quote(content, hex) + rest) == Ok(Text(content), rest) {
      ParseQuoted(content, hex, rest);
    }
  }

  /** One more member, by its label and the text of its value. */
  lemma ReadsOneMore(text: string, m: Members, tag: string, name: string, spelled: string, v: Value)
    requires ReadsAs(text, m) && !m.Empty? && IsLabel(tag, name) && Spells(spelled, v)
    ensures ReadsAs(text + (tag + spelled), Snoc(m, name, v))
  {
    hide Quote;
    forall tail: string | tail != "" && Delimited(tail)
      ensures ParseValue(text + (tag + spelled) + tail) == ParseMembers(tail, Snoc(m, name, v))
    {
      var rest := "," + Member(name, spelled + tail);
      LabelThenValue(tag, name, spelled, tail);
      Assoc(text, tag + spelled, tail);
      assert ParseValue(text + rest) == ParseMembers(rest, m);
      EnterMember(m, name, spelled + tail);
    }
  }

  lemma LabelThenValue(tag: string, name: string, spelled: string, tail: string)
    requires IsLabel(tag, name)
    ensures tag + spelled + tail == "," + Member(name, spelled + tail)
  {
    hide Quote;
    var q := Quote(name, Upper) + ":";
    Assoc(tag, spelled, tail);
    Assoc(",", q, spelled + tail);
  }

  // ---------------------------------------------------------------------------------------
  // The response.

  lemma StatusLabel()
    ensures STATUS_LABEL == (",\"target\":" + "\"controller\"") + ",\"status\":"
  {
  }

  lemma TargetLabel()
    ensures IsLabel(",\"target\":", "target") && IsLabel(",\"status\":", "status")
  {
    hide IsLabel, Escape;
    PlainLabel(",\"target\":", "target");
    PlainLabel(",\"status\":", "status");
  }

  lemma ControllerText()
    ensures Quote("controller", Upper) == "\"controller\""
  {
    hide Escape;
    PlainEscape("controller", Upper);
  }

  lemma AddressReads(text: string, m: Members, boardId: cstring, status: cstring)
    requires ReadsAs(text, m) && !m.Empty?
    ensures ReadsAs(text + ((SOURCE_LABEL + Quote(boardId, Lower)) + (STATUS_LABEL + Quote(status, Lower))),
                    Snoc(Snoc(Snoc(m, "source", Text(boardId)), "target", Text("controller")), "status", Text(status)))
  {
    hide ReadsAs, Spells, IsLabel, Quote;
    var source := SOURCE_LABEL + Quote(boardId, Lower);
    var target := ",\"target\":" + "\"controller\"";
    var last := ",\"status\":" + Quote(status, Lower);
    var m1 := Snoc(m, "source", Text(boardId));
    ResultLabels();
    TargetLabel();
    StatusLabel();
    ControllerText();
    QuoteSpells(boardId, Lower);
    QuoteSpells("controller", Upper);
    QuoteSpells(status, Lower);
    ReadsOneMore(text, m, SOURCE_LABEL, "source", Quote(boardId, Lower), Text(boardId));
    ReadsOneMore(text + source, m1, ",\"target\":", "target", "\"controller\"", Text("controller"));
    ReadsOneMore(text + source + target, Snoc(m1, "target", Text("controller")), ",\"status\":", "status", Quote(status, Lower), Text(status));
    Assoc(target, ",\"status\":", Quote(status, Lower));
    Assoc(text + source, target, last);
    Assoc(text, source, target + last);
  }

  lemma PrefixReads(o: Origin, status: cstring)
    ensures ReadsAs(PrefixText(o, status), Addressed(o, status))
  {
    hide ReadsAs, OpenText, HeadText, Quote, Decimal, IsNumber, WellFormedMembers;
    NumberedWellFormed(o);
    PrintedReads(Numbered(o));
    HeadIsNumbered(o);
    AddressReads(HeadText(o), Numbered(o), o.boardId, status);
  }

  lemma EndReads(text: string, m: Members)
    requires ReadsAs(text, m) && !m.Empty?
    ensures ParseDocument(text + OK_END) == Some(Object(Snoc(m, "error", Literal("null"))))
  {
    hide IsLabel, ReadsAs, Spells;
    PlainLabel(",\"error\":", "error");
    NullSpells();
    OkEndParts();
    ReadsOneMore(text, m, ",\"error\":", "error", "null", Literal("null"));
    Assoc(text, ",\"error\":" + "null", "}\n");
    ObjectEnds(text + (",\"error\":" + "null"), Snoc(m, "error", Literal("null")));
  }

  lemma OkEndParts()
    ensures OK_END == (",\"error\":" + "null") + "}\n"
  {
  }

  /** The closing brace and the newline end the document. */
  lemma ObjectEnds(text: string, m: Members)
    requires ReadsAs(text, m)
    ensures ParseDocument(text + "}\n") == Some(Object(m))
  {
    var tail := "}\n";
    assert tail[1..] == "\n" && Delimited(tail);
    assert ParseMembers(tail, m) == Ok(Object(m), "\n");
  }

  lemma NullSpells()
    ensures Spells("null", Literal("null"))
  {
    assert IsLiteral("null");
    PrintLiteral("null");
    PrintedSpells(Literal("null"));
  }

  /**
   A successful response parses to the envelope's fields, the accepted members of the handler's
   payload under `result` with the processing time added, and a null error.
   */
  lemma OkLineParses(o: Origin, uses: seq<Use>, us: uint64)
    requires AreUses(uses) && OkLine(o, ClosedTextOf(uses), us).Some?
    ensures ParseDocument(OkLine(o, ClosedTextOf(uses), us).value) == Some(Object(OkMembers(o, Accepted(uses), us)))
  {
    hide Filled, Accepted, Closed, Print, IsObjectText, Quote, IsNumber, ReadsAs, Spells, IsLabel, PrefixText, Injected, Decimal, Addressed,
         WellFormed, WellFormedMembers;
    var result := Accepted(uses);
    var n := Snoc(result, PROC_NAME, Literal(Decimal(us)));
    PayloadAlwaysCloses(uses);
    InjectedIsOneMoreMember(result, us);
    ObjectWellFormed(n);
    PrintedSpells(Object(n));
    ResultLabels();
    PrefixReads(o, OK_STATUS);
    AddressedIsNotEmpty(o, OK_STATUS);
    ReadsOneMore(PrefixText(o, OK_STATUS), Addressed(o, OK_STATUS), RESULT_LABEL, "result", Print(Object(n)), Object(n));
    EndReads(PrefixText(o, OK_STATUS) + (RESULT_LABEL + Print(Object(n))), Snoc(Addressed(o, OK_STATUS), "result", Object(n)));
    Assoc(PrefixText(o, OK_STATUS), RESULT_LABEL + Print(Object(n)), OK_END);
  }

  lemma AddressedIsNotEmpty(o: Origin, status: string)
    ensures !Addressed(o, status).Empty? && !Numbered(o).Empty?
  {
  }

  lemma ObjectWellFormed(m: Members)
    requires WellFormedMembers(m)
    ensures WellFormed(Object(m))
  {
  }

  // ---------------------------------------------------------------------------------------
  // Error responses.

  function ErrorMembers(o: Origin, code: string, message: string): Members {
    Snoc(Snoc(Addressed(o, "error"), "result", Literal("null")), "error", Object(Problem(code, message)))
  }

  function Problem(code: string, message: string): Members {
    Snoc(Snoc(Empty, "code", Text(code)), "message", Text(message))
  }

  lemma FirstReads(name: string, spelled: string, v: Value)
    requires Spells(spelled, v)
    ensures ReadsAs("{" + (Quote(name, Upper) + ":") + spelled, Snoc(Empty, name, v))
  {
    hide Quote;
    var q := Quote(name, Upper) + ":";
    forall tail: string | tail != "" && Delimited(tail)
      ensures ParseValue("{" + q + spelled + tail) == ParseMembers(tail, Snoc(Empty, name, v))
    {
      Assoc("{" + q, spelled, tail);
      Assoc("{", q, spelled + tail);
      BraceThen(Member(name, spelled + tail));
      EnterMember(Empty, name, spelled + tail);
      assert "" + Member(name, spelled + tail) == Member(name, spelled + tail);
    }
  }

  lemma ClosedSpells(text: string, m: Members)
    requires ReadsAs(text, m)
    ensures Spells(text + "}", Object(m))
  {
    forall rest: string | Delimited(rest) ensures ParseValue(text + "}" + rest) == Ok(Object(m), rest) {
      Assoc(text, "}", rest);
      var tail := "}" + rest;
      assert tail[1..] == rest && Delimited(tail);
    }
  }

  lemma CodeLabelParts()
    ensures CODE_LABEL == (RESULT_LABEL + "null") + (",\"error\":" + "{\"code\":")
  {
  }

  lemma CodeQuoted()
    ensures "{\"code\":" == "{" + (Quote("code", Upper) + ":")
  {
    hide Escape;
    PlainEscape("code", Upper);
    assert Quote("code", Upper) == "\"code\"";
  }

  lemma MessageLabels()
    ensures IsLabel(MESSAGE_LABEL, "message") && IsLabel(",\"error\":", "error")
  {
    hide IsLabel;
    PlainLabel(MESSAGE_LABEL, "message");
    PlainLabel(",\"error\":", "error");
  }

  lemma ProblemSpells(code: cstring, message: cstring)
    ensures Spells(("{\"code\":" + Quote(code, Lower)) + (MESSAGE_LABEL + Quote(message, Lower)) + "}", Object(Problem(code, message)))
  {
    hide Spells, ReadsAs, IsLabel, Quote;
    var head := "{\"code\":" + Quote(code, Lower);
    CodeQuoted();
    MessageLabels();
    QuoteSpells(code, Lower);
    QuoteSpells(message, Lower);
    FirstReads("code", Quote(code, Lower), Text(code));
    ReadsOneMore(head, Snoc(Empty, "code", Text(code)), MESSAGE_LABEL, "message", Quote(message, Lower), Text(message));
    ClosedSpells(head + (MESSAGE_LABEL + Quote(message, Lower)), Problem(code, message));
  }

  lemma ErrorTextParts(prefix: string, code: string, rest: string)
    requires CODE_LABEL == (RESULT_LABEL + "null") + (",\"error\":" + "{\"code\":") && ERROR_END == "}" + "}\n"
    ensures prefix + ((CODE_LABEL + code) + rest + ERROR_END)
         == prefix + (RESULT_LABEL + "null") + (",\"error\":" + (("{\"code\":" + code) + rest + "}")) + "}\n"
  {
    var a, b, c := RESULT_LABEL + "null", ",\"error\":", "{\"code\":";
    Regrouped(prefix, a, b, c, code, rest);
  }

  lemma Regrouped(p: string, a: string, b: string, c: string, code: string, rest: string)
    ensures p + (((a + (b + c)) + code) + rest + ("}" + "}\n")) == p + a + (b + ((c + code) + rest + "}")) + "}\n"
  {
  }

  lemma ErrorEndParts()
    ensures ERROR_END == "}" + "}\n"
  {
  }

  /** Every error response parses to the envelope, a null result, and the error's code and message, escapes undone. */
  lemma ErrorLineParses(o: Origin, code: cstring, message: cstring)
    requires ErrorLine(o, code, message).Some?
    ensures ParseDocument(ErrorLine(o, code, message).value) == Some(Object(ErrorMembers(o, code, message)))
  {
    hide Spells, ReadsAs, IsLabel, Quote, PrefixText, Addressed, Decimal, IsNumber, Problem;
    var prefix, m := PrefixText(o, ERROR_STATUS), Addressed(o, ERROR_STATUS);
    var problem := ("{\"code\":" + Quote(code, Lower)) + (MESSAGE_LABEL + Quote(message, Lower)) + "}";
    PrefixReads(o, ERROR_STATUS);
    AddressedIsNotEmpty(o, ERROR_STATUS);
    ResultLabels();
    MessageLabels();
    NullSpells();
    ProblemSpells(code, message);
    ReadsOneMore(prefix, m, RESULT_LABEL, "result", "null", Literal("null"));
    var n := Snoc(m, "result", Literal("null"));
    ReadsOneMore(prefix + (RESULT_LABEL + "null"), n, ",\"error\":", "error", problem, Object(Problem(code, message)));
    ObjectEnds(prefix + (RESULT_LABEL + "null") + (",\"error\":" + problem), Snoc(n, "error", Object(Problem(code, message))));
    CodeLabelParts();
    ErrorEndParts();
    ErrorTextParts(prefix, Quote(code, Lower), MESSAGE_LABEL + Quote(message, Lower));
  }

  // ---------------------------------------------------------------------------------------
  // Which error a command gets.

  /** The controller reads this code and message. */
  ghost predicate Refuses(r: Response, o: Origin, code: string, message: string) {
    !r.ok && r.line.Some? && ParseDocument(r.line.value) == Some(Object(ErrorMembers(o, code, message)))
  }

  lemma RefusalRefuses(o: Origin, fault: Fault, code: BoardErrorCode, message: cstring)
    requires |o.boardId| <= Limits.MAX_BOARD_ID_BYTES && LiteralFits(o) && |message| <= Limits.MAX_ERROR_MESSAGE_BYTES
    ensures Refuses(Refusal(o, fault, code, message), o, CodeText(code), message)
  {
    hide ErrorLine, CodeText, ErrorMembers;
    RefusalIsBuilt(o, fault, code, message);
    ErrorLineParses(o, CodeText(code), message);
  }

  /** The name of each code on the wire. */
  lemma CodesRead(code: BoardErrorCode)
    ensures CodeText(code) ==
      if code.MissingField? then "MISSING_FIELD" else if code.InvalidType? then "INVALID_TYPE"
      else if code.UnknownCommand? then "UNKNOWN_COMMAND" else if code.InvalidArgument? then "INVALID_ARGUMENT"
      else if code.InternalError? then "INTERNAL_ERROR" else "ESTOP_ACTIVE"
  {
  }

  lemma UnknownNameRefuses(o: Origin)
    requires |o.boardId| <= Limits.MAX_BOARD_ID_BYTES && LiteralFits(o)
    ensures Refuses(Refusal(o, UnknownName, UnknownCommand, UNKNOWN_COMMAND), o, "UNKNOWN_COMMAND", "unknown command")
  {
    hide Refuses, Refusal;
    CodesRead(UnknownCommand);
    RefusalRefuses(o, UnknownName, UnknownCommand, UNKNOWN_COMMAND);
  }

  lemma ProblemsRefuse(o: Origin)
    requires |o.boardId| <= Limits.MAX_BOARD_ID_BYTES && LiteralFits(o)
    ensures Refuses(Refusal(o, NoFault, MissingField, MISSING_ARGUMENT.message), o, "MISSING_FIELD", "missing required argument")
    ensures Refuses(Refusal(o, NoFault, InvalidType, INVALID_TYPE.message), o, "INVALID_TYPE", "argument has invalid type")
    ensures Refuses(Refusal(o, BadArgument, InvalidArgument, NOT_DECLARED.message), o, "INVALID_ARGUMENT", "argument is not declared")
    ensures MISSING_ARGUMENT.code == MissingField && INVALID_TYPE.code == InvalidType && NOT_DECLARED.code == InvalidArgument
  {
    hide Refuses, Refusal;
    CodesRead(MissingField);
    CodesRead(InvalidType);
    CodesRead(InvalidArgument);
    assert |MISSING_ARGUMENT.message| == 25 && |INVALID_TYPE.message| == 25 && |NOT_DECLARED.message| == 24;
    RefusalRefuses(o, NoFault, MissingField, MISSING_ARGUMENT.message);
    RefusalRefuses(o, NoFault, InvalidType, INVALID_TYPE.message);
    RefusalRefuses(o, BadArgument, InvalidArgument, NOT_DECLARED.message);
  }

  lemma ProblemDecides(commands: seq<Registry.Command>, o: Origin, name: Option<cstring>, args: seq<Arg>, h: Handled, us: uint64, later: uint64)
    ensures var r, i := Respond(commands, o, name, args, h, us, later), Registry.Find(commands, name);
            if i.None? then r == Refusal(o, UnknownName, UnknownCommand, UNKNOWN_COMMAND)
            else
              match Verdict(commands[i.value].args, args)
              case Some(p) => r == Refusal(o, FaultOf(p.code), p.code, p.message)
              case None => r == if h.ok then Success(o, h.payload, us, later) else Refusal(o, FaultOf(h.code), h.code, MessageOf(h.message))
  {
    hide Refusal, Success, Verdict;
  }

  ghost predicate ProblemRefused(r: Response, o: Origin, given: bool) {
    && (given ==> Refuses(r, o, "INVALID_TYPE", "argument has invalid type"))
    && (!given ==> Refuses(r, o, "MISSING_FIELD", "missing required argument"))
    && r.fault == NoFault
  }

  lemma FirstRefused(commands: seq<Registry.Command>, o: Origin, name: Option<cstring>, args: seq<Arg>, h: Handled,
                     us: uint64, later: uint64, k: nat)
    requires |o.boardId| <= Limits.MAX_BOARD_ID_BYTES && LiteralFits(o) && Registry.Find(commands, name).Some?
    requires var specs := commands[Registry.Find(commands, name).value].args;
             k < |specs| && !Supplied(specs[k], args) && forall j :: 0 <= j < k ==> Supplied(specs[j], args)
    ensures ProblemRefused(Respond(commands, o, name, args, h, us, later), o,
                           HasArg(args, commands[Registry.Find(commands, name).value].args[k].name))
  {
    hide Refuses, Respond, Refusal, Supplied, HasExtra, HasArg, Verdict;
    ProblemsRefuse(o);
    ProblemDecides(commands, o, name, args, h, us, later);
    VerdictIs(commands[Registry.Find(commands, name).value].args, args);
  }

  lemma ExtraRefused(commands: seq<Registry.Command>, o: Origin, name: Option<cstring>, args: seq<Arg>, h: Handled, us: uint64, later: uint64)
    requires |o.boardId| <= Limits.MAX_BOARD_ID_BYTES && LiteralFits(o) && Registry.Find(commands, name).Some?
    ensures var r, specs := Respond(commands, o, name, args, h, us, later), commands[Registry.Find(commands, name).value].args;
            (forall j :: 0 <= j < |specs| ==> Supplied(specs[j], args)) && HasExtra(specs, args) ==>
              Refuses(r, o, "INVALID_ARGUMENT", "argument is not declared") && r.fault == BadArgument
  {
    hide Refuses, Respond, Refusal, Supplied, HasExtra, HasArg, Verdict;
    ProblemsRefuse(o);
    ProblemDecides(commands, o, name, args, h, us, later);
    VerdictIs(commands[Registry.Find(commands, name).value].args, args);
  }

  /** A name nobody registered, then the first argument in declaration order that is missing or of the wrong type, then one too many. */
  lemma CheckedRefusals(commands: seq<Registry.Command>, o: Origin, name: Option<cstring>, args: seq<Arg>, h: Handled, us: uint64, later: uint64)
    requires |o.boardId| <= Limits.MAX_BOARD_ID_BYTES && LiteralFits(o)
    ensures var r, i := Respond(commands, o, name, args, h, us, later), Registry.Find(commands, name);
            && (i.None? ==> Refuses(r, o, "UNKNOWN_COMMAND", "unknown command") && r.fault == UnknownName)
            && (i.Some? ==>
                  var specs := commands[i.value].args;
                  && (forall k :: 0 <= k < |specs| && !Supplied(specs[k], args) && (forall j :: 0 <= j < k ==> Supplied(specs[j], args)) ==>
                        ProblemRefused(r, o, HasArg(args, specs[k].name)))
                  && ((forall j :: 0 <= j < |specs| ==> Supplied(specs[j], args)) && HasExtra(specs, args) ==>
                        Refuses(r, o, "INVALID_ARGUMENT", "argument is not declared") && r.fault == BadArgument))
  {
    hide Refuses, Respond, Refusal, Supplied, HasExtra, HasArg, Verdict;
    UnknownNameRefuses(o);
    ProblemDecides(commands, o, name, args, h, us, later);
    if Registry.Find(commands, name).Some? {
      var specs := commands[Registry.Find(commands, name).value].args;
      ExtraRefused(commands, o, name, args, h, us, later);
      forall k | 0 <= k < |specs| && !Supplied(specs[k], args) && (forall j :: 0 <= j < k ==> Supplied(specs[j], args))
        ensures ProblemRefused(Respond(commands, o, name, args, h, us, later), o, HasArg(args, specs[k].name))
      {
        FirstRefused(commands, o, name, args, h, us, later, k);
      }
    }
  }

  /** A handler that ran and refused is quoted, code and message; a message over 160 bytes is replaced. */
  lemma HandlerRefusals(commands: seq<Registry.Command>, o: Origin, name: Option<cstring>, args: seq<Arg>, h: Handled, us: uint64, later: uint64)
    requires |o.boardId| <= Limits.MAX_BOARD_ID_BYTES && LiteralFits(o) && !h.ok
    requires Registry.Find(commands, name).Some? && Conforms(commands[Registry.Find(commands, name).value].args, args)
    ensures var r, m := Respond(commands, o, name, args, h, us, later), h.message;
            && Refuses(r, o, CodeText(h.code), if m.None? then "" else if |m.value| > 160 then "error message exceeds fixed capacity" else m.value)
            && (r.fault == if h.code.InvalidArgument? then BadArgument else NoFault)
  {
    hide Refuses, Success, Refusal, CodeText, Conforms, FirstProblem, HasExtra;
    AcceptedIffConforms(commands[Registry.Find(commands, name).value].args, args);
    MessageLengths(h.message);
    RefusalRefuses(o, FaultOf(h.code), h.code, MessageOf(h.message));
  }

  /** When a handler succeeded but something it added was refused, or the line does not fit, the controller reads an internal error. */
  lemma OverflowRefusals(commands: seq<Registry.Command>, o: Origin, name: Option<cstring>, args: seq<Arg>, h: Handled, uses: seq<Use>,
                         us: uint64, later: uint64)
    requires |o.boardId| <= Limits.MAX_BOARD_ID_BYTES && LiteralFits(o) && h.ok && AreUses(uses) && h.payload == Filled(uses)
    requires Registry.Find(commands, name).Some? && Conforms(commands[Registry.Find(commands, name).value].args, args)
    ensures var r := Respond(commands, o, name, args, h, us, later);
            && (h.payload.w.failed ==> Refuses(r, o, "INTERNAL_ERROR", "response exceeded fixed capacity"))
            && (!h.payload.w.failed && OkLine(o, ClosedTextOf(uses), us).None? ==>
                  Refuses(r, o.(timestamp := later), "INTERNAL_ERROR", "response exceeded fixed capacity"))
            && r.fault == NoFault
  {
    hide Refuses, Refusal, CodeText, Conforms, FirstProblem, HasExtra, Filled, Closed, OkLine, Accepted;
    AcceptedIffConforms(commands[Registry.Find(commands, name).value].args, args);
    CodesRead(InternalError);
    MessageLengths(None);
    PayloadAlwaysCloses(uses);
    FilledHolds(uses);
    ClosingKeepsTheFlag(h.payload, Accepted(uses));
    RefusalRefuses(o, NoFault, InternalError, OVERFLOW);
    RefusalRefuses(o.(timestamp := later), NoFault, InternalError, OVERFLOW);
  }

  // ---------------------------------------------------------------------------------------
  // Success and failure, as a controller tells them apart.

  predicate SaysOk(line: string) {
    Schema.Child(ParseDocument(line), "status") == Some(Text("ok"))
  }

  lemma StatusIn(o: Origin, status: string, result: Value, error: Value)
    ensures Schema.Lookup(Snoc(Snoc(Addressed(o, status), "result", result), "error", error), "status") == Some(Text(status))
  {
    hide Numbered;
    assert "result"[0] != "status"[0] && "error"[0] != "status"[0];
    assert Schema.Lookup(Addressed(o, status), "status") == Some(Text(status));
    assert Schema.Lookup(Snoc(Addressed(o, status), "result", result), "status") == Some(Text(status));
  }

  lemma RefusalSaysSo(o: Origin, fault: Fault, code: BoardErrorCode, message: cstring)
    ensures var line := Refusal(o, fault, code, message).line; line.Some? ==> !SaysOk(line.value)
  {
    hide ErrorLine, CodeText, Addressed, Problem, ParseDocument, Schema.Lookup;
    if ErrorLine(o, CodeText(code), message).Some? {
      ErrorLineParses(o, CodeText(code), message);
    }
    StatusIn(o, "error", Literal("null"), Object(Problem(CodeText(code), message)));
  }

  /** A response says that it is a success exactly when it is counted as one. */
  lemma ResponseSaysWhich(commands: seq<Registry.Command>, o: Origin, name: Option<cstring>, args: seq<Arg>,
                          h: Handled, uses: seq<Use>, us: uint64, later: uint64)
    requires |o.boardId| <= Limits.MAX_BOARD_ID_BYTES && LiteralFits(o)
    requires AreUses(uses) && h.payload == Filled(uses)
    ensures var r := Respond(commands, o, name, args, h, us, later);
            r.line.Some? && (SaysOk(r.line.value) <==> r.ok)
  {
    hide Filled, Accepted, Closed, OkLine, Refusal, IsOneLine, FirstProblem, HasExtra, Conforms, CodeText, SaysOk, Verdict;
    AlwaysAnswers(commands, o, name, args, h, uses, us, later);
    var r := Respond(commands, o, name, args, h, us, later);
    if r.ok {
      SuccessSaysSo(o, uses, us, r);
    } else {
      ErrorSaysSo(commands, o, name, args, h, us, later);
    }
  }

  lemma SuccessSaysSo(o: Origin, uses: seq<Use>, us: uint64, r: Response)
    requires AreUses(uses) && r.line.Some? && r.line == OkLine(o, Print(Object(Accepted(uses))), us)
    ensures SaysOk(r.line.value)
  {
    hide Filled, Accepted, Closed, OkLine, Addressed, ParseDocument, Print, Decimal, Schema.Lookup;
    PayloadAlwaysCloses(uses);
    OkLineParses(o, uses, us);
    StatusIn(o, "ok", Object(Snoc(Accepted(uses), PROC_NAME, Literal(Decimal(us)))), Literal("null"));
  }

  lemma FailedSuccess(o: Origin, p: Payload, us: uint64, later: uint64)
    requires !Success(o, p, us, later).ok
    ensures Success(o, p, us, later) in
              {Refusal(o, NoFault, InternalError, OVERFLOW), Refusal(o.(timestamp := later), NoFault, InternalError, OVERFLOW)}
  {
    hide Refusal, Closed, OkLineAround, IsSpoiled;
  }

  lemma ErrorSaysSo(commands: seq<Registry.Command>, o: Origin, name: Option<cstring>, args: seq<Arg>, h: Handled, us: uint64, later: uint64)
    requires var r := Respond(commands, o, name, args, h, us, later); !r.ok && r.line.Some?
    ensures !SaysOk(Respond(commands, o, name, args, h, us, later).line.value)
  {
    hide Refusal, Respond, Success, Verdict, SaysOk;
    ProblemDecides(commands, o, name, args, h, us, later);
    match Registry.Find(commands, name)
    case None => RefusalSaysSo(o, UnknownName, UnknownCommand, UNKNOWN_COMMAND);
    case Some(i) =>
      match Verdict(commands[i].args, args)
      case Some(p) => RefusalSaysSo(o, FaultOf(p.code), p.code, p.message);
      case None =>
        if h.ok {
          FailedSuccess(o, h.payload, us, later);
          RefusalSaysSo(o, NoFault, InternalError, OVERFLOW);
          RefusalSaysSo(o.(timestamp := later), NoFault, InternalError, OVERFLOW);
        } else {
          RefusalSaysSo(o, FaultOf(h.code), h.code, MessageOf(h.message));
        }
  }
}
