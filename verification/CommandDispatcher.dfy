/**
 The command dispatcher: every command that reaches it gets one response line, around the closed
 payload of its handler or around an error. The line is assembled in a fixed buffer, and the budget
 that keeps a payload small enough for it is made exact here.
 */
module Dispatching {
  import opened Common
  import opened Json
  import opened JsonWriting
  import opened LineBuilding
  import opened CounterBank
  import opened Scheduling
  import opened Payloads
  import opened ArgumentValidation
  import opened Applications
  import Platform
  import Registry
  import Limits

  // ---------------------------------------------------------------------------------------
  // The texts.

  const SEQ_LABEL := "{\"type\":\"response\",\"seq\":"
  const CONTROLLER_TS_LABEL := ",\"controller_ts\":"
  const TIMESTAMP_LABEL := ",\"timestamp\":"
  const SOURCE_LABEL := ",\"source\":"
  const STATUS_LABEL := ",\"target\":\"controller\",\"status\":"
  const RESULT_LABEL := ",\"result\":"
  const EMPTY_PROC_LABEL := "{\"board_proc_us\":"
  const PROC_LABEL := ",\"board_proc_us\":"
  const OK_END := ",\"error\":null}\n"
  const CODE_LABEL := ",\"result\":null,\"error\":{\"code\":"
  const MESSAGE_LABEL := ",\"message\":"
  const ERROR_END := "}}\n"
  const OK_STATUS: cstring := "ok"
  const ERROR_STATUS: cstring := "error"

  /** What a command brought with it that its response repeats. `literal` is the controller's time as the C library prints it. */
  datatype Origin = Origin(seq_: uint64, literal: number, timestamp: uint64, boardId: cstring)

  function NumberText(o: Origin): string {
    (SEQ_LABEL + Decimal(o.seq_)) + (CONTROLLER_TS_LABEL + o.literal)
  }

  function HeadText(o: Origin): string {
    NumberText(o) + (TIMESTAMP_LABEL + Decimal(o.timestamp))
  }

  function AddressText(o: Origin, status: cstring): string {
    (SOURCE_LABEL + Quote(o.boardId, Lower)) + (STATUS_LABEL + Quote(status, Lower))
  }

  function PrefixText(o: Origin, status: cstring): string {
    HeadText(o) + AddressText(o, status)
  }

  /** The payload with the processing time as one more member. */
  function Injected(payload: string, us: uint64): string
    requires IsObjectText(payload)
  {
    if |payload| == 2 then (EMPTY_PROC_LABEL + Decimal(us)) + "}"
    else payload[..|payload| - 1] + (PROC_LABEL + Decimal(us)) + "}"
  }

  function OkText(o: Origin, payload: string, us: uint64): string
    requires IsObjectText(payload)
  {
    PrefixText(o, OK_STATUS) + ((RESULT_LABEL + Injected(payload, us)) + OK_END)
  }

  function ErrorText(o: Origin, code: cstring, message: cstring): string {
    PrefixText(o, ERROR_STATUS) + ((CODE_LABEL + Quote(code, Lower)) + (MESSAGE_LABEL + Quote(message, Lower)) + ERROR_END)
  }

  predicate LiteralFits(o: Origin) {
    |o.literal| < Limits.MAX_DOUBLE_LITERAL_BYTES
  }

  function OkLine(o: Origin, payload: string, us: uint64): Option<string>
    requires IsObjectText(payload)
  {
    if LiteralFits(o) && |OkText(o, payload, us)| <= ROOM then Some(OkText(o, payload, us)) else None
  }

  function OkLineAround(o: Origin, payload: string, us: uint64): Option<string> {
    if IsObjectText(payload) then OkLine(o, payload, us) else None
  }

  function ErrorLine(o: Origin, code: cstring, message: cstring): Option<string> {
    if LiteralFits(o) && |ErrorText(o, code, message)| <= ROOM then Some(ErrorText(o, code, message)) else None
  }

  // ---------------------------------------------------------------------------------------
  // How long they are.

  lemma LabelLengths()
    ensures |SEQ_LABEL| == 25 && |CONTROLLER_TS_LABEL| == 17 && |TIMESTAMP_LABEL| == 13 && |SOURCE_LABEL| == 10
    ensures |STATUS_LABEL| == 32 && |RESULT_LABEL| == 10 && |EMPTY_PROC_LABEL| == 17 && |PROC_LABEL| == 17
    ensures |OK_END| == 15 && |CODE_LABEL| == 31 && |MESSAGE_LABEL| == 11 && |ERROR_END| == 3
  {
  }

  lemma StatusLengths()
    ensures |Quote(OK_STATUS, Lower)| == 4 && |Quote(ERROR_STATUS, Lower)| == 7
  {
    hide Escape;
    PlainEscape(OK_STATUS, Lower);
    PlainEscape(ERROR_STATUS, Lower);
  }

  /** No character of it is changed by escaping. */
  predicate IsPlain(s: string) {
    forall k :: 0 <= k < |s| ==> s[k] >= ' ' && s[k] != '"' && s[k] != '\\'
  }

  lemma {:induction false} PlainEscape(s: string, hex: HexCase)
    requires IsPlain(s)
    ensures Escape(s, hex) == s
  {
    if s != "" {
      PlainEscape(s[..|s| - 1], hex);
    }
  }

  /** The digits and the caller's own texts; everything else is fixed. */
  function Variable(o: Origin): nat {
    |Decimal(o.seq_)| + |o.literal| + |Decimal(o.timestamp)| + |Escape(o.boardId, Lower)|
  }

  lemma PrefixLength(o: Origin, status: cstring)
    ensures |PrefixText(o, status)| == 99 + Variable(o) + |Quote(status, Lower)|
  {
    hide Decimal, Escape;
    LabelLengths();
  }

  lemma OkLength(o: Origin, payload: string, us: uint64)
    requires IsObjectText(payload)
    ensures |OkText(o, payload, us)| == 145 + |payload| + Variable(o) + |Decimal(us)| - if |payload| == 2 then 1 else 0
  {
    hide Decimal, Escape, PrefixText;
    LabelLengths();
    StatusLengths();
    PrefixLength(o, OK_STATUS);
  }

  lemma DigitsOf(o: Origin, us: uint64)
    ensures Variable(o) + |Decimal(us)| <= 60 + |o.literal| + |Escape(o.boardId, Lower)|
  {
    hide Decimal, Escape;
    DecimalWidth(o.seq_, o.seq_);
    DecimalWidth(o.timestamp, o.timestamp);
    DecimalWidth(us, us);
  }

  /** What is left of the buffer, beside a full payload, for the controller's time and the escaped board id. */
  const ENVELOPE_SLACK: nat := 306

  /** Any payload a handler can produce, at any time, for any command number. */
  ghost predicate OkAlwaysFits(boardId: cstring, literal: number) {
    forall us: seq<Use>, seq_: uint64, timestamp: uint64, proc: uint64 | AreUses(us) ::
      OkLine(Origin(seq_, literal, timestamp, boardId), ClosedTextOf(us), proc).Some?
  }

  function ClosedTextOf(us: seq<Use>): (text: string)
    requires AreUses(us)
    ensures IsObjectText(text) && |text| <= Payloads.CAPACITY
  {
    PayloadAlwaysCloses(us);
    Closed(Filled(us)).w.text
  }

  function WidestText(): string {
    seq(Payloads.CAPACITY - 8, i => 'x')
  }

  function WidestCall(): Call {
    AddBytes(Some("a"), Some(WidestText()))
  }

  /** The widest payload there is: one string member that fills the buffer. */
  function FullUses(): (us: seq<Use>)
    ensures AreUses(us)
  {
    [Add(WidestCall())]
  }

  lemma OpenedIs()
    ensures Opened() == Payload(Writer("{", Payloads.CAPACITY, 1, [true], false, false), false)
  {
  }

  lemma FullIsOneAdd()
    ensures Filled(FullUses()) == Added(Opened(), WidestCall())
  {
    hide Apply, Opened, Allowed;
    assert FullUses()[..0] == [];
    assert Filled([]) == Opened();
  }

  lemma WidestQuotes()
    ensures |Quote("a", Upper)| == 3 && |Quote(WidestText(), Upper)| == Payloads.CAPACITY - 6
  {
    hide Escape;
    assert IsPlain("a");
    PlainEscape("a", Upper);
    assert IsPlain(WidestText());
    PlainEscape(WidestText(), Upper);
  }

  /** A first member whose text leaves just the closing brace's byte is accepted, and the payload then closes full. */
  lemma FirstMemberFits(p: Payload, name: cstring, bytes: string)
    requires p == Payload(Writer("{", Payloads.CAPACITY, 1, [true], false, false), false)
    requires name != PROC_NAME && |Quote(name, Upper)| + |Quote(bytes, Upper)| == Payloads.CAPACITY - 3
    ensures |Closed(Added(p, AddBytes(Some(name), Some(bytes)))).w.text| == Payloads.CAPACITY
  {
    hide Quote;
    var c := AddBytes(Some(name), Some(bytes));
    var piece := FieldPrefix(p.w, name) + Quote(bytes, Upper);
    assert |piece| == Payloads.CAPACITY - 2;
    assert Apply(p.w, c) == Result(p.w.(text := "{" + piece, first := [false]), true);
  }

  lemma FullPayload()
    ensures |ClosedTextOf(FullUses())| == Payloads.CAPACITY
  {
    hide Filled, Added, Opened, Closed, Quote;
    OpenedIs();
    FullIsOneAdd();
    WidestQuotes();
    FirstMemberFits(Opened(), "a", WidestText());
  }

  lemma WidestDigits()
    ensures |Decimal(TWO_64 - 1)| == 20
  {
    DecimalLength(TWO_64 - 1, 19);
    DecimalLength(TWO_64 - 1, 20);
    assert Pow10(10) == 10_000_000_000;
    assert Pow10(19) == 10_000_000_000_000_000_000;
    assert Pow10(20) == 100_000_000_000_000_000_000;
  }

  /**
   The result budget, exactly: every payload fits its response, for every command and at every time,
   if and only if the escaped board id and the controller's time together take at most 306 bytes.
   */
  lemma OkAlwaysFitsIff(boardId: cstring, literal: number)
    requires |literal| < Limits.MAX_DOUBLE_LITERAL_BYTES
    ensures OkAlwaysFits(boardId, literal) <==> |Escape(boardId, Lower)| + |literal| <= ENVELOPE_SLACK
  {
    hide Escape, Decimal, OkText, ClosedTextOf, FullUses, IsNumber;
    if |Escape(boardId, Lower)| + |literal| <= ENVELOPE_SLACK {
      forall us: seq<Use>, seq_: uint64, timestamp: uint64, proc: uint64 | AreUses(us)
        ensures OkLine(Origin(seq_, literal, timestamp, boardId), ClosedTextOf(us), proc).Some?
      {
        OkLength(Origin(seq_, literal, timestamp, boardId), ClosedTextOf(us), proc);
        DigitsOf(Origin(seq_, literal, timestamp, boardId), proc);
      }
    } else {
      var worst := Origin(TWO_64 - 1, literal, TWO_64 - 1, boardId);
      FullPayload();
      WidestDigits();
      OkLength(worst, ClosedTextOf(FullUses()), TWO_64 - 1);
      assert OkLine(worst, ClosedTextOf(FullUses()), TWO_64 - 1).None?;
    }
  }

  /** No byte of it needs a six-byte escape. */
  predicate HasNoLongEscape(s: string) {
    forall k :: 0 <= k < |s| ==> |EscapeChar(s[k], Lower)| <= 2
  }

  lemma {:induction false} ShortEscape(s: string)
    requires HasNoLongEscape(s)
    ensures |Escape(s, Lower)| <= 2 * |s|
  {
    if s != "" {
      ShortEscape(s[..|s| - 1]);
    }
  }

  /** With any board id free of six-byte escapes the budget is enough. */
  lemma OrdinaryIdAlwaysFits(boardId: cstring, literal: number)
    requires |boardId| <= Limits.MAX_BOARD_ID_BYTES && HasNoLongEscape(boardId)
             && |literal| < Limits.MAX_DOUBLE_LITERAL_BYTES
    ensures OkAlwaysFits(boardId, literal)
  {
    hide Escape, OkAlwaysFits, IsNumber;
    ShortEscape(boardId);
    OkAlwaysFitsIff(boardId, literal);
  }

  lemma {:induction false} LongEscape(s: string)
    requires forall k :: 0 <= k < |s| ==> s[k] as int == 1
    ensures |Escape(s, Lower)| == 6 * |s|
  {
    if s != "" {
      LongEscape(s[..|s| - 1]);
    }
  }

  /** 48 control characters, as a board id may be. */
  function ControlId(): (boardId: cstring)
    ensures |boardId| == Limits.MAX_BOARD_ID_BYTES && forall k :: 0 <= k < |boardId| ==> boardId[k] as int == 1
  {
    seq(Limits.MAX_BOARD_ID_BYTES, i => 1 as char)
  }

  /** Without that it is enough exactly when the controller's time is shorter than 19 characters. */
  lemma ControlIdFitsIff(literal: number)
    requires |literal| < Limits.MAX_DOUBLE_LITERAL_BYTES
    ensures OkAlwaysFits(ControlId(), literal) <==> |literal| < 19
  {
    hide OkAlwaysFits, IsNumber, Escape, ControlId;
    LongEscape(ControlId());
    OkAlwaysFitsIff(ControlId(), literal);
  }

  /** A time of 17 significant digits, as the C library prints one for a round trip. */
  const A_LONG_TIME: string := "-1.2345678901234567"

  lemma ALongTimeIsANumber()
    ensures IsNumber(A_LONG_TIME) && |A_LONG_TIME| == 19
  {
    AllDigitsRun(A_LONG_TIME[3..]);
    assert A_LONG_TIME[1..][1..][1..] == A_LONG_TIME[3..];
    assert A_LONG_TIME[3..][|A_LONG_TIME[3..]|..] == "";
    assert DigitRun(A_LONG_TIME[2..]) == 0;
    assert A_LONG_TIME[1..][1..] == A_LONG_TIME[2..];
    assert DigitRun(A_LONG_TIME[1..]) == 1;
  }

  /** So there is a command whose response does not fit around some payload its handler may produce. */
  lemma ControlIdCanOverflow()
    ensures IsNumber(A_LONG_TIME) && !OkAlwaysFits(ControlId(), A_LONG_TIME)
  {
    hide OkAlwaysFits, ControlId, IsNumber;
    ALongTimeIsANumber();
    ControlIdFitsIff(A_LONG_TIME);
  }

  // ---------------------------------------------------------------------------------------
  // What they say.

  lemma ProcQuoted()
    ensures EMPTY_PROC_LABEL == "{" + (Quote(PROC_NAME, Upper) + ":") && PROC_LABEL == "," + (Quote(PROC_NAME, Upper) + ":")
  {
    hide Escape;
    assert IsPlain(PROC_NAME);
    PlainEscape(PROC_NAME, Upper);
    assert Quote(PROC_NAME, Upper) == "\"board_proc_us\"";
  }

  lemma MembersText(m: Members)
    ensures PrintMembers(m) == "" <==> m.Empty?
  {
  }

  /** Splicing the processing time into the closed text of an object gives the text of the object with that one more member. */
  lemma InjectedIsOneMoreMember(m: Members, us: uint64)
    requires WellFormedMembers(m)
    ensures IsObjectText(Print(Object(m)))
    ensures var n := Snoc(m, PROC_NAME, Literal(Decimal(us)));
            && Injected(Print(Object(m)), us) == Print(Object(n)) && WellFormedMembers(n)
            && ParseDocument(Injected(Print(Object(m)), us)) == Some(Object(n))
  {
    hide Decimal, Quote;
    var n := Snoc(m, PROC_NAME, Literal(Decimal(us)));
    ProcQuoted();
    MembersText(m);
    DecimalIsNumber(us);
    InjectedText(m, us);
    assert Print(Object(n)) + "" == Print(Object(n));
    ParsePrint(Object(n), "");
  }

  lemma InjectedText(m: Members, us: uint64)
    requires PrintMembers(m) == "" <==> m.Empty?
    requires EMPTY_PROC_LABEL == "{" + (Quote(PROC_NAME, Upper) + ":") && PROC_LABEL == "," + (Quote(PROC_NAME, Upper) + ":")
    ensures IsObjectText(Print(Object(m)))
    ensures Injected(Print(Object(m)), us) == Print(Object(Snoc(m, PROC_NAME, Literal(Decimal(us)))))
  {
    hide Decimal, Quote, PrintMembers;
    Spliced(PrintMembers(m), Quote(PROC_NAME, Upper) + ":", Decimal(us));
    SnocText(m, PROC_NAME, Decimal(us));
  }

  lemma SnocText(m: Members, name: string, t: string)
    ensures Print(Object(Snoc(m, name, Literal(t)))) == "{" + (PrintMembers(m) + (Separator(m) + (Quote(name, Upper) + ":" + t))) + "}"
  {
    hide Quote;
    assert Print(Literal(t)) == t;
    assert PrintMembers(Snoc(m, name, Literal(t))) == PrintMembers(m) + (Separator(m) + Member(name, t));
  }

  lemma Spliced(inside: string, name: string, digits: string)
    ensures var text := "{" + inside + "}";
            && IsObjectText(text) && (|text| == 2 <==> inside == "") && text[..|text| - 1] == "{" + inside
            && ("{" + name) + digits + "}" == "{" + ("" + ("" + (name + digits))) + "}"
            && ("{" + inside) + (("," + name) + digits) + "}" == "{" + (inside + ("," + (name + digits))) + "}"
  {
  }

  lemma DigitsPrintable(n: nat)
    ensures Printable(Decimal(n))
  {
    DecimalIsNumber(n);
    LiteralTokens(Decimal(n));
  }

  lemma HeadLabelsPrintable()
    ensures Printable(SEQ_LABEL) && Printable(CONTROLLER_TS_LABEL) && Printable(TIMESTAMP_LABEL)
  {
  }

  lemma AddressLabelsPrintable()
    ensures Printable(SOURCE_LABEL) && Printable(STATUS_LABEL)
  {
  }

  lemma ResultLabelsPrintable()
    ensures Printable(RESULT_LABEL) && OK_END[14] == '\n' && Printable(OK_END[..14])
  {
  }

  lemma ErrorLabelsPrintable()
    ensures Printable(CODE_LABEL) && Printable(MESSAGE_LABEL) && ERROR_END[2] == '\n' && Printable(ERROR_END[..2])
  {
  }

  lemma PrefixPrintable(o: Origin, status: cstring)
    ensures Printable(PrefixText(o, status))
  {
    hide Decimal, Quote, Printable, IsNumber;
    HeadLabelsPrintable();
    AddressLabelsPrintable();
    DigitsPrintable(o.seq_);
    DigitsPrintable(o.timestamp);
    LiteralTokens(o.literal);
    EscapePrintable(o.boardId, Lower);
    EscapePrintable(status, Lower);
    JoinPrintable(SEQ_LABEL, Decimal(o.seq_));
    JoinPrintable(CONTROLLER_TS_LABEL, o.literal);
    JoinPrintable(TIMESTAMP_LABEL, Decimal(o.timestamp));
    JoinPrintable(SEQ_LABEL + Decimal(o.seq_), CONTROLLER_TS_LABEL + o.literal);
    JoinPrintable((SEQ_LABEL + Decimal(o.seq_)) + (CONTROLLER_TS_LABEL + o.literal), TIMESTAMP_LABEL + Decimal(o.timestamp));
    JoinPrintable(SOURCE_LABEL, Quote(o.boardId, Lower));
    JoinPrintable(STATUS_LABEL, Quote(status, Lower));
    JoinPrintable(SOURCE_LABEL + Quote(o.boardId, Lower), STATUS_LABEL + Quote(status, Lower));
    JoinPrintable(HeadText(o), AddressText(o, status));
  }

  /** One line: nothing below a space but the newline that ends it. */
  predicate IsOneLine(line: string) {
    0 < |line| <= Limits.BOARD_TX_MAX_LINE_BYTES && line[|line| - 1] == '\n' && Printable(line[..|line| - 1])
  }

  lemma EndsTheLine(front: string, end: string)
    requires Printable(front) && end != "" && end[|end| - 1] == '\n' && Printable(end[..|end| - 1])
    requires |front + end| <= ROOM
    ensures IsOneLine(front + end)
  {
    assert (front + end)[..|front + end| - 1] == front + end[..|end| - 1];
  }

  /** The response to a handler that succeeded is one line carrying the handler's members and the processing time. */
  lemma OkLineIsOneLine(o: Origin, m: Members, us: uint64)
    requires WellFormedMembers(m) && IsObjectText(Print(Object(m))) && OkLine(o, Print(Object(m)), us).Some?
    ensures IsOneLine(OkLine(o, Print(Object(m)), us).value)
  {
    hide Decimal, Quote, Printable, Print, IsOneLine, PrefixText, Injected;
    var n := Snoc(m, PROC_NAME, Literal(Decimal(us)));
    InjectedIsOneMoreMember(m, us);
    PrintPrintable(Object(n));
    ResultLabelsPrintable();
    LabelLengths();
    PrefixPrintable(o, OK_STATUS);
    var body := RESULT_LABEL + Injected(Print(Object(m)), us);
    JoinPrintable(RESULT_LABEL, Injected(Print(Object(m)), us));
    JoinPrintable(PrefixText(o, OK_STATUS), body);
    Assoc(PrefixText(o, OK_STATUS), body, OK_END);
    EndsTheLine(PrefixText(o, OK_STATUS) + body, OK_END);
  }

  lemma ErrorLength(o: Origin, code: cstring, message: cstring)
    ensures |ErrorText(o, code, message)| == 151 + Variable(o) + |Quote(code, Lower)| + |Quote(message, Lower)|
  {
    hide Decimal, Escape, PrefixText;
    LabelLengths();
    StatusLengths();
    PrefixLength(o, ERROR_STATUS);
  }

  /** Every error line fits, whatever the board id, the message or the time. */
  lemma ErrorLineAlwaysFits(o: Origin, code: cstring, message: cstring)
    requires |o.boardId| <= Limits.MAX_BOARD_ID_BYTES && LiteralFits(o)
    requires |code| <= 16 && |message| <= Limits.MAX_ERROR_MESSAGE_BYTES
    ensures ErrorLine(o, code, message).Some? && IsOneLine(ErrorLine(o, code, message).value)
  {
    hide Decimal, Printable, IsOneLine, PrefixText, Escape, IsNumber;
    ErrorLength(o, code, message);
    DigitsOf(o, 0);
    EscapePrintable(o.boardId, Lower);
    EscapePrintable(code, Lower);
    EscapePrintable(message, Lower);
    ErrorLabelsPrintable();
    LabelLengths();
    PrefixPrintable(o, ERROR_STATUS);
    var body := (CODE_LABEL + Quote(code, Lower)) + (MESSAGE_LABEL + Quote(message, Lower));
    JoinPrintable(CODE_LABEL, Quote(code, Lower));
    JoinPrintable(MESSAGE_LABEL, Quote(message, Lower));
    JoinPrintable(CODE_LABEL + Quote(code, Lower), MESSAGE_LABEL + Quote(message, Lower));
    JoinPrintable(PrefixText(o, ERROR_STATUS), body);
    Assoc(PrefixText(o, ERROR_STATUS), body, ERROR_END);
    EndsTheLine(PrefixText(o, ERROR_STATUS) + body, ERROR_END);
  }

  // ---------------------------------------------------------------------------------------
  // One response for every command.

  function CodeText(code: BoardErrorCode): cstring {
    match code
    case MissingField => "MISSING_FIELD"
    case InvalidType => "INVALID_TYPE"
    case UnknownCommand => "UNKNOWN_COMMAND"
    case InvalidArgument => "INVALID_ARGUMENT"
    case InternalError => "INTERNAL_ERROR"
    case EstopActive => "ESTOP_ACTIVE"
  }

  const TOO_LONG: cstring := "error message exceeds fixed capacity"
  const UNKNOWN_COMMAND: cstring := "unknown command"
  const OVERFLOW: cstring := "response exceeded fixed capacity"

  /** A handler's message as its result keeps it. */
  function MessageOf(message: Option<cstring>): cstring {
    if message.None? then "" else if |message.value| > Limits.MAX_ERROR_MESSAGE_BYTES then TOO_LONG else message.value
  }

  /** What a handler returned, and the payload as it left it. */
  datatype Handled = Handled(ok: bool, code: BoardErrorCode, message: Option<cstring>, payload: Payload)

  /** What is counted of a command besides its response. */
  datatype Fault = NoFault | UnknownName | BadArgument

  datatype Response = Response(ok: bool, line: Option<string>, fault: Fault)

  function Faulted(c: Values, fault: Fault): Values {
    match fault
    case NoFault => c
    case UnknownName => c.(unknownCommands := c.unknownCommands + 1)
    case BadArgument => c.(invalidArguments := c.invalidArguments + 1)
  }

  function FaultOf(code: BoardErrorCode): Fault {
    if code.InvalidArgument? then BadArgument else NoFault
  }

  function Refusal(o: Origin, fault: Fault, code: BoardErrorCode, message: cstring): (r: Response)
    ensures !r.ok && r.fault == fault
  {
    Response(false, ErrorLine(o, CodeText(code), message), fault)
  }

  /** The line around a closed payload, or the error in its place. */
  function Enveloped(o: Origin, payload: string, us: uint64, later: uint64): Response {
    match OkLineAround(o, payload, us)
    case None => Refusal(o.(timestamp := later), NoFault, InternalError, OVERFLOW)
    case Some(line) => Response(true, Some(line), NoFault)
  }

  /** The handler succeeded. A payload that refused anything, or does not fit, becomes an internal error. */
  function Success(o: Origin, p: Payload, us: uint64, later: uint64): Response {
    if IsSpoiled(p) then Refusal(o, NoFault, InternalError, OVERFLOW) else Enveloped(o, Closed(p).w.text, us, later)
  }

  predicate IsSpoiled(p: Payload) {
    p.w.failed || !Closed(p).closed || Closed(p).w.failed
  }

  /** The response to a command; `later` is the time at which a second line would be built. */
  function Respond(commands: seq<Registry.Command>, o: Origin, name: Option<cstring>, args: seq<Arg>,
                   h: Handled, us: uint64, later: uint64): Response
  {
    match Registry.Find(commands, name)
    case None => Refusal(o, UnknownName, UnknownCommand, UNKNOWN_COMMAND)
    case Some(i) =>
      match Verdict(commands[i].args, args)
      case Some(p) => Refusal(o, FaultOf(p.code), p.code, p.message)
      case None => if h.ok then Success(o, h.payload, us, later) else Refusal(o, FaultOf(h.code), h.code, MessageOf(h.message))
  }

  lemma CodeLengths(code: BoardErrorCode)
    ensures |CodeText(code)| <= 16
  {
  }

  lemma MessageLengths(message: Option<cstring>)
    ensures |MessageOf(message)| <= Limits.MAX_ERROR_MESSAGE_BYTES
    ensures |UNKNOWN_COMMAND| <= Limits.MAX_ERROR_MESSAGE_BYTES && |OVERFLOW| <= Limits.MAX_ERROR_MESSAGE_BYTES
  {
    assert |TOO_LONG| == 36;
  }

  lemma ProblemLengths(specs: seq<Registry.Named>, args: seq<Arg>)
    ensures Verdict(specs, args).Some? ==> |Verdict(specs, args).value.message| <= Limits.MAX_ERROR_MESSAGE_BYTES
    ensures Verdict(specs, args).Some? ==> Verdict(specs, args).value in {MISSING_ARGUMENT, INVALID_TYPE, NOT_DECLARED}
  {
    FirstProblemIsFirst(specs, args);
    assert |MISSING_ARGUMENT.message| == 25 && |INVALID_TYPE.message| == 25 && |NOT_DECLARED.message| == 24;
  }

  lemma RefusalIsBuilt(o: Origin, fault: Fault, code: BoardErrorCode, message: cstring)
    requires |o.boardId| <= Limits.MAX_BOARD_ID_BYTES && LiteralFits(o) && |message| <= Limits.MAX_ERROR_MESSAGE_BYTES
    ensures Refusal(o, fault, code, message).line.Some? && IsOneLine(Refusal(o, fault, code, message).line.value)
  {
    hide ErrorLine, CodeText;
    CodeLengths(code);
    ErrorLineAlwaysFits(o, CodeText(code), message);
  }

  /**
   Whatever the command, its arguments, the handler's verdict and the payload, there is exactly one
   response, it is one line, and it fits; it reports success exactly when the command is
   registered, its arguments conform, the handler succeeded and no addition to the payload failed,
   provided the full line fits.
   */
  lemma AlwaysAnswers(commands: seq<Registry.Command>, o: Origin, name: Option<cstring>, args: seq<Arg>,
                      h: Handled, uses: seq<Use>, us: uint64, later: uint64)
    requires |o.boardId| <= Limits.MAX_BOARD_ID_BYTES && LiteralFits(o)
    requires AreUses(uses) && h.payload == Filled(uses)
    ensures var r := Respond(commands, o, name, args, h, us, later);
            && r.line.Some? && IsOneLine(r.line.value)
            && (r.ok <==> && Registry.Find(commands, name).Some?
                          && Conforms(commands[Registry.Find(commands, name).value].args, args)
                          && h.ok && !h.payload.w.failed && OkLine(o, ClosedTextOf(uses), us).Some?)
            && (r.ok ==> r.line == OkLine(o, Print(Object(Accepted(uses))), us))
            && (r.fault.UnknownName? <==> Registry.Find(commands, name).None?)
  {
    hide Filled, Accepted, Closed, OkLine, ErrorLine, IsOneLine, FirstProblem, HasExtra, Conforms, CodeText;
    MessageLengths(h.message);
    RefusalIsBuilt(o, UnknownName, UnknownCommand, UNKNOWN_COMMAND);
    RefusalIsBuilt(o, NoFault, InternalError, OVERFLOW);
    RefusalIsBuilt(o.(timestamp := later), NoFault, InternalError, OVERFLOW);
    RefusalIsBuilt(o, FaultOf(h.code), h.code, MessageOf(h.message));
    PayloadAlwaysCloses(uses);
    FilledHolds(uses);
    ClosingKeepsTheFlag(h.payload, Accepted(uses));
    if Registry.Find(commands, name).Some? {
      var specs := commands[Registry.Find(commands, name).value].args;
      AcceptedIffConforms(specs, args);
      ProblemLengths(specs, args);
      if Verdict(specs, args).Some? {
        RefusalIsBuilt(o, FaultOf(Verdict(specs, args).value.code), Verdict(specs, args).value.code, Verdict(specs, args).value.message);
      } else if OkLine(o, ClosedTextOf(uses), us).Some? {
        OkLineIsOneLine(o, Accepted(uses), us);
      }
    }
  }

  lemma ClosingKeepsTheFlag(p: Payload, m: Members)
    requires Holds(p, m)
    ensures Closed(p).w.failed == p.w.failed
  {
    hide Print, PrintMembers;
    CloseSucceeds(p, m);
  }

  // ---------------------------------------------------------------------------------------
  // The dispatcher.

  /**
   What clock and handler answered while a command was dispatched. The times are true times; `us` is
   what the response says the command took.
   */
  datatype Course = Course(now: nat, us: uint64, later: nat, answer: Answer, uses: script)

  function OriginOf(command: Command, boardId: cstring, now: nat): Origin {
    Origin(command.seq_, command.literal, now % TWO_64, boardId)
  }

  /** The response to a command in a given course. */
  function ResponseTo(commands: seq<Registry.Command>, boardId: cstring, command: Command, x: Course): Response {
    Respond(commands, OriginOf(command, boardId, x.now), command.name, command.args,
            Handled(x.answer.ok, x.answer.code, x.answer.message, Filled(x.uses)), x.us, x.later % TWO_64)
  }

  /** The handler runs only for a registered command whose arguments conform. */
  predicate Reaches(commands: seq<Registry.Command>, command: Command) {
    && Registry.Find(commands, command.name).Some?
    && Verdict(commands[Registry.Find(commands, command.name).value].args, command.args).None?
  }

  /** What the application was asked. */
  function HandlerFacts(commands: seq<Registry.Command>, command: Command, x: Course, reasons: seq<reason>): seq<Fact> {
    if Reaches(commands, command) then [HandlerRan(command, x.answer, x.uses, reasons)] else []
  }

  class CommandDispatcher {
    const counters: Counters
    const registry: Registry.CommandRegistry
    const scheduler: OutboundScheduler
    const boardId: cstring
    const clock: Platform.Clock
    const application: Application
    const line: LineBuffer

    ghost predicate Valid()
      reads this, line, line.bytes
    {
      line.Valid()
    }

    constructor (counters: Counters, registry: Registry.CommandRegistry, boardId: cstring, clock: Platform.Clock,
                 application: Application, scheduler: OutboundScheduler)
      ensures Valid() && fresh(line) && fresh(line.bytes)
      ensures this.counters == counters && this.registry == registry && this.scheduler == scheduler
              && this.boardId == boardId && this.clock == clock && this.application == application
    {
      this.counters, this.registry, this.scheduler, this.boardId, this.clock := counters, registry, scheduler, boardId, clock;
      this.application := application;
      line := new LineBuffer();
    }

    method AppendHead(o: Origin) returns (ok: bool)
      requires Valid() && line.Text() == ""
      modifies line, line.bytes
      ensures Valid()
      ensures ok <==> LiteralFits(o) && |HeadText(o)| <= ROOM
      ensures ok ==> line.Text() == HeadText(o)
    {
      hide NumberText, Decimal, IsNumber;
      ok := AppendNumbers(o);
      if !ok { return; }
      ok := line.AppendUInt64(TIMESTAMP_LABEL, o.timestamp);
    }

    method AppendNumbers(o: Origin) returns (ok: bool)
      requires Valid() && line.Text() == ""
      modifies line, line.bytes
      ensures Valid()
      ensures ok <==> LiteralFits(o) && |NumberText(o)| <= ROOM
      ensures ok ==> line.Text() == NumberText(o)
    {
      hide Decimal, IsNumber;
      ok := line.AppendUInt64(SEQ_LABEL, o.seq_);
      if !ok { return; }
      if |o.literal| >= Limits.MAX_DOUBLE_LITERAL_BYTES {
        return false;
      }
      ok := line.AppendPair(CONTROLLER_TS_LABEL, o.literal);
    }

    method AppendAddress(o: Origin, status: cstring) returns (ok: bool)
      requires Valid()
      modifies line, line.bytes
      ensures Valid()
      ensures ok <==> |old(line.Text())| + |AddressText(o, status)| <= ROOM
      ensures ok ==> line.Text() == old(line.Text()) + AddressText(o, status)
    {
      hide Quote;
      ghost var start := line.Text();
      ok := line.AppendBytes(SOURCE_LABEL);
      if !ok { return; }
      ok := line.AppendEscapedString(o.boardId, Lower);
      if !ok { return; }
      Assoc(start, SOURCE_LABEL, Quote(o.boardId, Lower));
      ghost var middle := line.Text();
      ok := line.AppendBytes(STATUS_LABEL);
      if !ok { return; }
      ok := line.AppendEscapedString(status, Lower);
      Assoc(middle, STATUS_LABEL, Quote(status, Lower));
      Assoc(start, SOURCE_LABEL + Quote(o.boardId, Lower), STATUS_LABEL + Quote(status, Lower));
    }

    method AppendEnvelopePrefix(o: Origin, status: cstring) returns (ok: bool)
      requires Valid() && line.Text() == ""
      modifies line, line.bytes
      ensures Valid()
      ensures ok <==> LiteralFits(o) && |PrefixText(o, status)| <= ROOM
      ensures ok ==> line.Text() == PrefixText(o, status)
    {
      hide HeadText, AddressText;
      ok := AppendHead(o);
      if !ok { return; }
      ok := AppendAddress(o, status);
    }

    method AppendResultWithBoardProcUs(payload: string, us: uint64) returns (ok: bool)
      requires Valid()
      modifies line, line.bytes
      ensures Valid()
      ensures ok <==> IsObjectText(payload) && |old(line.Text())| + |Injected(payload, us)| <= ROOM
      ensures ok ==> line.Text() == old(line.Text()) + Injected(payload, us)
    {
      hide Decimal;
      if |payload| < 2 || payload[0] != '{' || payload[|payload| - 1] != '}' {
        return false;
      }
      ghost var start := line.Text();
      if |payload| == 2 {
        ok := line.AppendUInt64(EMPTY_PROC_LABEL, us);
        if !ok { return; }
        Assoc(start, EMPTY_PROC_LABEL + Decimal(us), "}");
        ok := line.AppendBytes("}");
        return;
      }
      ghost var head := payload[..|payload| - 1];
      ok := line.AppendBytes(payload[..|payload| - 1]);
      if !ok { return; }
      ok := line.AppendUInt64(PROC_LABEL, us);
      if !ok { return; }
      Assoc(start, head, PROC_LABEL + Decimal(us));
      Assoc(start, head + (PROC_LABEL + Decimal(us)), "}");
      ok := line.AppendBytes("}");
    }

    method BuildOkLine(o: Origin, payload: string, us: uint64) returns (ok: bool)
      requires Valid()
      modifies line, line.bytes
      ensures Valid()
      ensures ok <==> OkLineAround(o, payload, us).Some?
      ensures ok ==> OkLineAround(o, payload, us) == Some(line.Text())
    {
      hide PrefixText, Injected, IsNumber;
      line.Reset();
      ok := AppendEnvelopePrefix(o, OK_STATUS);
      if !ok { return; }
      ghost var start := line.Text();
      ok := line.AppendBytes(RESULT_LABEL);
      if !ok { return; }
      ok := AppendResultWithBoardProcUs(payload, us);
      if !ok { return; }
      Assoc(start, RESULT_LABEL, Injected(payload, us));
      Assoc(start, RESULT_LABEL + Injected(payload, us), OK_END);
      ok := line.AppendBytes(OK_END);
    }

    method BuildErrorLine(o: Origin, code: cstring, message: cstring) returns (ok: bool)
      requires Valid()
      modifies line, line.bytes
      ensures Valid()
      ensures ok <==> ErrorLine(o, code, message).Some?
      ensures ok ==> line.Text() == ErrorText(o, code, message)
    {
      hide PrefixText, Quote, IsNumber;
      line.Reset();
      ok := AppendEnvelopePrefix(o, ERROR_STATUS);
      if !ok { return; }
      ghost var start := line.Text();
      ok := line.AppendBytes(CODE_LABEL);
      if !ok { return; }
      ok := line.AppendEscapedString(code, Lower);
      if !ok { return; }
      Assoc(start, CODE_LABEL, Quote(code, Lower));
      ok := AppendMessage(start, CODE_LABEL + Quote(code, Lower), message);
    }

    method AppendMessage(ghost start: string, ghost done: string, message: cstring) returns (ok: bool)
      requires Valid() && line.Text() == start + done
      modifies line, line.bytes
      ensures Valid()
      ensures var text := done + (MESSAGE_LABEL + Quote(message, Lower)) + ERROR_END;
              && (ok <==> |start + text| <= ROOM) && (ok ==> line.Text() == start + text)
    {
      hide Quote;
      ok := line.AppendBytes(MESSAGE_LABEL);
      if !ok { return; }
      ok := line.AppendEscapedString(message, Lower);
      if !ok { return; }
      Assoc(start + done, MESSAGE_LABEL, Quote(message, Lower));
      Assoc(start, done, MESSAGE_LABEL + Quote(message, Lower));
      Assoc(start, done + (MESSAGE_LABEL + Quote(message, Lower)), ERROR_END);
      ok := line.AppendBytes(ERROR_END);
    }

    /** The line in the buffer, if it was built, is queued and counted; otherwise the session has to end. */
    method EnqueueBuilt(built: bool, success: bool) returns (teardown: bool)
      requires Valid() && scheduler.Valid()
      modifies counters, scheduler, scheduler.critical
      ensures Valid() && scheduler.Valid()
      ensures Answered(old(scheduler.Model()), scheduler.Model(), old(counters.values), counters.values, teardown,
                       Response(success, if built then Some(line.Text()) else None, NoFault))
    {
      hide Enqueued, EnqueueResultOf, OutboundScheduler.Valid, OutboundScheduler.Model;
      if !built {
        return true;
      }
      var result := scheduler.EnqueueCritical(CommandResponse, line.bytes[..line.size]);
      if result != Queued {
        return true;
      }
      var c := counters.values;
      counters.values := if success then c.(commandsOk := c.commandsOk + 1) else c.(commandsError := c.commandsError + 1);
      return false;
    }

    /** One error line, whatever was counted before it. */
    method EnqueueError(o: Origin, ghost fault: Fault, code: BoardErrorCode, message: cstring) returns (teardown: bool)
      requires Valid() && scheduler.Valid()
      modifies counters, scheduler, scheduler.critical, line, line.bytes
      ensures Valid() && scheduler.Valid()
      ensures Answered(old(scheduler.Model()), scheduler.Model(), old(counters.values), counters.values, teardown,
                       Refusal(o, fault, code, message))
    {
      hide ErrorText, CodeText, Enqueued, EnqueueResultOf, OutboundScheduler.Valid, OutboundScheduler.Model;
      var built := BuildErrorLine(o, CodeText(code), message);
      teardown := EnqueueBuilt(built, false);
    }

    /** The same at the time of now. */
    method Refuse(command: Command, ghost fault: Fault, code: BoardErrorCode, message: cstring) returns (teardown: bool, ghost now: nat)
      requires Valid() && scheduler.Valid()
      modifies counters, clock, scheduler, scheduler.critical, line, line.bytes
      ensures Valid() && scheduler.Valid()
      ensures old(clock.ticks) <= now <= clock.ticks && clock.micros == old(clock.micros)
      ensures Answered(old(scheduler.Model()), scheduler.Model(), old(counters.values), counters.values, teardown,
                       Refusal(OriginOf(command, boardId, now), fault, code, message))
    {
      hide Answered, Refusal, OutboundScheduler.Valid, OutboundScheduler.Model, LineBuffer.Valid, LineBuffer.Text;
      var at := clock.MonotonicMilliseconds();
      now := clock.ticks;
      teardown := EnqueueError(Origin(command.seq_, command.literal, at, boardId), fault, code, message);
    }

    method Count(fault: Fault)
      modifies counters
      ensures counters.values == Faulted(old(counters.values), fault)
    {
      var c := counters.values;
      match fault
      case NoFault =>
      case UnknownName => counters.values := c.(unknownCommands := c.unknownCommands + 1);
      case BadArgument => counters.values := c.(invalidArguments := c.invalidArguments + 1);
    }

    /**
     Answers one command: look it up, check its arguments, run its handler on a fresh payload, and
     queue the one response. The application is asked nothing but to run that handler, and only if
     the command gets that far; `reasons` are the e-stop requests the handler made.
     */
    method Dispatch(command: Command, parsedUs: uint64)
      returns (teardown: bool, reasons: seq<reason>, ghost x: Course)
      requires Valid() && scheduler.Valid() && registry.Valid()
      modifies counters, clock, application, scheduler, scheduler.critical, line, line.bytes
      ensures Valid() && scheduler.Valid()
      ensures old(clock.ticks) <= x.now <= x.later <= clock.ticks
      ensures application.log == old(application.log) + HandlerFacts(old(registry.Model()).commands, command, x, reasons)
      ensures !Reaches(old(registry.Model()).commands, command) ==> reasons == []
      ensures var c, r := old(counters.values), ResponseTo(old(registry.Model()).commands, boardId, command, x);
              && Answered(old(scheduler.Model()), scheduler.Model(), Faulted(c.(commandsReceived := c.commandsReceived + 1), r.fault),
                          counters.values, teardown, r)
              && Timed(old(clock.micros), clock.micros, parsedUs, x.us, r)
    {
      hide Answered, OutboundScheduler.Valid, OutboundScheduler.Model, LineBuffer.Valid, LineBuffer.Text, Verdict, Refusal,
           Success, IsNumber, Registry.Find, Filled, Faulted;
      reasons, x := [], Course(clock.ticks, 0, clock.ticks, Answer(false, InternalError, None), []);
      counters.values := counters.values.(commandsReceived := counters.values.commandsReceived + 1);
      var index := registry.FindCommand(command.name);
      if index == None {
        Count(UnknownName);
        ghost var now;
        teardown, now := Refuse(command, UnknownName, UnknownCommand, UNKNOWN_COMMAND);
        x := x.(now := now, later := now);
        return;
      }
      var problem := ValidateArgs(registry.commands[index.value].args, command.args);
      if problem != None {
        Count(FaultOf(problem.value.code));
        ghost var now;
        teardown, now := Refuse(command, FaultOf(problem.value.code), problem.value.code, problem.value.message);
        x := x.(now := now, later := now);
        return;
      }
      teardown, reasons, x := Handle(command, parsedUs);
    }

    /** The command is known and its arguments conform: its handler runs. */
    method Handle(command: Command, parsedUs: uint64) returns (teardown: bool, reasons: seq<reason>, ghost x: Course)
      requires Valid() && scheduler.Valid()
      modifies counters, clock, application, scheduler, scheduler.critical, line, line.bytes
      ensures Valid() && scheduler.Valid() && old(clock.ticks) <= x.now <= x.later <= clock.ticks
      ensures application.log == old(application.log) + [HandlerRan(command, x.answer, x.uses, reasons)]
      ensures var o := OriginOf(command, boardId, x.now);
              var r := if x.answer.ok then Success(o, Filled(x.uses), x.us, x.later % TWO_64)
                       else Refusal(o, FaultOf(x.answer.code), x.answer.code, MessageOf(x.answer.message));
              && Answered(old(scheduler.Model()), scheduler.Model(), Faulted(old(counters.values), r.fault), counters.values, teardown, r)
              && Timed(old(clock.micros), clock.micros, parsedUs, x.us, r)
    {
      hide Answered, OutboundScheduler.Valid, OutboundScheduler.Model, ObjectWriter.Valid, ObjectWriter.Model,
           LineBuffer.Valid, LineBuffer.Text, Success, IsNumber, Filled, ErrorLine;
      var result := new ObjectWriter();
      var answer;
      ghost var uses;
      answer, reasons, uses := application.RunHandler(command, result);
      if !answer.ok {
        Count(FaultOf(answer.code));
        ghost var now;
        teardown, now := Refuse(command, FaultOf(answer.code), answer.code, MessageOf(answer.message));
        x := Course(now, 0, now, answer, uses);
        return;
      }
      ghost var now, us, later;
      SuccessIsNoFault();
      teardown, now, us, later := AnswerSuccess(command, result, parsedUs);
      x := Course(now, us, later, answer, uses);
    }

    /** The handler succeeded: the closed payload goes out with the time it took, or an internal error in its place. */
    method AnswerSuccess(command: Command, result: ObjectWriter, parsedUs: uint64)
      returns (teardown: bool, ghost now: nat, ghost us: uint64, ghost later: nat)
      requires Valid() && scheduler.Valid() && result.Valid() && line.bytes != result.buffer
      modifies counters, clock, scheduler, scheduler.critical, line, line.bytes, result, result.writer, result.buffer, result.writer.first
      ensures Valid() && scheduler.Valid() && old(clock.ticks) <= now <= later <= clock.ticks
      ensures var r := Success(OriginOf(command, boardId, now), old(result.Model()), us, later % TWO_64);
              && Answered(old(scheduler.Model()), scheduler.Model(), old(counters.values), counters.values, teardown, r)
              && Timed(old(clock.micros), clock.micros, parsedUs, us, r)
    {
      hide Answered, OutboundScheduler.Valid, OutboundScheduler.Model, LineBuffer.Valid, LineBuffer.Text, Refusal,
           IsNumber, Enveloped, Closed;
      var failed := result.writer.failed;
      if !failed {
        var closed := result.Close();
        failed := !closed || result.writer.failed;
      }
      if failed {
        teardown, now := Refuse(command, NoFault, InternalError, OVERFLOW);
        us, later := 0, now;
        return;
      }
      teardown, now, us, later := AnswerPayload(command, result.buffer[..result.writer.length], parsedUs);
    }

    method AnswerPayload(command: Command, payload: string, parsedUs: uint64)
      returns (teardown: bool, ghost now: nat, ghost us: uint64, ghost later: nat)
      requires Valid() && scheduler.Valid()
      modifies counters, clock, scheduler, scheduler.critical, line, line.bytes
      ensures Valid() && scheduler.Valid() && old(clock.ticks) <= now <= later <= clock.ticks
      ensures var r := Enveloped(OriginOf(command, boardId, now), payload, us, later % TWO_64);
              && Answered(old(scheduler.Model()), scheduler.Model(), old(counters.values), counters.values, teardown, r)
              && Timed(old(clock.micros), clock.micros, parsedUs, us, r)
    {
      hide Answered, OutboundScheduler.Valid, OutboundScheduler.Model, LineBuffer.Valid, LineBuffer.Text, Refusal,
           IsNumber, OkLineAround;
      var ready := clock.MonotonicMicroseconds();
      var at := clock.MonotonicMilliseconds();
      now, us, later := clock.ticks, (ready - parsedUs) % TWO_64, clock.ticks;
      var built := BuildOkLine(Origin(command.seq_, command.literal, at, boardId), payload, (ready - parsedUs) % TWO_64);
      if !built {
        teardown, later := Refuse(command, NoFault, InternalError, OVERFLOW);
        return;
      }
      teardown := EnqueueBuilt(true, true);
    }
  }

  /** A success says how long the command took: the second counter was read once, after it was handled. */
  predicate Timed(micros: seq<uint64>, micros': seq<uint64>, parsedUs: uint64, us: uint64, r: Response) {
    r.ok ==> micros <= micros' && |micros'| == |micros| + 1 && us == (micros'[|micros|] - parsedUs) % TWO_64
  }

  lemma SuccessIsNoFault()
    ensures forall o: Origin, p: Payload, us: uint64, later: uint64 :: Success(o, p, us, later).fault == NoFault
  {
    hide Closed, OkLineAround, ErrorLine;
  }

  /** What answering does: the line is queued and counted, or the session has to end. */
  predicate Answered(q: Queue, q': Queue, c: Values, c': Values, teardown: bool, r: Response) {
    match r.line
    case None => q' == q && c' == c && teardown
    case Some(line) =>
      && q' == Enqueued(q, CommandResponse, line)
      && var queued := EnqueueResultOf(q, CommandResponse, line).Queued?;
         && (teardown <==> !queued)
         && c' == if !queued then c
                  else if r.ok then c.(commandsOk := c.commandsOk + 1) else c.(commandsError := c.commandsError + 1)
  }
}
