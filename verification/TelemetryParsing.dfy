/** What a controller reads back from a telemetry line. */
module TelemetryParsing {
  import opened Common
  import opened Json
  import opened JsonWriting
  import opened ResponseParsing
  import opened TelemetryScheduling
  import Dispatching
  import Payloads
  import Limits

  const FRAME: Members := Snoc(Empty, "type", Text("telemetry"))

  function FrameNumbers(seq_: uint64, timestamp: uint64): Members {
    Snoc(Snoc(FRAME, "seq", Literal(Decimal(seq_))), "timestamp", Literal(Decimal(timestamp)))
  }

  function FrameAddress(boardId: cstring, seq_: uint64, timestamp: uint64): Members {
    Snoc(Snoc(FrameNumbers(seq_, timestamp), "source", Text(boardId)), "target", Text("controller"))
  }

  /** The frame as the protocol lays it out: its number, its time, who sent it, and what the provider put into it. */
  function TelemetryTree(boardId: cstring, seq_: uint64, timestamp: uint64, members: Members): Value {
    Object(Snoc(FrameAddress(boardId, seq_, timestamp), "telemetry", Object(members)))
  }

  const FRAME_SEQ := "{\"type\":\"telemetry\",\"seq\":"
  const FRAME_TIMESTAMP := ",\"timestamp\":"
  const FRAME_SOURCE := ",\"source\":"
  const FRAME_TARGET := ",\"target\":\"controller\",\"telemetry\":"

  lemma FrameLabels()
    ensures IsLabel(",\"seq\":", "seq") && IsLabel(FRAME_TIMESTAMP, "timestamp") && IsLabel(FRAME_SOURCE, "source")
    ensures IsLabel(",\"target\":", "target") && IsLabel(",\"telemetry\":", "telemetry")
  {
    hide IsLabel;
    PlainLabel(",\"seq\":", "seq");
    PlainLabel(FRAME_TIMESTAMP, "timestamp");
    PlainLabel(FRAME_SOURCE, "source");
    PlainLabel(",\"target\":", "target");
    PlainLabel(",\"telemetry\":", "telemetry");
  }

  lemma FrameParts()
    ensures FRAME_SEQ == "{\"type\":\"telemetry\"" + ",\"seq\":"
    ensures FRAME_TARGET == (",\"target\":" + "\"controller\"") + ",\"telemetry\":"
  {
  }

  lemma FrameWords()
    ensures Quote("telemetry", Upper) == "\"telemetry\"" && Quote("controller", Upper) == "\"controller\""
  {
    hide Escape;
    Dispatching.PlainEscape("telemetry", Upper);
    Dispatching.PlainEscape("controller", Upper);
  }

  lemma FrameText()
    ensures OpenText(FRAME) == "{\"type\":\"telemetry\""
  {
    hide Quote;
    TypeQuoted();
    FrameWords();
    assert PrintMembers(FRAME) == "" + ("" + Member("type", Print(Text("telemetry"))));
  }

  lemma PrintText(s: string)
    ensures Print(Text(s)) == Quote(s, Upper)
  {
  }

  lemma NumbersPrinted(seq_: uint64, timestamp: uint64)
    ensures OpenText(FrameNumbers(seq_, timestamp)) == NumbersText(seq_, timestamp)
  {
    hide OpenText, Decimal, IsLabel;
    FrameText();
    FrameLabels();
    FrameParts();
    PrintLiteral(Decimal(seq_));
    PrintLiteral(Decimal(timestamp));
    Labeled(FRAME, "seq", Literal(Decimal(seq_)), ",\"seq\":");
    Assoc(OpenText(FRAME), ",\"seq\":", Decimal(seq_));
    Labeled(Snoc(FRAME, "seq", Literal(Decimal(seq_))), "timestamp", Literal(Decimal(timestamp)), FRAME_TIMESTAMP);
  }

  lemma PrefixPrinted(boardId: cstring, seq_: uint64, timestamp: uint64)
    ensures OpenText(FrameAddress(boardId, seq_, timestamp)) + ",\"telemetry\":" == TelemetryPrefix(seq_, timestamp, boardId)
  {
    hide OpenText, Decimal, IsLabel, Quote, NumbersText;
    NumbersPrinted(seq_, timestamp);
    FrameLabels();
    FrameParts();
    FrameWords();
    PrintText(boardId);
    PrintText("controller");
    var n := FrameNumbers(seq_, timestamp);
    Labeled(n, "source", Text(boardId), FRAME_SOURCE);
    Labeled(Snoc(n, "source", Text(boardId)), "target", Text("controller"), ",\"target\":");
    var head, id, target := OpenText(n), FRAME_SOURCE + Quote(boardId, Upper), ",\"target\":" + "\"controller\"";
    Assoc(head, id, target);
    Assoc(head, id + target, ",\"telemetry\":");
    Assoc(id, target, ",\"telemetry\":");
  }

  lemma FramePrinted(boardId: cstring, seq_: uint64, timestamp: uint64, m: Members)
    ensures Print(TelemetryTree(boardId, seq_, timestamp, m)) + "\n" == TelemetryText(seq_, timestamp, boardId, Print(Object(m)))
  {
    hide OpenText, IsLabel, Quote, TelemetryPrefix, FrameAddress, PrintMembers;
    PrefixPrinted(boardId, seq_, timestamp);
    FrameLabels();
    var address := FrameAddress(boardId, seq_, timestamp);
    AddressIsNotEmpty(boardId, seq_, timestamp);
    Labeled(address, "telemetry", Object(m), ",\"telemetry\":");
    Assoc(OpenText(address), ",\"telemetry\":", Print(Object(m)));
    Closes(Snoc(address, "telemetry", Object(m)));
    Assoc(OpenText(Snoc(address, "telemetry", Object(m))), "}", "\n");
  }

  lemma AddressIsNotEmpty(boardId: cstring, seq_: uint64, timestamp: uint64)
    ensures !FrameAddress(boardId, seq_, timestamp).Empty?
  {
  }

  lemma Closes(m: Members)
    ensures Print(Object(m)) == OpenText(m) + "}" && "}" + "\n" == "}\n"
  {
  }

  lemma FrameWellFormed(boardId: cstring, seq_: uint64, timestamp: uint64, m: Members)
    requires WellFormedMembers(m)
    ensures WellFormed(TelemetryTree(boardId, seq_, timestamp, m))
  {
    DecimalIsNumber(seq_);
    DecimalIsNumber(timestamp);
    SnocWellFormed(FRAME, "seq", Literal(Decimal(seq_)));
    SnocWellFormed(Snoc(FRAME, "seq", Literal(Decimal(seq_))), "timestamp", Literal(Decimal(timestamp)));
    var n := FrameNumbers(seq_, timestamp);
    SnocWellFormed(n, "source", Text(boardId));
    SnocWellFormed(Snoc(n, "source", Text(boardId)), "target", Text("controller"));
    SnocWellFormed(FrameAddress(boardId, seq_, timestamp), "telemetry", Object(m));
  }

  /**
   Whatever a provider did to its payload, the frame is there for every 48-byte id, and says its
   number, its time and exactly the members that were accepted.
   */
  lemma TelemetryLineParses(seq_: uint64, timestamp: uint64, boardId: cstring, uses: seq<Payloads.Use>)
    requires |boardId| <= Limits.MAX_BOARD_ID_BYTES && Payloads.AreUses(uses)
    ensures var l := TelemetryLine(seq_, timestamp, boardId, Payloads.Closed(Payloads.Filled(uses)).w.text);
            l.Some? && ParseDocument(l.value) == Some(TelemetryTree(boardId, seq_, timestamp, Payloads.Accepted(uses)))
  {
    hide Payloads.Filled, Payloads.Closed, Payloads.Accepted, TelemetryText, FrameAddress, WellFormed, WellFormedMembers, Print;
    var m := Payloads.Accepted(uses);
    TelemetryAlwaysFits(seq_, timestamp, boardId, uses);
    Payloads.PayloadAlwaysCloses(uses);
    FramePrinted(boardId, seq_, timestamp, m);
    FrameWellFormed(boardId, seq_, timestamp, m);
    ParsePrint(TelemetryTree(boardId, seq_, timestamp, m), "\n");
  }
}
