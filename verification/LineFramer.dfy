/**
 The bounded line framer: one buffer for the line being consumed, one that is both the
 accumulator and the slot of the next complete line. It is specified by small functions on a
 value, and those are related to a splitter that knows nothing about buffers.
 */
module LineFraming {
  import opened Common
  import Limits
  import opened CounterBank

  const MAX_PAYLOAD_BYTES: nat := Limits.BOARD_RX_MAX_LINE_BYTES - 1

  // ---------------------------------------------------------------------------------------
  // The framer as a value.

  datatype Framer = Framer(
    active: Option<string>,   // the line offered to, or held by, the consumer
    acquired: bool,           // the consumer holds it
    pending: Option<string>,  // the next complete line
    partial: string,          // bytes of the line still being received
    discarding: bool)         // inside an oversized line

  const EMPTY := Framer(None, false, None, "", false)

  predicate WellFormed(f: Framer) {
    && (f.acquired ==> f.active.Some?)
    && (f.pending.Some? ==> f.active.Some? && f.partial == "" && !f.discarding)
    && (f.discarding ==> f.partial == "")
    && |f.partial| <= MAX_PAYLOAD_BYTES
  }

  function Promote(f: Framer): Framer {
    if f.pending.Some? && f.active.None? then f.(active := f.pending, pending := None) else f
  }

  function FeedByte(f: Framer, c: char): Framer {
    if f.discarding then f.(discarding := c != '\n')
    else if c == '\n' then Promote(f.(pending := Some(f.partial), partial := ""))
    else if |f.partial| == MAX_PAYLOAD_BYTES then f.(partial := "", discarding := true)
    else f.(partial := f.partial + [c])
  }

  /** Whether this byte is the one that makes the line too long. */
  function OversizedBy(f: Framer, c: char): nat {
    if !f.discarding && c != '\n' && |f.partial| == MAX_PAYLOAD_BYTES then 1 else 0
  }

  datatype Fed = Fed(framer: Framer, consumed: nat, oversized: nat)

  /** Bytes are taken one at a time until the next-line slot is occupied. */
  function Feed(f: Framer, data: string): (r: Fed)
    ensures r.consumed <= |data| && r.framer.acquired == f.acquired
    decreases |data|
  {
    if data == "" || f.pending.Some? then Fed(f, 0, 0)
    else
      var r := Feed(FeedByte(f, data[0]), data[1..]);
      Fed(r.framer, r.consumed + 1, r.oversized + OversizedBy(f, data[0]))
  }

  predicate HasLine(f: Framer) {
    f.active.Some? && !f.acquired
  }

  function Acquire(f: Framer): Framer {
    if HasLine(f) then f.(acquired := true) else f
  }

  function Release(f: Framer): Framer {
    if f.acquired then Promote(f.(acquired := false, active := None)) else f
  }

  // ---------------------------------------------------------------------------------------
  // The splitter: what newline framing means, with no buffers and no chunks.

  /** The bytes after the last newline. */
  function Tail(bytes: string): string {
    if bytes == "" || bytes[|bytes| - 1] == '\n' then "" else Tail(bytes[..|bytes| - 1]) + [bytes[|bytes| - 1]]
  }

  /** The payloads of the newline-terminated lines, in order. */
  function Lines(bytes: string): seq<string> {
    if bytes == "" then []
    else
      var front := bytes[..|bytes| - 1];
      if bytes[|bytes| - 1] == '\n' then Lines(front) + [Tail(front)] else Lines(front)
  }

  function Fitting(lines: seq<string>): seq<string> {
    if lines == [] then []
    else
      var l := lines[|lines| - 1];
      Fitting(lines[..|lines| - 1]) + if |l| <= MAX_PAYLOAD_BYTES then [l] else []
  }

  function TooLong(lines: seq<string>): nat {
    if lines == [] then 0
    else TooLong(lines[..|lines| - 1]) + if |lines[|lines| - 1]| <= MAX_PAYLOAD_BYTES then 0 else 1
  }

  /** The lines a controller may expect to be delivered. */
  function Kept(bytes: string): seq<string> {
    Fitting(Lines(bytes))
  }

  /** How many lines, the unfinished one included, exceeded the limit. */
  function Oversized(bytes: string): nat {
    TooLong(Lines(bytes)) + if |Tail(bytes)| <= MAX_PAYLOAD_BYTES then 0 else 1
  }

  function Terminated(lines: seq<string>): string {
    if lines == [] then "" else Terminated(lines[..|lines| - 1]) + lines[|lines| - 1] + "\n"
  }

  lemma {:induction false} TailHasNoNewline(bytes: string)
    ensures '\n' !in Tail(bytes)
  {
    if bytes != "" {
      TailHasNoNewline(bytes[..|bytes| - 1]);
    }
  }

  lemma {:induction false} LinesHaveNoNewline(bytes: string)
    ensures forall l :: l in Lines(bytes) ==> '\n' !in l
  {
    if bytes != "" {
      LinesHaveNoNewline(bytes[..|bytes| - 1]);
      TailHasNoNewline(bytes[..|bytes| - 1]);
    }
  }

  /** The splitter loses nothing: re-terminating its lines gives the input back. */
  lemma {:induction false} SplitterIsExact(bytes: string)
    ensures Terminated(Lines(bytes)) + Tail(bytes) == bytes
    ensures forall l :: l in Lines(bytes) ==> '\n' !in l
  {
    LinesHaveNoNewline(bytes);
    if bytes != "" {
      var front, c := bytes[..|bytes| - 1], bytes[|bytes| - 1];
      SplitterIsExact(front);
      assert front + [c] == bytes;
      if c == '\n' {
        var ls := Lines(bytes);
        assert ls[..|ls| - 1] == Lines(front) && ls[|ls| - 1] == Tail(front);
        assert Terminated(ls) == Terminated(Lines(front)) + Tail(front) + "\n";
      } else {
        assert Terminated(Lines(front)) + (Tail(front) + [c]) == Terminated(Lines(front)) + Tail(front) + [c];
      }
    }
  }

  lemma SplitterStep(bytes: string, c: char)
    ensures Tail(bytes + [c]) == if c == '\n' then "" else Tail(bytes) + [c]
    ensures Lines(bytes + [c]) == if c == '\n' then Lines(bytes) + [Tail(bytes)] else Lines(bytes)
    ensures Kept(bytes + [c]) == Kept(bytes) + if c == '\n' && |Tail(bytes)| <= MAX_PAYLOAD_BYTES then [Tail(bytes)] else []
    ensures Oversized(bytes + [c]) == Oversized(bytes) + if c != '\n' && |Tail(bytes)| == MAX_PAYLOAD_BYTES then 1 else 0
  {
    assert (bytes + [c])[..|bytes|] == bytes;
    if c == '\n' {
      assert (Lines(bytes) + [Tail(bytes)])[..|Lines(bytes)|] == Lines(bytes);
    }
  }

  /** More input never retracts a line. */
  lemma {:induction false} KeptGrows(bytes: string, more: string)
    ensures Kept(bytes) <= Kept(bytes + more)
    decreases |more|
  {
    if more == "" {
      assert bytes + more == bytes;
    } else {
      var front := more[..|more| - 1];
      KeptGrows(bytes, front);
      SplitterStep(bytes + front, more[|more| - 1]);
      assert bytes + more == bytes + front + [more[|more| - 1]];
    }
  }

  // ---------------------------------------------------------------------------------------
  // The framer refines the splitter.

  /** What the framer still owes the consumer. */
  function Undelivered(f: Framer): seq<string> {
    (if HasLine(f) then [f.active.value] else []) + (if f.pending.Some? then [f.pending.value] else [])
  }

  /** One framing session: the framer, the bytes it took, the lines acquired, the count of oversized lines. */
  datatype Session = Session(framer: Framer, consumed: string, delivered: seq<string>, oversized: nat)

  const FRESH := Session(EMPTY, "", [], 0)

  predicate Refines(s: Session) {
    && WellFormed(s.framer)
    && Kept(s.consumed) == s.delivered + Undelivered(s.framer)
    && Oversized(s.consumed) == s.oversized
    && (s.framer.discarding <==> |Tail(s.consumed)| > MAX_PAYLOAD_BYTES)
    && (!s.framer.discarding ==> s.framer.partial == Tail(s.consumed))
    && (s.framer.acquired ==> s.delivered != [] && s.framer.active == Some(s.delivered[|s.delivered| - 1]))
  }

  function TakeByte(s: Session, c: char): Session {
    Session(FeedByte(s.framer, c), s.consumed + [c], s.delivered, s.oversized + OversizedBy(s.framer, c))
  }

  function Append(s: Session, chunk: string): Session {
    var r := Feed(s.framer, chunk);
    Session(r.framer, s.consumed + chunk[..r.consumed], s.delivered, s.oversized + r.oversized)
  }

  function AcquireLine(s: Session): Session {
    if HasLine(s.framer) then s.(framer := Acquire(s.framer), delivered := s.delivered + [s.framer.active.value]) else s
  }

  function ReleaseLine(s: Session): Session {
    s.(framer := Release(s.framer))
  }

  lemma TakeByteRefines(s: Session, c: char)
    requires Refines(s) && s.framer.pending.None?
    ensures Refines(TakeByte(s, c))
  {
    SplitterStep(s.consumed, c);
  }

  lemma AppendByByte(s: Session, chunk: string)
    requires chunk != "" && s.framer.pending.None?
    ensures Append(s, chunk) == Append(TakeByte(s, chunk[0]), chunk[1..])
  {
    var t := TakeByte(s, chunk[0]);
    var r := Feed(t.framer, chunk[1..]);
    assert chunk[..r.consumed + 1] == [chunk[0]] + chunk[1..][..r.consumed];
    assert Append(s, chunk).consumed == s.consumed + chunk[..r.consumed + 1];
    assert s.consumed + ([chunk[0]] + chunk[1..][..r.consumed]) == s.consumed + [chunk[0]] + chunk[1..][..r.consumed];
  }

  lemma {:induction false} AppendRefines(s: Session, chunk: string)
    requires Refines(s)
    ensures Refines(Append(s, chunk))
    decreases |chunk|
  {
    if chunk == "" || s.framer.pending.Some? {
      assert s.consumed + chunk[..0] == s.consumed;
    } else {
      TakeByteRefines(s, chunk[0]);
      AppendRefines(TakeByte(s, chunk[0]), chunk[1..]);
      AppendByByte(s, chunk);
    }
  }

  lemma AcquireRefines(s: Session)
    requires Refines(s)
    ensures Refines(AcquireLine(s))
  {
    if HasLine(s.framer) {
      assert s.delivered + Undelivered(s.framer) == AcquireLine(s).delivered + Undelivered(Acquire(s.framer));
    }
  }

  lemma ReleaseRefines(s: Session)
    requires Refines(s)
    ensures Refines(ReleaseLine(s))
  {
  }

  /** What a reader of the transport and a consumer of lines may do, in any order. */
  datatype Action = Offer(size: nat) | TakeLine | GiveBack

  function Offered(stream: string, from: nat, size: nat): string
    requires from <= |stream|
  {
    if from + size <= |stream| then stream[from..from + size] else stream[from..]
  }

  /** A run over one byte stream in which bytes that were not consumed are offered again. */
  function Play(stream: string, actions: seq<Action>): (s: Session)
    ensures |s.consumed| <= |stream| && s.consumed == stream[..|s.consumed|]
  {
    if actions == [] then FRESH
    else
      var s := Play(stream, actions[..|actions| - 1]);
      match actions[|actions| - 1]
      case Offer(size) =>
        var from := |s.consumed|;
        var chunk := Offered(stream, from, size);
        var k := Feed(s.framer, chunk).consumed;
        assert stream[..from] + chunk[..k] == stream[..from + k];
        Append(s, chunk)
      case TakeLine => AcquireLine(s)
      case GiveBack => ReleaseLine(s)
  }

  /** However the stream is cut and the calls interleaved, the framer is the splitter. */
  lemma {:induction false} FramerIsSplitter(stream: string, actions: seq<Action>)
    ensures var s := Play(stream, actions);
            && Kept(stream[..|s.consumed|]) == s.delivered + Undelivered(s.framer)
            && s.oversized == Oversized(stream[..|s.consumed|])
            && Refines(s)
  {
    if actions != [] {
      FramerIsSplitter(stream, actions[..|actions| - 1]);
      var s := Play(stream, actions[..|actions| - 1]);
      match actions[|actions| - 1]
      case Offer(size) =>
        AppendRefines(s, Offered(stream, |s.consumed|, size));
      case TakeLine => AcquireRefines(s);
      case GiveBack => ReleaseRefines(s);
    }
  }

  /** An acquired payload is the same whatever is appended before its release. */
  lemma {:induction false} AcquiredLineIsStable(f: Framer, chunk: string)
    requires WellFormed(f) && f.acquired
    ensures Feed(f, chunk).framer.active == f.active && Feed(f, chunk).framer.acquired
    decreases |chunk|
  {
    if chunk != "" && f.pending.None? {
      AcquiredLineIsStable(FeedByte(f, chunk[0]), chunk[1..]);
    }
  }

  // ---------------------------------------------------------------------------------------
  // Bytes a caller loses by ignoring the consumed count.

  lemma {:induction false} FeedSplits(f: Framer, a: string, b: string)
    ensures var r := Feed(f, a);
            Feed(f, a + b) == if r.consumed < |a| then r
                              else var q := Feed(r.framer, b);
                                   Fed(q.framer, r.consumed + q.consumed, r.oversized + q.oversized)
    decreases |a|
  {
    if a == "" {
      assert a + b == b;
    } else if f.pending.None? {
      assert (a + b)[1..] == a[1..] + b;
      FeedSplits(FeedByte(f, a[0]), a[1..], b);
    }
  }

  lemma {:induction false} FeedStopsOnlyWhenFull(f: Framer, data: string)
    ensures var r := Feed(f, data); r.consumed < |data| ==> r.framer.pending.Some?
    decreases |data|
  {
    if data != "" && f.pending.None? {
      FeedStopsOnlyWhenFull(FeedByte(f, data[0]), data[1..]);
    }
  }

  /**
   A framer with no line takes a whole chunk exactly when fewer than two lines end before the
   chunk's last byte. A reader that ignores the consumed count loses bytes in every other case.
   */
  lemma WholeChunkIsTakenIff(s: Session, chunk: string)
    requires Refines(s) && s.framer.active.None? && chunk != ""
    ensures Feed(s.framer, chunk).consumed == |chunk|
       <==> |Kept(s.consumed + chunk[..|chunk| - 1])| < |Kept(s.consumed)| + 2
  {
    var front, last := chunk[..|chunk| - 1], chunk[|chunk| - 1..];
    assert chunk == front + last;
    var r := Feed(s.framer, front);
    FeedSplits(s.framer, front, last);
    FeedStopsOnlyWhenFull(s.framer, front);
    AppendRefines(s, front);
    var t := Append(s, front);
    assert Kept(s.consumed) == s.delivered;
    assert |Kept(t.consumed)| == |s.delivered| + |Undelivered(t.framer)|;
    if r.consumed < |front| {
      KeptGrows(t.consumed, front[r.consumed..]);
      assert t.consumed + front[r.consumed..] == s.consumed + front;
      assert Feed(s.framer, chunk).consumed < |chunk|;
    } else {
      assert t.consumed == s.consumed + front;
      assert last[1..] == "";
      assert Feed(t.framer, last).consumed == if t.framer.pending.Some? then 0 else 1;
    }
  }

  lemma KeptOfNext(bytes: string, kept: seq<string>, tail: string, c: char)
    requires Kept(bytes) == kept && Tail(bytes) == tail && |tail| < MAX_PAYLOAD_BYTES
    ensures Kept(bytes + [c]) == kept + if c == '\n' then [tail] else []
    ensures Tail(bytes + [c]) == if c == '\n' then "" else tail + [c]
  {
    SplitterStep(bytes, c);
  }

  /** Until a line is ready the framer takes everything. */
  lemma NoLineTakesAll(s: Session, chunk: string)
    requires Refines(s) && s.framer.active.None?
    ensures var t := Append(s, chunk);
            t.framer.active.None? ==> t.consumed == s.consumed + chunk && |Kept(t.consumed)| == |Kept(s.consumed)|
  {
    FeedStopsOnlyWhenFull(s.framer, chunk);
    AppendRefines(s, chunk);
  }

  lemma RefinesCounts(s: Session)
    requires Refines(s)
    ensures Oversized(s.consumed) == s.oversized && (s.framer.active.None? ==> !s.framer.acquired)
  {
  }

  lemma FeedCons(f: Framer, c: char, rest: string)
    requires f.pending.None?
    ensures var r := Feed(FeedByte(f, c), rest);
            Feed(f, [c] + rest) == Fed(r.framer, r.consumed + 1, r.oversized + OversizedBy(f, c))
  {
    assert ([c] + rest)[1..] == rest;
  }

  /** Of three empty lines the framer takes two, and then has no room. */
  lemma ThreeNewlinesFed()
    ensures Feed(EMPTY, "\n\n\n").consumed == 2 && HasLine(Feed(EMPTY, "\n\n\n").framer)
  {
    hide Feed;
    var one := FeedByte(EMPTY, '\n');
    var two := FeedByte(one, '\n');
    FeedCons(EMPTY, '\n', "\n\n");
    FeedCons(one, '\n', "\n");
    FeedStops(two, "\n");
    assert ['\n'] + "\n\n" == "\n\n\n" && ['\n'] + "\n" == "\n\n";
  }

  lemma FeedStops(f: Framer, data: string)
    requires f.pending.Some?
    ensures Feed(f, data) == Fed(f, 0, 0)
  {
  }

  lemma ThreeNewlines()
    ensures Kept("\n") == [""] && Kept("\n\n") == ["", ""] && Kept("\n\n\n") == ["", "", ""]
    ensures Tail("\n\n") == ""
  {
    KeptOfNext("", [], "", '\n');
    assert "" + ['\n'] == "\n";
    KeptOfNext("\n", [""], "", '\n');
    assert "\n" + ['\n'] == "\n\n";
    KeptOfNext("\n\n", ["", ""], "", '\n');
    assert "\n\n" + ['\n'] == "\n\n\n";
  }

  // ---------------------------------------------------------------------------------------
  // The framer in its two fixed buffers.

  class LineFramer {
    const counters: Counters
    const activeLine: array<char>
    const pendingLine: array<char>
    var activeLength: nat
    var pendingLength: nat
    var accumulatorLength: nat
    var activeReady: bool
    var activeAcquired: bool
    var pendingReady: bool
    var discardUntilNewline: bool

    /** The buffers agree with the lengths and flags. */
    ghost predicate Sized()
      reads this, activeLine, pendingLine
    {
      && activeLine != pendingLine
      && activeLine.Length == pendingLine.Length == MAX_PAYLOAD_BYTES + 1
      && activeLength <= MAX_PAYLOAD_BYTES && pendingLength <= MAX_PAYLOAD_BYTES
      && accumulatorLength <= MAX_PAYLOAD_BYTES
      && (activeAcquired ==> activeReady)
      && (pendingReady ==> accumulatorLength == 0 && !discardUntilNewline)
      && (discardUntilNewline ==> accumulatorLength == 0)
      && (activeReady ==> activeLine[activeLength] == '\0')
      && (pendingReady ==> pendingLine[pendingLength] == '\0')
    }

    /** Between calls a complete line is never left waiting behind a free consumer buffer. */
    ghost predicate Valid()
      reads this, activeLine, pendingLine
    {
      Sized() && (pendingReady ==> activeReady)
    }

    ghost function Model(): (f: Framer)
      requires Sized()
      reads this, activeLine, pendingLine
      ensures Valid() ==> WellFormed(f)
    {
      Framer(if activeReady then Some(activeLine[..activeLength]) else None,
             activeAcquired,
             if pendingReady then Some(pendingLine[..pendingLength]) else None,
             pendingLine[..accumulatorLength],
             discardUntilNewline)
    }

    constructor (counters: Counters)
      ensures Valid() && Model() == EMPTY && this.counters == counters
      ensures fresh(activeLine) && fresh(pendingLine)
    {
      this.counters := counters;
      activeLine := new char[MAX_PAYLOAD_BYTES + 1];
      pendingLine := new char[MAX_PAYLOAD_BYTES + 1];
      activeLength, pendingLength, accumulatorLength := 0, 0, 0;
      activeReady, activeAcquired, pendingReady, discardUntilNewline := false, false, false, false;
    }

    predicate HasActiveLine()
      requires Valid()
      reads this, activeLine, pendingLine
      ensures HasActiveLine() <==> HasLine(Model())
    {
      activeReady && !activeAcquired
    }

    /** The line handed out is followed by its terminator in the buffer. */
    method AcquireLine() returns (line: Option<string>)
      requires Valid()
      modifies this
      ensures Valid() && Model() == Acquire(old(Model()))
      ensures line == if HasLine(old(Model())) then old(Model()).active else None
    {
      if activeAcquired || !activeReady {
        return None;
      }
      activeAcquired := true;
      return Some(activeLine[..activeLength]);
    }

    method ReleaseLine()
      requires Valid()
      modifies this, activeLine, pendingLine
      ensures Valid() && Model() == Release(old(Model()))
    {
      if !activeAcquired {
        return;
      }
      activeAcquired := false;
      activeReady := false;
      activeLength := 0;
      activeLine[0] := '\0';
      PromotePendingIfPossible();
    }

    method CloseSession()
      requires Valid()
      modifies this, activeLine, pendingLine
      ensures Valid() && Model() == EMPTY
    {
      activeReady := false;
      activeAcquired := false;
      activeLength := 0;
      activeLine[0] := '\0';
      pendingReady := false;
      pendingLength := 0;
      pendingLine[0] := '\0';
      accumulatorLength := 0;
      discardUntilNewline := false;
    }

    /** Takes a prefix of the input and says how long it was. */
    method Append(data: array?<char>, size: nat) returns (consumed: nat)
      requires Valid()
      requires data != null ==> size <= data.Length && data != activeLine && data != pendingLine
      modifies this, activeLine, pendingLine, counters
      ensures Valid()
      ensures data == null ==> consumed == 0 && Model() == old(Model()) && counters.values == old(counters.values)
      ensures data != null ==>
                var r := Feed(old(Model()), old(data[..size]));
                && Model() == r.framer && consumed == r.consumed
                && counters.values == old(counters.values).(oversizedLines := old(counters.values.oversizedLines) + r.oversized)
    {
      if data == null {
        return 0;
      }
      consumed := 0;
      ghost var text := data[..size];
      ghost var start := Model();
      ghost var oversized: nat := 0;
      assert text[0..] == text;
      while consumed < size
        invariant Valid() && consumed <= size && data[..size] == text
        invariant Feed(start, text) ==
          var r := Feed(Model(), text[consumed..]);
          Fed(r.framer, consumed + r.consumed, oversized + r.oversized)
        invariant counters.values == old(counters.values).(oversizedLines := old(counters.values.oversizedLines) + oversized)
      {
        if pendingReady {
          break;
        }
        assert text[consumed..][0] == data[consumed] && text[consumed..][1..] == text[consumed + 1..];
        oversized := oversized + OversizedBy(Model(), data[consumed]);
        TakeByte(data[consumed]);
        consumed := consumed + 1;
      }
    }

    /** The body of the byte loop. */
    method TakeByte(byte: char)
      requires Valid() && !pendingReady
      modifies this, activeLine, pendingLine, counters
      ensures Valid() && Model() == FeedByte(old(Model()), byte)
      ensures counters.values == old(counters.values).(
                oversizedLines := old(counters.values.oversizedLines) + OversizedBy(old(Model()), byte))
    {
      if discardUntilNewline {
        if byte == '\n' {
          discardUntilNewline := false;
        }
        return;
      }
      if byte == '\n' {
        CompleteAccumulatedLine();
        return;
      }
      if accumulatorLength == MAX_PAYLOAD_BYTES {
        counters.values := counters.values.(oversizedLines := counters.values.oversizedLines + 1);
        accumulatorLength := 0;
        pendingLine[0] := '\0';
        discardUntilNewline := true;
        return;
      }
      pendingLine[accumulatorLength] := byte;
      accumulatorLength := accumulatorLength + 1;
      pendingLine[accumulatorLength] := '\0';
    }

    method CompleteAccumulatedLine()
      requires Valid() && !pendingReady && !discardUntilNewline
      modifies this, activeLine, pendingLine
      ensures Valid() && Model() == FeedByte(old(Model()), '\n')
    {
      pendingLength := accumulatorLength;
      pendingLine[pendingLength] := '\0';
      accumulatorLength := 0;
      pendingReady := true;
      PromotePendingIfPossible();
    }

    /** Copies the complete line, terminator included, into the consumer's buffer when that is free. */
    method PromotePendingIfPossible()
      requires Sized()
      modifies this, activeLine, pendingLine
      ensures Valid() && Model() == Promote(old(Model()))
    {
      if !pendingReady || activeReady || activeAcquired {
        return;
      }
      forall k | 0 <= k < pendingLength + 1 {
        activeLine[k] := pendingLine[k];
      }
      activeLength := pendingLength;
      assert activeLine[..activeLength] == pendingLine[..pendingLength];
      activeReady := true;
      pendingReady := false;
      pendingLength := 0;
      pendingLine[0] := '\0';
      assert pendingLine[..accumulatorLength] == "";
      assert activeLine[..activeLength] == old(pendingLine[..pendingLength]);
    }
  }
}
