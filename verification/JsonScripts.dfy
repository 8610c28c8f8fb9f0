/**
 Whole lines made by a fixed script of writer calls that stops at the first failure and reserves
 one byte for the final newline: when the script fits, what it produces, what a reader parses.
 */
module JsonScripts {
  import opened Common
  import opened Json
  import opened JsonWriting
  import Limits

  function Run(w: Writer, calls: seq<Call>): Result
    decreases |calls|
  {
    if calls == [] then Result(w, true)
    else
      var r := Apply(w, calls[0]);
      if r.ok then Run(r.w, calls[1..]) else r
  }

  function Reserved(capacity: nat): Writer {
    Apply(NewWriter(capacity), ReserveTailBytes(1)).w
  }

  /** The line a script yields in a buffer, newline included, if it fits. */
  function Line(capacity: nat, calls: seq<Call>): Option<string> {
    var r := Run(Reserved(capacity), calls);
    if !r.ok then None
    else
      var end := Apply(Apply(r.w, ReleaseTailReserve).w, AppendNewline);
      if end.ok && |end.w.text| <= Limits.BOARD_TX_MAX_LINE_BYTES then Some(end.w.text) else None
  }

  /** Calls that add text: the ones scripts are made of. */
  predicate IsContent(call: Call) {
    !call.AppendNewline? && !call.ReserveTailBytes? && !call.ReleaseTailReserve?
  }

  predicate AllContent(calls: seq<Call>) {
    forall k :: 0 <= k < |calls| ==> IsContent(calls[k])
  }

  lemma {:induction false} RunThen(w: Writer, a: seq<Call>, b: seq<Call>)
    ensures Run(w, a + b) == if Run(w, a).ok then Run(Run(w, a).w, b) else Run(w, a)
    decreases |a|
  {
    if a == [] {
      assert a + b == b;
    } else {
      assert (a + b)[1..] == a[1..] + b;
      RunThen(Apply(w, a[0]).w, a[1..], b);
    }
  }

  lemma RunOne(w: Writer, call: Call)
    ensures Run(w, [call]) == Apply(w, call)
  {
    assert [call][1..] == [];
    var r := Apply(w, call);
    assert Run(r.w, []) == Result(r.w, true);
  }

  lemma RunCons(w: Writer, call: Call, rest: seq<Call>)
    ensures Run(w, [call] + rest) == if Apply(w, call).ok then Run(Apply(w, call).w, rest) else Apply(w, call)
  {
    assert ([call] + rest)[1..] == rest;
  }

  lemma RunNext(w: Writer, calls: seq<Call>, call: Call)
    ensures Run(w, calls + [call]) == if Run(w, calls).ok then Apply(Run(w, calls).w, call) else Run(w, calls)
  {
    RunThen(w, calls, [call]);
    RunOne(Run(w, calls).w, call);
  }

  // ---------------------------------------------------------------------------------------
  // Structure: the calls a script may make whatever the capacity.

  /** Names and values are present, objects nest properly and not too deep. `depth` objects are open. */
  predicate Shaped(depth: nat, calls: seq<Call>)
    decreases |calls|
  {
    if calls == [] then depth == 0
    else
      match calls[0]
      case BeginObject => false
      case BeginObjectField(name) =>
        name.Some? && 0 < depth < Limits.MAX_JSON_NESTING_DEPTH && Shaped(depth + 1, calls[1..])
      case EndObject => depth > 0 && (depth == 1 ==> |calls| == 1) && Shaped(depth - 1, calls[1..])
      case AddString(name, value) => name.Some? && value.Some? && depth > 0 && Shaped(depth, calls[1..])
      case AddBytes(name, bytes) => name.Some? && bytes.Some? && depth > 0 && Shaped(depth, calls[1..])
      case AddUInt64(name, _) => name.Some? && depth > 0 && Shaped(depth, calls[1..])
      case AddBool(name, _) => name.Some? && depth > 0 && Shaped(depth, calls[1..])
      case _ => false
  }

  /** A script for one whole object. */
  predicate IsScript(calls: seq<Call>) {
    calls != [] && calls[0] == BeginObject && Shaped(1, calls[1..])
  }

  /** Room enough for a call's text, separator included. */
  function Width(call: Call): nat {
    match call
    case BeginObject => 1
    case BeginObjectField(Some(name)) => |Quote(name, Upper)| + 3
    case EndObject => 1
    case AddString(Some(name), Some(value)) => |Quote(name, Upper)| + 2 + |Quote(value, Upper)|
    case AddBytes(Some(name), Some(bytes)) => |Quote(name, Upper)| + 2 + |Quote(bytes, Upper)|
    case AddUInt64(Some(name), _) => |Quote(name, Upper)| + 22
    case AddBool(Some(name), _) => |Quote(name, Upper)| + 7
    case _ => 0
  }

  function TotalWidth(calls: seq<Call>): nat {
    if calls == [] then 0 else Width(calls[0]) + TotalWidth(calls[1..])
  }

  lemma UInt64Width(name: cstring, n: uint64)
    ensures Width(AddUInt64(Some(name), n)) <= 6 * |name| + 24
  {
    EscapePrintable(name, Upper);
  }

  lemma ObjectFieldWidth(name: cstring)
    ensures Width(BeginObjectField(Some(name))) <= 6 * |name| + 5
  {
    EscapePrintable(name, Upper);
  }

  lemma BraceWidths()
    ensures Width(BeginObject) == 1 && Width(EndObject) == 1
  {
  }

  lemma StringWidth(name: cstring, value: cstring)
    ensures Width(AddString(Some(name), Some(value))) <= 6 * |name| + 6 * |value| + 6
  {
    EscapePrintable(name, Upper);
    EscapePrintable(value, Upper);
  }

  lemma {:induction false} TotalWidthConcat(a: seq<Call>, b: seq<Call>)
    ensures TotalWidth(a + b) == TotalWidth(a) + TotalWidth(b)
    decreases |a|
  {
    hide Width;
    if a == [] {
      assert a + b == b;
    } else {
      assert (a + b)[1..] == a[1..] + b;
      TotalWidthConcat(a[1..], b);
    }
  }

  lemma TotalWidthOne(call: Call)
    ensures TotalWidth([call]) == Width(call)
  {
    hide Width;
    assert [call][1..] == [];
  }

  /** A shaped call succeeds wherever its width fits. */
  lemma ShapedCallFits(w: Writer, calls: seq<Call>)
    requires InBounds(w) && calls != [] && Shaped(|w.first|, calls) && !w.closed
    requires |w.text| + Width(calls[0]) <= w.capacity - w.reserve
    ensures var r := Apply(w, calls[0]);
            && r.ok && InBounds(r.w) && |r.w.text| <= |w.text| + Width(calls[0])
            && r.w.capacity == w.capacity && r.w.reserve == w.reserve
            && Shaped(|r.w.first|, calls[1..]) && (r.w.closed ==> calls[1..] == [])
  {
    if calls[0].AddUInt64? {
      DecimalWidth(calls[0].n, calls[0].n);
    }
  }

  lemma {:induction false} ShapedRunFits(w: Writer, calls: seq<Call>)
    requires InBounds(w) && Shaped(|w.first|, calls) && (w.closed ==> calls == [])
    requires |w.text| + TotalWidth(calls) <= w.capacity - w.reserve
    ensures Run(w, calls).ok && |Run(w, calls).w.text| <= |w.text| + TotalWidth(calls)
    decreases |calls|
  {
    if calls != [] {
      ShapedCallFits(w, calls);
      ShapedRunFits(Apply(w, calls[0]).w, calls[1..]);
    }
  }

  // ---------------------------------------------------------------------------------------
  // Fitting depends on the length of the finished text only.

  /** Two writers that differ in room only. */
  predicate SameContent(v: Writer, w: Writer) {
    v.text == w.text && v.first == w.first && v.closed == w.closed
  }

  lemma {:induction false} TextOnlyGrows(w: Writer, calls: seq<Call>)
    requires AllContent(calls) && InBounds(w)
    ensures var r := Run(w, calls).w;
            InBounds(r) && w.text <= r.text && r.capacity == w.capacity && r.reserve == w.reserve
    decreases |calls|
  {
    if calls != [] {
      CallsAreTransactions(w, calls[0]);
      TextOnlyGrows(Apply(w, calls[0]).w, calls[1..]);
    }
  }

  lemma FieldFitsIff(v: Writer, w: Writer, name: Option<cstring>, value: string)
    requires SameContent(v, w) && Field(w, name, value).ok
    ensures Field(v, name, value).ok <==> |Field(w, name, value).w.text| <= v.capacity - v.reserve
    ensures Field(v, name, value).ok ==> SameContent(Field(v, name, value).w, Field(w, name, value).w)
  {
  }

  lemma CallFitsIff(v: Writer, w: Writer, call: Call)
    requires SameContent(v, w) && IsContent(call) && Apply(w, call).ok
    ensures Apply(v, call).ok <==> |Apply(w, call).w.text| <= v.capacity - v.reserve
    ensures Apply(v, call).ok ==> SameContent(Apply(v, call).w, Apply(w, call).w)
  {
    match call
    case BeginObjectField(name) => FieldFitsIff(v, w, name, "{");
    case AddString(name, value) => FieldFitsIff(v, w, name, Quote(value.value, Upper));
    case AddBytes(name, bytes) => FieldFitsIff(v, w, name, Quote(bytes.value, Upper));
    case AddInt(name, i) => FieldFitsIff(v, w, name, DecimalInt(i));
    case AddUInt64(name, n) => FieldFitsIff(v, w, name, Decimal(n));
    case AddDouble(name, d) => FieldFitsIff(v, w, name, d.literal);
    case AddBool(name, b) => FieldFitsIff(v, w, name, if b then "true" else "false");
    case AddNull(name) => FieldFitsIff(v, w, name, "null");
    case _ =>
  }

  /** With a run that fits some writer, the same run fits another exactly when the finished text does. */
  lemma {:induction false} RunFitsIff(v: Writer, w: Writer, calls: seq<Call>)
    requires SameContent(v, w) && InBounds(v) && InBounds(w) && AllContent(calls) && Run(w, calls).ok
    ensures Run(v, calls).ok <==> |Run(w, calls).w.text| <= v.capacity - v.reserve
    ensures Run(v, calls).ok ==> SameContent(Run(v, calls).w, Run(w, calls).w)
    decreases |calls|
  {
    if calls != [] {
      var q, r := Apply(v, calls[0]), Apply(w, calls[0]);
      CallsAreTransactions(v, calls[0]);
      CallsAreTransactions(w, calls[0]);
      CallFitsIff(v, w, calls[0]);
      TextOnlyGrows(r.w, calls[1..]);
      if q.ok {
        RunFitsIff(q.w, r.w, calls[1..]);
      }
    }
  }

  /** What a script writes when nothing stops it. */
  function FullText(calls: seq<Call>): string {
    Run(NewWriter(TotalWidth(calls)), calls).w.text
  }

  lemma FullRun(calls: seq<Call>)
    requires IsScript(calls)
    ensures AllContent(calls) && Run(NewWriter(TotalWidth(calls)), calls).ok
    ensures |FullText(calls)| <= TotalWidth(calls)
  {
    var w := NewWriter(TotalWidth(calls));
    ShapedIsContent(1, calls[1..]);
    ShapedRunFits(Apply(w, BeginObject).w, calls[1..]);
  }

  lemma {:induction false} ShapedIsContent(depth: nat, calls: seq<Call>)
    requires Shaped(depth, calls)
    ensures AllContent(calls)
    decreases |calls|
  {
    if calls != [] {
      var d := if calls[0].BeginObjectField? then depth + 1 else if calls[0].EndObject? then depth - 1 else depth;
      ShapedIsContent(d, calls[1..]);
      assert forall k :: 0 < k < |calls| ==> calls[k] == calls[1..][k - 1];
    }
  }

  /** A script's line exists exactly when its text and the newline fit the buffer, and is that text. */
  lemma LineIff(capacity: nat, calls: seq<Call>)
    requires IsScript(calls) && 1 <= capacity <= Limits.BOARD_TX_MAX_LINE_BYTES
    ensures Line(capacity, calls) == if |FullText(calls)| + 1 <= capacity then Some(FullText(calls) + "\n") else None
  {
    FullRun(calls);
    var w := NewWriter(TotalWidth(calls));
    RunFitsIff(Reserved(capacity), w, calls);
    TextOnlyGrows(Reserved(capacity), calls);
  }

  // ---------------------------------------------------------------------------------------
  // What the line looks like on the wire.

  lemma {:induction false} RunIsPrintable(w: Writer, calls: seq<Call>)
    requires AllContent(calls) && Printable(w.text)
    ensures Printable(Run(w, calls).w.text)
    decreases |calls|
  {
    if calls != [] {
      CallIsPrintable(w, calls[0]);
      RunIsPrintable(Apply(w, calls[0]).w, calls[1..]);
    }
  }

  lemma CallIsPrintable(w: Writer, call: Call)
    requires IsContent(call) && Printable(w.text)
    ensures Printable(Apply(w, call).w.text)
  {
    match call
    case BeginObjectField(name) => FieldIsPrintable(w, name, "{");
    case AddString(name, value) =>
      if value.Some? { EscapePrintable(value.value, Upper); FieldIsPrintable(w, name, Quote(value.value, Upper)); }
    case AddBytes(name, bytes) =>
      if bytes.Some? { EscapePrintable(bytes.value, Upper); FieldIsPrintable(w, name, Quote(bytes.value, Upper)); }
    case AddInt(name, i) => NumberIsPrintable(i); FieldIsPrintable(w, name, DecimalInt(i));
    case AddUInt64(name, n) => NumberIsPrintable(n); FieldIsPrintable(w, name, Decimal(n));
    case AddDouble(name, d) => if d.Finite? { LiteralTokens(d.literal); FieldIsPrintable(w, name, d.literal); }
    case AddBool(name, b) => FieldIsPrintable(w, name, if b then "true" else "false");
    case AddNull(name) => FieldIsPrintable(w, name, "null");
    case _ =>
  }

  lemma NumberIsPrintable(i: int)
    ensures Printable(DecimalInt(i))
  {
    DecimalIntIsNumber(i);
    LiteralTokens(DecimalInt(i));
  }

  lemma FieldIsPrintable(w: Writer, name: Option<cstring>, value: string)
    requires Printable(w.text) && Printable(value)
    ensures Printable(Field(w, name, value).w.text)
  {
    if name.Some? {
      EscapePrintable(name.value, Upper);
    }
  }

  /** A line the transmit path accepts: within the limit, one newline, at the end; and no NUL, so a C string. */
  predicate IsWireText(line: string) {
    && 0 < |line| <= Limits.BOARD_TX_MAX_LINE_BYTES
    && line[|line| - 1] == '\n'
    && forall k :: 0 <= k < |line| - 1 ==> line[k] >= ' '
  }

  lemma LineIsWireText(capacity: nat, calls: seq<Call>)
    requires AllContent(calls) && Line(capacity, calls).Some?
    ensures IsWireText(Line(capacity, calls).value)
  {
    RunIsPrintable(Reserved(capacity), calls);
  }

  // ---------------------------------------------------------------------------------------
  // What the line parses to.

  /** The tree a script builds, from a given one. */
  function Build(t: Tree, calls: seq<Call>): Tree
    decreases |calls|
  {
    if calls == [] then t else Build(Grow(t, calls[0]), calls[1..])
  }

  lemma {:induction false} BuildThen(t: Tree, a: seq<Call>, b: seq<Call>)
    ensures Build(t, a + b) == Build(Build(t, a), b)
    decreases |a|
  {
    if a == [] {
      assert a + b == b;
    } else {
      assert (a + b)[1..] == a[1..] + b;
      BuildThen(Grow(t, a[0]), a[1..], b);
    }
  }

  lemma BuildOne(t: Tree, call: Call)
    ensures Build(t, [call]) == Grow(t, call)
  {
    assert [call][1..] == [];
  }

  lemma BuildCons(t: Tree, call: Call, rest: seq<Call>)
    ensures Build(t, [call] + rest) == Build(Grow(t, call), rest)
  {
    assert ([call] + rest)[1..] == rest;
  }

  /** What one call adds to the object under way. */
  lemma GrowLeaf(o: Open, name: cstring, text: string, n: uint64)
    ensures '\0' !in text ==> Grow(Building(o), AddString(Some(name), Some(text))) == Building(AddMember(o, name, Text(text)))
    ensures Grow(Building(o), AddBytes(Some(name), Some(text))) == Building(AddMember(o, name, Text(text)))
    ensures Grow(Building(o), AddUInt64(Some(name), n)) == Building(AddMember(o, name, Literal(Decimal(n))))
    ensures Grow(NoTree, BeginObject) == Building(Root(Empty))
  {
  }

  predicate NoBareObject(calls: seq<Call>) {
    forall k :: 0 <= k < |calls| ==> IsContent(calls[k]) && !calls[k].BeginObject?
  }

  lemma {:induction false} RunMatchesBuild(t: Trace, calls: seq<Call>)
    requires Invariant(t) && !t.spoiled && NoBareObject(calls) && Run(t.w, calls).ok
    ensures var q := Trace(Run(t.w, calls).w, Build(t.tree, calls), t.newlines, false);
            Invariant(q)
    decreases |calls|
  {
    if calls != [] {
      StepKeepsInvariant(t, calls[0]);
      RunMatchesBuild(Step(t, calls[0]), calls[1..]);
    }
  }

  lemma {:induction false} ShapedHasNoBareObject(depth: nat, calls: seq<Call>)
    requires Shaped(depth, calls)
    ensures NoBareObject(calls)
    decreases |calls|
  {
    if calls != [] {
      var d := if calls[0].BeginObjectField? then depth + 1 else if calls[0].EndObject? then depth - 1 else depth;
      ShapedHasNoBareObject(d, calls[1..]);
      assert forall k :: 0 < k < |calls| ==> calls[k] == calls[1..][k - 1];
    }
  }

  lemma ScriptRunMatches(capacity: nat, calls: seq<Call>)
    requires IsScript(calls) && 1 <= capacity && Run(Reserved(capacity), calls).ok
    ensures Invariant(Trace(Run(Reserved(capacity), calls).w, Build(NoTree, calls), 0, false))
    ensures Run(Reserved(capacity), calls).w.closed
  {
    var start := Trace(Reserved(capacity), NoTree, 0, false);
    assert Invariant(start);
    StepKeepsInvariant(start, BeginObject);
    ShapedHasNoBareObject(1, calls[1..]);
    RunMatchesBuild(Step(start, BeginObject), calls[1..]);
    ShapedCloses(Step(start, BeginObject).w, calls[1..]);
  }

  /** The line of a script is one JSON object: the tree the script builds. */
  lemma LineParses(capacity: nat, calls: seq<Call>)
    requires IsScript(calls) && 1 <= capacity && Line(capacity, calls).Some?
    ensures Build(NoTree, calls).Done?
    ensures ParseDocument(Line(capacity, calls).value) == Some(Object(Build(NoTree, calls).members))
  {
    ScriptRunMatches(capacity, calls);
    var m := Build(NoTree, calls).members;
    assert Newlines(0) == "";
    assert Line(capacity, calls).value == Print(Object(m)) + "\n";
    ParsePrint(Object(m), "\n");
  }

  lemma {:induction false} ShapedCloses(w: Writer, calls: seq<Call>)
    requires calls != [] && Shaped(|w.first|, calls) && !w.closed && Run(w, calls).ok
    ensures Run(w, calls).w.closed
    decreases |calls|
  {
    var r := Apply(w, calls[0]);
    if |calls| > 1 {
      ShapedCloses(r.w, calls[1..]);
    }
  }
}
