/**
 The bounded JSON writer. As a value, every call either appends one piece of text or changes
 nothing but the sticky failure flag; the class reaches that with byte-wise appends, a snapshot
 and a rollback. Over any sequence of calls the text is the print-out of the tree of the calls
 that succeeded.
 */
module JsonWriting {
  import opened Common
  import opened Json
  import Limits

  // ---------------------------------------------------------------------------------------
  // The writer as a value.

  /** `first` holds one flag per open object: no member has been written to it yet. */
  datatype Writer = Writer(text: string, capacity: nat, reserve: nat, first: seq<bool>, closed: bool, failed: bool)

  function NewWriter(capacity: nat): Writer {
    Writer("", capacity, 0, [], false, false)
  }

  type number = s: string | IsNumber(s) witness ['0']

  /** A floating-point argument: what the C library prints for it, when it is finite. */
  datatype Double = NonFinite | Finite(literal: number)

  datatype Call =
    | BeginObject
    | BeginObjectField(name: Option<cstring>)
    | EndObject
    | AddString(name: Option<cstring>, value: Option<cstring>)
    | AddBytes(name: Option<cstring>, bytes: Option<string>)
    | AddInt(name: Option<cstring>, i: int)
    | AddUInt64(name: Option<cstring>, n: uint64)
    | AddDouble(name: Option<cstring>, d: Double)
    | AddBool(name: Option<cstring>, b: bool)
    | AddNull(name: Option<cstring>)
    | AppendNewline
    | ReserveTailBytes(count: nat)
    | ReleaseTailReserve

  datatype Result = Result(w: Writer, ok: bool)

  function Failure(w: Writer): Result {
    Result(w.(failed := true), false)
  }

  predicate Fits(w: Writer, piece: string) {
    |w.text| + |piece| <= w.capacity - w.reserve
  }

  function Put(w: Writer, piece: string): Result {
    if Fits(w, piece) then Result(w.(text := w.text + piece), true) else Failure(w)
  }

  predicate InObject(w: Writer) {
    |w.first| > 0 && !w.closed
  }

  /** The separator and the name of the next member. */
  function FieldPrefix(w: Writer, name: string): string
    requires |w.first| > 0
  {
    (if w.first[|w.first| - 1] then "" else ",") + (Quote(name, Upper) + ":")
  }

  /** The flags once the innermost object has a member. */
  function Started(first: seq<bool>): seq<bool>
    requires |first| > 0
  {
    first[|first| - 1 := false]
  }

  function Field(w: Writer, name: Option<cstring>, value: string): Result {
    if name.None? || !InObject(w) then Failure(w)
    else
      var r := Put(w, FieldPrefix(w, name.value) + value);
      if r.ok then Result(r.w.(first := Started(w.first)), true) else r
  }

  function Apply(w: Writer, call: Call): Result {
    match call
    case BeginObject =>
      if w.closed || |w.first| >= Limits.MAX_JSON_NESTING_DEPTH then Failure(w)
      else
        var r := Put(w, "{");
        if r.ok then Result(r.w.(first := w.first + [true]), true) else r
    case BeginObjectField(name) =>
      if |w.first| >= Limits.MAX_JSON_NESTING_DEPTH then Failure(w)
      else
        var r := Field(w, name, "{");
        if r.ok then Result(r.w.(first := r.w.first + [true]), true) else r
    case EndObject =>
      if |w.first| == 0 then Failure(w)
      else
        var r := Put(w, "}");
        if r.ok then Result(r.w.(first := w.first[..|w.first| - 1], closed := |w.first| == 1), true) else r
    case AddString(name, value) =>
      if value.None? then Result(w, false) else Field(w, name, Quote(value.value, Upper))
    case AddBytes(name, bytes) =>
      if bytes.None? then Failure(w) else Field(w, name, Quote(bytes.value, Upper))
    case AddInt(name, i) => Field(w, name, DecimalInt(i))
    case AddUInt64(name, n) => Field(w, name, Decimal(n))
    case AddDouble(name, d) =>
      if d.NonFinite? || |d.literal| >= Limits.MAX_DOUBLE_LITERAL_BYTES then Failure(w) else Field(w, name, d.literal)
    case AddBool(name, b) => Field(w, name, if b then "true" else "false")
    case AddNull(name) => Field(w, name, "null")
    case AppendNewline => Put(w, "\n")
    case ReserveTailBytes(count) =>
      if count > w.capacity || |w.text| > w.capacity - count then Failure(w) else Result(w.(reserve := count), true)
    case ReleaseTailReserve => Result(w.(reserve := 0), true)
  }

  /** Text always stays clear of the reserved tail. */
  predicate InBounds(w: Writer) {
    |w.text| <= w.capacity - w.reserve && |w.first| <= Limits.MAX_JSON_NESTING_DEPTH && (w.closed ==> w.first == [])
  }

  /** A failing call leaves text, depth, comma flags and reserve alone; text is only ever appended to, and within bounds. */
  lemma CallsAreTransactions(w: Writer, call: Call)
    requires InBounds(w)
    ensures var r := Apply(w, call);
            && InBounds(r.w) && w.text <= r.w.text && r.w.capacity == w.capacity
            && (!r.ok ==> r.w == w.(failed := r.w.failed))
            && (r.ok ==> r.w.failed == w.failed)
            && (!call.ReserveTailBytes? && !call.ReleaseTailReserve? ==> r.w.reserve == w.reserve)
  {
    match call
    case BeginObjectField(name) => FieldIsATransaction(w, name, "{");
    case AddString(name, value) => if value.Some? { FieldIsATransaction(w, name, Quote(value.value, Upper)); }
    case AddBytes(name, bytes) => if bytes.Some? { FieldIsATransaction(w, name, Quote(bytes.value, Upper)); }
    case AddInt(name, i) => FieldIsATransaction(w, name, DecimalInt(i));
    case AddUInt64(name, n) => FieldIsATransaction(w, name, Decimal(n));
    case AddDouble(name, d) => if d.Finite? { FieldIsATransaction(w, name, d.literal); }
    case AddBool(name, b) => FieldIsATransaction(w, name, if b then "true" else "false");
    case AddNull(name) => FieldIsATransaction(w, name, "null");
    case _ =>
  }

  lemma FieldIsATransaction(w: Writer, name: Option<cstring>, value: string)
    requires InBounds(w)
    ensures var r := Field(w, name, value);
            && InBounds(r.w) && w.text <= r.w.text && r.w.capacity == w.capacity
            && (if r.ok then r.w == w.(text := r.w.text, first := r.w.first) && |r.w.first| == |w.first|
                else r.w == w.(failed := true))
  {
  }

  // ---------------------------------------------------------------------------------------
  // The tree of successful calls.

  /** The objects that are open, innermost last. */
  datatype Open = Root(members: Members) | Nested(outer: Open, name: string, members: Members)

  datatype Tree = NoTree | Building(open: Open) | Done(members: Members)

  function AddMember(o: Open, name: string, v: Value): Open {
    o.(members := Snoc(o.members, name, v))
  }

  function AddLeaf(t: Tree, name: Option<cstring>, v: Value): Tree {
    if t.Building? && name.Some? then Building(AddMember(t.open, name.value, v)) else t
  }

  /** What a successful call does to the tree. */
  function Grow(t: Tree, call: Call): Tree {
    match call
    case BeginObject => if t.NoTree? then Building(Root(Empty)) else t
    case BeginObjectField(name) =>
      if t.Building? && name.Some? then Building(Nested(t.open, name.value, Empty)) else t
    case EndObject =>
      (match t
       case Building(Root(m)) => Done(m)
       case Building(Nested(o, name, m)) => Building(AddMember(o, name, Object(m)))
       case _ => t)
    case AddString(name, value) => if value.Some? then AddLeaf(t, name, Text(value.value)) else t
    case AddBytes(name, bytes) => if bytes.Some? then AddLeaf(t, name, Text(bytes.value)) else t
    case AddInt(name, i) => AddLeaf(t, name, Literal(DecimalInt(i)))
    case AddUInt64(name, n) => AddLeaf(t, name, Literal(Decimal(n)))
    case AddDouble(name, d) => if d.Finite? then AddLeaf(t, name, Literal(d.literal)) else t
    case AddBool(name, b) => AddLeaf(t, name, Literal(if b then "true" else "false"))
    case AddNull(name) => AddLeaf(t, name, Literal("null"))
    case AppendNewline => t
    case ReserveTailBytes(_) => t
    case ReleaseTailReserve => t
  }

  function PrintOpen(o: Open): string {
    match o
    case Root(m) => "{" + PrintMembers(m)
    case Nested(outer, name, m) => PrintOpen(outer) + (Separator(outer.members) + Member(name, "{" + PrintMembers(m)))
  }

  /** The comma flags: an enclosing object has a member under way. */
  function Flags(o: Open): seq<bool> {
    match o
    case Root(m) => [m.Empty?]
    case Nested(outer, _, m) => Started(Flags(outer)) + [m.Empty?]
  }

  ghost predicate WellFormedOpen(o: Open) {
    WellFormedMembers(o.members) && (o.Nested? ==> WellFormedOpen(o.outer))
  }

  /** A run of calls. It is spoiled by an object opened inside another without a field name, or by a newline before the close. */
  datatype Trace = Trace(w: Writer, tree: Tree, newlines: nat, spoiled: bool)

  function Step(t: Trace, call: Call): Trace {
    var r := Apply(t.w, call);
    if !r.ok then t.(w := r.w)
    else Trace(r.w, Grow(t.tree, call),
               if call.AppendNewline? && t.w.closed then t.newlines + 1 else t.newlines,
               t.spoiled || (call.BeginObject? && t.w.first != []) || (call.AppendNewline? && !t.w.closed))
  }

  function Play(capacity: nat, calls: seq<Call>): Trace {
    if calls == [] then Trace(NewWriter(capacity), NoTree, 0, false)
    else Step(Play(capacity, calls[..|calls| - 1]), calls[|calls| - 1])
  }

  function Newlines(n: nat): string {
    if n == 0 then "" else Newlines(n - 1) + "\n"
  }

  /** Text in which an object's member list is followed by something that cannot follow it. */
  ghost predicate Broken(text: string) {
    || (text != "" && text[0] == '\n')
    || exists o: Open, rest: string :: WellFormedOpen(o) && Intruded(o, rest) && text == PrintOpen(o) + rest
  }

  ghost predicate Intruded(o: Open, rest: string) {
    rest != "" && (rest[0] == '{' || rest[0] == '\n')
  }

  ghost predicate Matches(t: Trace) {
    match t.tree
    case NoTree => t.w.text == "" && t.w.first == [] && !t.w.closed && t.newlines == 0
    case Building(o) =>
      WellFormedOpen(o) && t.w.text == PrintOpen(o) && t.w.first == Flags(o) && !t.w.closed && t.newlines == 0
    case Done(m) =>
      WellFormedMembers(m) && t.w.text == Print(Object(m)) + Newlines(t.newlines) && t.w.first == [] && t.w.closed
  }

  ghost predicate Invariant(t: Trace) {
    InBounds(t.w) && if t.spoiled then Broken(t.w.text) else Matches(t)
  }

  lemma FlagsOfInnermost(o: Open)
    ensures |Flags(o)| > 0 && (Flags(o)[|Flags(o)| - 1] <==> o.members.Empty?)
  {
  }

  lemma BrokenStaysBroken(text: string, more: string)
    requires Broken(text) && text <= more
    ensures Broken(more)
  {
    if text[0] != '\n' {
      var o, rest :| WellFormedOpen(o) && Intruded(o, rest) && text == PrintOpen(o) + rest;
      var extra := rest + more[|text|..];
      assert more == PrintOpen(o) + extra && Intruded(o, extra);
    }
  }

  /** A leaf call appends exactly the member's text. */
  lemma LeafStep(t: Trace, name: cstring, v: Value, r: Result)
    requires Invariant(t) && !t.spoiled && t.tree.Building? && WellFormed(v)
    requires r == Field(t.w, Some(name), Print(v)) && r.ok
    ensures Matches(Trace(r.w, AddLeaf(t.tree, Some(name), v), t.newlines, false))
  {
    var o := t.tree.open;
    FlagsOfInnermost(o);
    MemberAppended(o, name, v);
    assert FieldPrefix(t.w, name) == Separator(o.members) + (Quote(name, Upper) + ":");
    Assoc(Separator(o.members), Quote(name, Upper) + ":", Print(v));
    StartedFlags(o, name, v);
  }

  lemma MemberAppended(o: Open, name: string, v: Value)
    ensures PrintOpen(AddMember(o, name, v)) == PrintOpen(o) + (Separator(o.members) + Member(name, Print(v)))
  {
    var piece := Separator(o.members) + Member(name, Print(v));
    match o
    case Root(m) => Assoc("{", PrintMembers(m), piece);
    case Nested(outer, n, m) =>
      var head := Separator(outer.members);
      MemberExtends(n, m, piece);
      Assoc(head, Member(n, "{" + PrintMembers(m)), piece);
      Assoc(PrintOpen(outer), head + Member(n, "{" + PrintMembers(m)), piece);
  }

  lemma MemberExtends(n: string, m: Members, piece: string)
    ensures Member(n, "{" + (PrintMembers(m) + piece)) == Member(n, "{" + PrintMembers(m)) + piece
  {
    Assoc("{", PrintMembers(m), piece);
    Assoc(Quote(n, Upper) + ":", "{" + PrintMembers(m), piece);
  }

  lemma StartedFlags(o: Open, name: string, v: Value)
    ensures Flags(AddMember(o, name, v)) == Started(Flags(o))
  {
  }

  lemma OpenStep(t: Trace, name: cstring, r: Result)
    requires Invariant(t) && !t.spoiled && t.tree.Building?
    requires r == Apply(t.w, BeginObjectField(Some(name))) && r.ok
    ensures Matches(Trace(r.w, Building(Nested(t.tree.open, name, Empty)), t.newlines, false))
  {
    var o := t.tree.open;
    FlagsOfInnermost(o);
    assert "{" + PrintMembers(Empty) == "{";
    Assoc(Separator(o.members), Quote(name, Upper) + ":", "{");
  }

  lemma CloseStep(t: Trace, r: Result)
    requires Invariant(t) && !t.spoiled && t.tree.Building?
    requires r == Apply(t.w, EndObject) && r.ok
    ensures Matches(Trace(r.w, Grow(t.tree, EndObject), t.newlines, false))
  {
    match t.tree.open
    case Root(m) =>
      Assoc("{", PrintMembers(m), "}");
      assert Newlines(0) == "";
    case Nested(outer, name, m) =>
      assert WellFormedOpen(outer) && WellFormed(Object(m));
      assert WellFormedOpen(AddMember(outer, name, Object(m)));
      MemberAppended(outer, name, Object(m));
      StartedFlags(outer, name, Object(m));
      MemberExtends(name, m, "}");
      assert Print(Object(m)) == "{" + (PrintMembers(m) + "}");
      Assoc(Separator(outer.members), Member(name, "{" + PrintMembers(m)), "}");
      Assoc(PrintOpen(outer), Separator(outer.members) + Member(name, "{" + PrintMembers(m)), "}");
  }

  lemma SpoilStep(t: Trace, call: Call)
    requires Invariant(t) && Apply(t.w, call).ok && !t.spoiled && Step(t, call).spoiled
    ensures Broken(Step(t, call).w.text)
  {
    var piece := if call.BeginObject? then "{" else "\n";
    if t.tree.Building? {
      assert Intruded(t.tree.open, piece);
    } else {
      assert t.w.text == "" && Step(t, call).w.text == piece;
    }
  }

  lemma StepKeepsInvariant(t: Trace, call: Call)
    requires Invariant(t)
    ensures Invariant(Step(t, call))
  {
    CallsAreTransactions(t.w, call);
    var r := Apply(t.w, call);
    if t.spoiled {
      BrokenStaysBroken(t.w.text, Step(t, call).w.text);
    } else if r.ok {
      if Step(t, call).spoiled {
        SpoilStep(t, call);
      } else {
        GoodStep(t, call);
      }
    }
  }

  lemma GoodStep(t: Trace, call: Call)
    requires Invariant(t) && Apply(t.w, call).ok && !t.spoiled && !Step(t, call).spoiled
    ensures Matches(Step(t, call))
  {
    var r := Apply(t.w, call);
    match call
    case BeginObject =>
      assert r.w.text == "{" == PrintOpen(Root(Empty));
    case BeginObjectField(name) => OpenStep(t, name.value, r);
    case EndObject => CloseStep(t, r);
    case AddString(name, value) => LeafStep(t, name.value, Text(value.value), r);
    case AddBytes(name, bytes) => LeafStep(t, name.value, Text(bytes.value), r);
    case AddInt(name, i) => DecimalIntIsNumber(i); LeafStep(t, name.value, Literal(DecimalInt(i)), r);
    case AddUInt64(name, n) => DecimalIsNumber(n); LeafStep(t, name.value, Literal(Decimal(n)), r);
    case AddDouble(name, d) => LeafStep(t, name.value, Literal(d.literal), r);
    case AddBool(name, b) => LeafStep(t, name.value, Literal(if b then "true" else "false"), r);
    case AddNull(name) => LeafStep(t, name.value, Literal("null"), r);
    case AppendNewline =>
      Assoc(Print(Object(t.tree.members)), Newlines(t.newlines), "\n");
    case ReserveTailBytes(_) =>
    case ReleaseTailReserve =>
  }

  lemma {:induction false} PlayKeepsInvariant(capacity: nat, calls: seq<Call>)
    ensures Invariant(Play(capacity, calls)) && Play(capacity, calls).w.capacity == capacity
  {
    if calls != [] {
      PlayKeepsInvariant(capacity, calls[..|calls| - 1]);
      StepKeepsInvariant(Play(capacity, calls[..|calls| - 1]), calls[|calls| - 1]);
      CallsAreTransactions(Play(capacity, calls[..|calls| - 1]).w, calls[|calls| - 1]);
    }
  }

  // ---------------------------------------------------------------------------------------
  // What a reader of the closed output sees.

  predicate AllNewlines(s: string) {
    forall k :: 0 <= k < |s| ==> s[k] == '\n'
  }

  /** One JSON object, then nothing but line ends. */
  function ParseDocument(s: string): Option<Value> {
    match ParseValue(s)
    case Fail => None
    case Ok(v, rest) => if v.Object? && AllNewlines(rest) then Some(v) else None
  }

  lemma {:induction false} NewlinesAreNewlines(n: nat)
    ensures AllNewlines(Newlines(n)) && Delimited(Newlines(n))
  {
    if n > 0 {
      NewlinesAreNewlines(n - 1);
    }
  }

  lemma {:induction false} FailsInside(o: Open, tail: string)
    requires WellFormedOpen(o) && tail != "" && Delimited(tail)
    requires ParseMembers(tail, o.members).Fail?
    ensures ParseValue(PrintOpen(o) + tail).Fail?
    decreases o
  {
    Absorb(o.members, tail);
    var inside := PrintMembers(o.members) + tail;
    Assoc("{", PrintMembers(o.members), tail);
    BraceThen(inside);
    match o
    case Root(m) =>
    case Nested(outer, name, m) =>
      var text := Member(name, "{" + PrintMembers(m));
      Assoc(Quote(name, Upper) + ":", "{" + PrintMembers(m), tail);
      Assoc(Separator(outer.members), text, tail);
      Assoc(PrintOpen(outer), Separator(outer.members) + text, tail);
      EnterMember(outer.members, name, "{" + inside);
      FailsInside(outer, Separator(outer.members) + Member(name, "{" + inside));
  }

  lemma BraceThen(inside: string)
    ensures ParseValue("{" + inside) == ParseMembers(inside, Empty)
  {
    assert ("{" + inside)[1..] == inside;
  }

  lemma BrokenDoesNotParse(text: string)
    requires Broken(text)
    ensures ParseDocument(text).None?
  {
    if text[0] != '\n' {
      var o, rest :| WellFormedOpen(o) && Intruded(o, rest) && text == PrintOpen(o) + rest;
      FailsInside(o, rest);
    }
  }

  /**
   For every capacity and every sequence of calls, successful or not: once the outermost object
   is closed, the output is a JSON document exactly when no object was opened inside another
   without a field name and no newline was appended early; and then the parser returns the tree
   of the calls that succeeded.
   */
  lemma OutputParsesIff(capacity: nat, calls: seq<Call>)
    ensures var t := Play(capacity, calls);
            && |t.w.text| <= capacity - t.w.reserve
            && (t.w.closed ==> (ParseDocument(t.w.text).Some? <==> !t.spoiled))
            && (t.w.closed && !t.spoiled ==> t.tree.Done? && ParseDocument(t.w.text) == Some(Object(t.tree.members)))
  {
    PlayKeepsInvariant(capacity, calls);
    var t := Play(capacity, calls);
    if t.spoiled {
      BrokenDoesNotParse(t.w.text);
    } else if t.w.closed {
      NewlinesAreNewlines(t.newlines);
      ParsePrint(Object(t.tree.members), Newlines(t.newlines));
    }
  }

  lemma PlayNext(capacity: nat, calls: seq<Call>, call: Call)
    ensures Play(capacity, calls + [call]) == Step(Play(capacity, calls), call)
  {
    assert (calls + [call])[..|calls|] == calls;
  }

  /** The misuse the writer does not refuse: two opening calls in a row. */
  lemma UnnamedInnerObjectIsNotRefused(capacity: nat)
    requires capacity >= 4
    ensures var t := Play(capacity, [BeginObject] + [BeginObject] + [EndObject] + [EndObject]);
            t.w.closed && !t.w.failed && ParseDocument(t.w.text).None?
  {
    var c1 := [] + [BeginObject];
    var c2 := c1 + [BeginObject];
    var c3 := c2 + [EndObject];
    PlayNext(capacity, [], BeginObject);
    PlayNext(capacity, c1, BeginObject);
    assert Play(capacity, c2).w.first == [true, true] && Play(capacity, c2).spoiled && |Play(capacity, c2).w.text| == 2;
    PlayNext(capacity, c2, EndObject);
    PlayNext(capacity, c3, EndObject);
    OutputParsesIff(capacity, c3 + [EndObject]);
    assert [] + [BeginObject] == [BeginObject];
  }
}
