/** The dispatcher's check of a command's arguments against what the command declared. */
module ArgumentValidation {
  import opened Common
  import opened Registry

  /** A parsed argument, as far as the checks can tell values apart. */
  datatype ArgValue = Integer(i: int) | Real(finite: bool) | Boolean | StringValue | Other

  /** The supplied object, in order; a name resolves to its first entry. */
  datatype Arg = Arg(name: cstring, value: ArgValue)

  function Lookup(args: seq<Arg>, name: cstring): Option<ArgValue> {
    if args == [] then None else if args[0].name == name then Some(args[0].value) else Lookup(args[1..], name)
  }

  predicate HasArg(args: seq<Arg>, name: cstring) {
    exists k :: 0 <= k < |args| && args[k].name == name
  }

  /** Integers are 32-bit; any finite number will do for a float. */
  predicate TypeMatches(v: ArgValue, kind: ValueType) {
    match kind
    case Int => v.Integer? && -(TWO_32 / 2) <= v.i < TWO_32 / 2
    case Float => v.Integer? || (v.Real? && v.finite)
    case Bool => v.Boolean?
    case String => v.StringValue?
  }

  datatype BoardErrorCode = MissingField | InvalidType | UnknownCommand | InvalidArgument | InternalError | EstopActive

  datatype Problem = Problem(code: BoardErrorCode, message: cstring)

  const MISSING_ARGUMENT := Problem(MissingField, "missing required argument")
  const INVALID_TYPE := Problem(InvalidType, "argument has invalid type")
  const NOT_DECLARED := Problem(InvalidArgument, "argument is not declared")

  function DeclaredProblem(spec: Named, args: seq<Arg>): Option<Problem> {
    match Lookup(args, spec.name)
    case None => Some(MISSING_ARGUMENT)
    case Some(v) => if TypeMatches(v, spec.kind) then None else Some(INVALID_TYPE)
  }

  function FirstProblem(specs: seq<Named>, args: seq<Arg>): Option<Problem> {
    if specs == [] then None
    else
      var before := FirstProblem(specs[..|specs| - 1], args);
      if before.Some? then before else DeclaredProblem(specs[|specs| - 1], args)
  }

  predicate HasExtra(specs: seq<Named>, args: seq<Arg>) {
    exists k :: 0 <= k < |args| && !HasName(specs, args[k].name)
  }

  /** What is wrong with the arguments, if anything. */
  function Verdict(specs: seq<Named>, args: seq<Arg>): Option<Problem> {
    if FirstProblem(specs, args).Some? then FirstProblem(specs, args)
    else if HasExtra(specs, args) then Some(NOT_DECLARED)
    else None
  }

  lemma {:induction false} LookupIff(args: seq<Arg>, name: cstring)
    ensures Lookup(args, name).Some? <==> HasArg(args, name)
  {
    if args != [] {
      LookupIff(args[1..], name);
      if HasArg(args, name) && args[0].name != name {
        var k :| 0 <= k < |args| && args[k].name == name;
        assert args[1..][k - 1].name == name;
      }
      if HasArg(args[1..], name) {
        var k :| 0 <= k < |args| - 1 && args[1..][k].name == name;
        assert args[k + 1].name == name;
      }
    }
  }

  /** Exactly the declared names are supplied, each with its declared type. */
  ghost predicate Conforms(specs: seq<Named>, args: seq<Arg>) {
    && (forall k :: 0 <= k < |args| ==> HasName(specs, args[k].name))
    && (forall i :: 0 <= i < |specs| ==>
          HasArg(args, specs[i].name) && Lookup(args, specs[i].name).Some?
          && TypeMatches(Lookup(args, specs[i].name).value, specs[i].kind))
  }

  /** The first declared argument with a problem decides. */
  lemma {:induction false} FirstProblemIsFirst(specs: seq<Named>, args: seq<Arg>)
    ensures match FirstProblem(specs, args)
            case None => forall i :: 0 <= i < |specs| ==> DeclaredProblem(specs[i], args).None?
            case Some(_) => exists i :: 0 <= i < |specs| && FirstProblem(specs, args) == DeclaredProblem(specs[i], args)
                                       && forall j :: 0 <= j < i ==> DeclaredProblem(specs[j], args).None?
  {
    hide DeclaredProblem;
    if specs != [] {
      var n := |specs| - 1;
      FirstProblemIsFirst(specs[..n], args);
      if FirstProblem(specs[..n], args).Some? {
        var i :| 0 <= i < n && FirstProblem(specs[..n], args) == DeclaredProblem(specs[..n][i], args)
                 && forall j :: 0 <= j < i ==> DeclaredProblem(specs[..n][j], args).None?;
        assert forall j :: 0 <= j < i ==> DeclaredProblem(specs[..n][j], args) == DeclaredProblem(specs[j], args);
        assert DeclaredProblem(specs[..n][i], args) == DeclaredProblem(specs[i], args);
      } else {
        assert forall j :: 0 <= j < n ==> DeclaredProblem(specs[..n][j], args) == DeclaredProblem(specs[j], args);
        assert FirstProblem(specs, args) == DeclaredProblem(specs[n], args);
      }
    }
  }

  /** A command is accepted exactly when the supplied keys are the declared names and every type matches. */
  /** The declared argument is supplied, with the declared type. */
  predicate Supplied(spec: Named, args: seq<Arg>) {
    HasArg(args, spec.name) && Lookup(args, spec.name).Some? && TypeMatches(Lookup(args, spec.name).value, spec.kind)
  }

  /** Which problem is reported, for a declared argument after ones that are in order, and when all are. */
  lemma VerdictIs(specs: seq<Named>, args: seq<Arg>)
    ensures forall i :: 0 <= i < |specs| && !Supplied(specs[i], args) && (forall j :: 0 <= j < i ==> Supplied(specs[j], args)) ==>
              Verdict(specs, args) == Some(if HasArg(args, specs[i].name) then Problem(InvalidType, "argument has invalid type")
                                           else Problem(MissingField, "missing required argument"))
    ensures (forall j :: 0 <= j < |specs| ==> Supplied(specs[j], args)) ==>
              Verdict(specs, args) == if HasExtra(specs, args) then Some(Problem(InvalidArgument, "argument is not declared")) else None
  {
    FirstProblemIsFirst(specs, args);
    forall i | 0 <= i < |specs| ensures Supplied(specs[i], args) <==> DeclaredProblem(specs[i], args).None? {
      LookupIff(args, specs[i].name);
    }
    forall i | 0 <= i < |specs| && !Supplied(specs[i], args)
      ensures DeclaredProblem(specs[i], args) == Some(if HasArg(args, specs[i].name) then INVALID_TYPE else MISSING_ARGUMENT)
    {
      LookupIff(args, specs[i].name);
    }
  }

  lemma AcceptedIffConforms(specs: seq<Named>, args: seq<Arg>)
    ensures Verdict(specs, args).None? <==> Conforms(specs, args)
    ensures Conforms(specs, args) ==> (set k | 0 <= k < |args| :: args[k].name) == (set i | 0 <= i < |specs| :: specs[i].name)
  {
    FirstProblemIsFirst(specs, args);
    forall i | 0 <= i < |specs|
      ensures HasArg(args, specs[i].name) <==> Lookup(args, specs[i].name).Some?
    {
      LookupIff(args, specs[i].name);
    }
    if Conforms(specs, args) {
      SameNames(specs, args);
      assert forall i :: 0 <= i < |specs| ==> DeclaredProblem(specs[i], args).None?;
    }
    if Verdict(specs, args).None? {
      assert forall i :: 0 <= i < |specs| ==> DeclaredProblem(specs[i], args).None?;
    }
  }

  lemma SameNames(specs: seq<Named>, args: seq<Arg>)
    requires Conforms(specs, args)
    ensures (set k | 0 <= k < |args| :: args[k].name) == (set i | 0 <= i < |specs| :: specs[i].name)
  {
    var supplied, declared := set k | 0 <= k < |args| :: args[k].name, set i | 0 <= i < |specs| :: specs[i].name;
    forall n | n in supplied ensures n in declared {
      var k :| 0 <= k < |args| && args[k].name == n;
      assert HasName(specs, args[k].name);
    }
    forall n | n in declared ensures n in supplied {
      var i :| 0 <= i < |specs| && specs[i].name == n;
      assert HasArg(args, specs[i].name);
    }
  }

  method HasExtraArgument(specs: seq<Named>, args: seq<Arg>) returns (extra: bool)
    ensures extra <==> HasExtra(specs, args)
  {
    var k := 0;
    while k < |args|
      invariant k <= |args| && forall j :: 0 <= j < k ==> HasName(specs, args[j].name)
    {
      var declared := NameExists(specs, args[k].name);
      if !declared {
        return true;
      }
      k := k + 1;
    }
    return false;
  }

  lemma {:induction false} ProblemStays(specs: seq<Named>, args: seq<Arg>, i: nat)
    requires i <= |specs| && FirstProblem(specs[..i], args).Some?
    ensures FirstProblem(specs, args) == FirstProblem(specs[..i], args)
    decreases |specs| - i
  {
    hide DeclaredProblem;
    if i == |specs| {
      assert specs[..i] == specs;
    } else {
      assert specs[..i + 1][..i] == specs[..i];
      ProblemStays(specs, args, i + 1);
    }
  }

  method ValidateArgs(specs: seq<Named>, args: seq<Arg>) returns (p: Option<Problem>)
    ensures p == Verdict(specs, args)
    ensures p.None? <==> Conforms(specs, args)
  {
    hide HasExtra, Conforms;
    AcceptedIffConforms(specs, args);
    var i := 0;
    while i < |specs|
      invariant i <= |specs| && FirstProblem(specs[..i], args).None?
    {
      assert specs[..i + 1][..i] == specs[..i];
      var v := Lookup(args, specs[i].name);
      if v == None {
        ProblemStays(specs, args, i + 1);
        return Some(MISSING_ARGUMENT);
      }
      if !TypeMatches(v.value, specs[i].kind) {
        ProblemStays(specs, args, i + 1);
        return Some(INVALID_TYPE);
      }
      i := i + 1;
    }
    assert specs[..i] == specs;
    var extra := HasExtraArgument(specs, args);
    return if extra then Some(NOT_DECLARED) else None;
  }
}
