/**
 * The part of .NET reflection the generator relies on, as explicit data:
 * a method descriptor (`MethodInfo`) and `MethodInfo.Invoke` with a null
 * target. A method body is a straight-line list of statements acting on
 * the builder passed in its first parameter.
 */
module Reflection {
  import opened Results
  import opened Abstractions

  /** Declared parameter types, as far as the generator can tell them apart. */
  datatype ParameterType =
    | MappingBuilderInterface      // typeof(IMappingBuilder)
    | StringType
    | ObjectType
    | OtherType(typeName: string)  // any other type, including concrete builder classes

  /** A statement of a DSL operation's body. */
  datatype Statement =
    | AddTableFromParameter(index: nat)  // builder.AddMetadata(new TableMetadata(<parameter index>))
    | AddRecord(record: Metadata)        // builder.AddMetadata(<a record built from constants>)
    | Throw                              // the body raises an exception

  datatype MethodInfo = MethodInfo(
    name: string,
    isStatic: bool,
    parameters: seq<ParameterType>,
    body: seq<Statement>)

  /** A slot of the `object[]` passed to `Invoke`. */
  datatype Arg =
    | CaptureBuilder     // the capture builder the caller passes along with the array
    | Text(text: string)
    | Null               // the initial value of every slot of `new object[n]`

  datatype InvokeError =
    | TargetMissing           // an instance method invoked with a null target
    | ParameterCountMismatch
    | ArgumentTypeMismatch
    | BodyCastFailed          // the body read a parameter slot that holds no text
    | BodyThrew

  /** Whether a value in slot `a` may be passed for a parameter of type `p`. */
  predicate Accepts(p: ParameterType, a: Arg) {
    match a
    case CaptureBuilder => p == MappingBuilderInterface || p == ObjectType
    case Text(_) => p == StringType || p == ObjectType
    case Null => true
  }

  /** What running a body did: the records it appended, and the failure that stopped it, if any. */
  datatype Run = Run(appended: seq<Metadata>, failure: Option<InvokeError>)

  /** The record one statement appends, or the exception it raises. */
  function StatementResult(s: Statement, args: seq<Arg>): Result<Metadata, InvokeError> {
    match s
    case AddTableFromParameter(i) =>
      if i < |args| && args[i].Text? then Ok(TableMetadata(args[i].text)) else Err(BodyCastFailed)
    case AddRecord(m) => Ok(m)
    case Throw => Err(BodyThrew)
  }

  /** Runs `body` statement by statement, stopping at the first failure. */
  function RunBody(body: seq<Statement>, args: seq<Arg>): (r: Run)
    ensures |r.appended| <= |body|
    ensures r.failure.None? <==> forall k :: 0 <= k < |body| ==> StatementResult(body[k], args).Ok?
    ensures r.failure.None? ==>
      |r.appended| == |body| &&
      forall k :: 0 <= k < |body| ==> r.appended[k] == StatementResult(body[k], args).value
    decreases |body|
  {
    if body == [] then Run([], None)
    else
      var prefix := RunBody(body[..|body| - 1], args);
      if prefix.failure.Some? then prefix
      else match StatementResult(body[|body| - 1], args)
        case Ok(m) => Run(prefix.appended + [m], None)
        case Err(e) => Run(prefix.appended, Some(e))
  }

  /** Once a prefix of a body has failed, the statements after it change nothing. */
  lemma {:induction false} RunBodyStopsAtFailure(body: seq<Statement>, i: nat, args: seq<Arg>)
    requires i <= |body|
    requires RunBody(body[..i], args).failure.Some?
    ensures RunBody(body, args) == RunBody(body[..i], args)
    decreases |body| - i
  {
    if i < |body| {
      assert body[..i + 1][..i] == body[..i];
      RunBodyStopsAtFailure(body, i + 1, args);
    } else {
      assert body[..i] == body;
    }
  }

  /** One more statement: it appends its record, or its failure is the failure of the whole body. */
  lemma RunBodyStep(body: seq<Statement>, i: nat, args: seq<Arg>)
    requires i < |body| && RunBody(body[..i], args).failure.None?
    ensures StatementResult(body[i], args).Ok? ==>
      RunBody(body[..i + 1], args) == Run(RunBody(body[..i], args).appended + [StatementResult(body[i], args).value], None)
    ensures StatementResult(body[i], args).Err? ==>
      RunBody(body, args) == Run(RunBody(body[..i], args).appended, Some(StatementResult(body[i], args).error))
  {
    assert body[..i + 1][..i] == body[..i];
    if StatementResult(body[i], args).Err? {
      RunBodyStopsAtFailure(body, i + 1, args);
    }
  }

  /**
   * `MethodInfo.Invoke(null, args)`: the target check, the parameter count
   * and type checks, then the body.
   */
  function InvokeSpec(m: MethodInfo, args: seq<Arg>): Run {
    if !m.isStatic then Run([], Some(TargetMissing))
    else if |args| != |m.parameters| then Run([], Some(ParameterCountMismatch))
    else if exists k :: 0 <= k < |args| && !Accepts(m.parameters[k], args[k]) then Run([], Some(ArgumentTypeMismatch))
    else RunBody(m.body, args)
  }

  /**
   * Invokes `m` with the argument array `args`, in which the slot value
   * `CaptureBuilder` stands for `capture`. Every record the body appends goes
   * to `capture`; the result says whether the invocation raised.
   */
  method Invoke(m: MethodInfo, args: array<Arg>, capture: MappingBuilder) returns (r: Option<InvokeError>)
    modifies capture
    ensures r == InvokeSpec(m, args[..]).failure
    ensures capture.metadataCollection == old(capture.metadataCollection) + InvokeSpec(m, args[..]).appended
  {
    if !m.isStatic {
      return Some(TargetMissing);
    }
    if args.Length != |m.parameters| {
      return Some(ParameterCountMismatch);
    }
    if exists k :: 0 <= k < args.Length && !Accepts(m.parameters[k], args[k]) {
      return Some(ArgumentTypeMismatch);
    }
    ghost var start := capture.metadataCollection;
    var i := 0;
    while i < |m.body|
      invariant 0 <= i <= |m.body|
      invariant RunBody(m.body[..i], args[..]).failure.None?
      invariant capture.metadataCollection == start + RunBody(m.body[..i], args[..]).appended
    {
      var s := StatementResult(m.body[i], args[..]);
      RunBodyStep(m.body, i, args[..]);
      if s.Err? {
        return Some(s.error);
      }
      capture.AddMetadata(s.value);
      i := i + 1;
    }
    assert m.body[..i] == m.body;
    r := None;
  }
}
