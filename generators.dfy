/**
 * The metadata-extraction half of the generator: the registry of mapping
 * methods, the syntactic call-site predicate, and the replay of one call
 * site against a fresh capture builder.
 */
module Generators {
  import opened Results
  import opened Abstractions
  import opened Reflection

  /** The callee of an invocation: a member access `x.Name` or anything else. */
  datatype Callee = MemberAccess(name: string) | OtherExpression

  /**
   * An argument of an invocation. `expressionText` is the source text of the
   * argument's expression; `nameColon` is an optional `name:` label, which is
   * not part of the expression.
   */
  datatype Argument = Argument(nameColon: Option<string>, expressionText: string)

  /** The syntax nodes the generator is shown. */
  datatype SyntaxNode =
    | Invocation(expression: Callee, arguments: seq<Argument>)
    | OtherNode

  /** The exceptions `Transform` can raise. */
  datatype TransformError =
    | InvalidCast               // the node is not an invocation of a member access
    | NoMatchingMethod          // `First` found no method of that name
    | IndexOutOfRange           // the method has no parameter, so slot 0 does not exist
    | CopyOutOfRange            // `Array.Copy` would read past the converted arguments
    | InvocationFailed(error: InvokeError)

  /** The constructor's filter: static, at least one parameter, `IMappingBuilder` first. */
  predicate QualifiesAsMappingMethod(m: MethodInfo) {
    m.isStatic && |m.parameters| > 0 && m.parameters[0] == MappingBuilderInterface
  }

  /** The registry built by the processor's constructor from the methods of the extension type. */
  function MappingMethods(extensionMethods: seq<MethodInfo>): (r: seq<MethodInfo>)
    ensures forall m :: m in r <==> m in extensionMethods && QualifiesAsMappingMethod(m)
    ensures |r| <= |extensionMethods|
  {
    if extensionMethods == [] then []
    else if QualifiesAsMappingMethod(extensionMethods[0]) then [extensionMethods[0]] + MappingMethods(extensionMethods[1..])
    else MappingMethods(extensionMethods[1..])
  }

  /** The filter keeps enumeration order: it distributes over concatenation. */
  lemma {:induction false} MappingMethodsAppend(a: seq<MethodInfo>, b: seq<MethodInfo>)
    ensures MappingMethods(a + b) == MappingMethods(a) + MappingMethods(b)
  {
    if a != [] {
      assert (a + b)[1..] == a[1..] + b;
      MappingMethodsAppend(a[1..], b);
    } else {
      assert a + b == b;
    }
  }

  /** `First(m => m.Name == name)`: the index of the first method with that name. */
  function FirstNamed(methods: seq<MethodInfo>, name: string): (r: Option<nat>)
    ensures r.Some? <==> exists i :: 0 <= i < |methods| && methods[i].name == name
    ensures r.Some? ==> r.value < |methods| && methods[r.value].name == name
    ensures r.Some? ==> forall j :: 0 <= j < r.value ==> methods[j].name != name
  {
    if methods == [] then None
    else if methods[0].name == name then Some(0)
    else match FirstNamed(methods[1..], name)
      case None => None
      case Some(i) => Some(i + 1)
  }

  /** Methods appended after a match do not change which method is found first. */
  lemma {:induction false} FirstNamedIgnoresLater(methods: seq<MethodInfo>, later: seq<MethodInfo>, name: string)
    requires FirstNamed(methods, name).Some?
    ensures FirstNamed(methods + later, name) == FirstNamed(methods, name)
  {
    if methods[0].name != name {
      assert (methods + later)[1..] == methods[1..] + later;
      FirstNamedIgnoresLater(methods[1..], later, name);
    }
  }

  /**
   * `IsMappingMethod`: the syntactic test for a candidate call site. It looks
   * only at the node and the registry (no reads clause: no mutable state).
   */
  predicate IsMappingMethod(mappingMethods: seq<MethodInfo>, node: SyntaxNode): (b: bool)
    ensures b <==>
      && node.Invocation?
      && node.expression.MemberAccess?
      && exists m :: m in mappingMethods && m.name == node.expression.name
  {
    match node
    case Invocation(MemberAccess(name), _) => FirstNamed(mappingMethods, name).Some?
    case _ => false
  }

  /** `ConvertArgumentToString`: the argument expression's source text, unchanged. */
  function ConvertArgumentToString(argument: Argument): string {
    argument.expressionText
  }

  /** The text of an argument never depends on its `name:` label. */
  lemma ConvertArgumentIgnoresLabel(nameColon: Option<string>, other: Option<string>, text: string)
    ensures ConvertArgumentToString(Argument(nameColon, text)) == ConvertArgumentToString(Argument(other, text)) == text
  {
  }

  /** `arguments.Select(ConvertArgumentToString).ToArray()` */
  function ArgumentTexts(arguments: seq<Argument>): (r: seq<string>)
    ensures |r| == |arguments|
    ensures forall i :: 0 <= i < |arguments| ==> r[i] == arguments[i].expressionText
  {
    seq(|arguments|, i requires 0 <= i < |arguments| => ConvertArgumentToString(arguments[i]))
  }

  /** The first converted argument copied: 1 when there are as many arguments as parameters. */
  function StartIndex(parameterCount: nat, argumentCount: nat): nat {
    if parameterCount == argumentCount then 1 else 0
  }

  /**
   * The invocation array `Transform` builds for a method with
   * `parameterCount` parameters from the converted argument texts.
   */
  function InvocationArguments(parameterCount: nat, texts: seq<string>): (r: Result<seq<Arg>, TransformError>)
    ensures r.Ok? <==> parameterCount > 0 && (parameterCount == 1 || |texts| >= parameterCount - 1)
    ensures parameterCount == 0 ==> r == Err(IndexOutOfRange)
    ensures r.Err? && parameterCount > 0 ==> r == Err(CopyOutOfRange)
    ensures r.Ok? ==> |r.value| == parameterCount && r.value[0] == CaptureBuilder
    ensures r.Ok? && |texts| == parameterCount ==>
      forall i :: 1 <= i < parameterCount ==> r.value[i] == Text(texts[i])
    ensures r.Ok? && |texts| != parameterCount ==>
      forall i :: 1 <= i < parameterCount ==> r.value[i] == Text(texts[i - 1])
  {
    if parameterCount == 0 then Err(IndexOutOfRange)
    else if parameterCount == 1 then Ok([CaptureBuilder])
    else
      var start := StartIndex(parameterCount, |texts|);
      if start + (parameterCount - 1) > |texts| then Err(CopyOutOfRange)
      else Ok([CaptureBuilder] + seq(parameterCount - 1, k requires 0 <= k < parameterCount - 1 => Text(texts[start + k])))
  }

  /** The specification of `Transform`: replaying one call site. */
  function Replay(mappingMethods: seq<MethodInfo>, node: SyntaxNode): Result<seq<Metadata>, TransformError> {
    match node
    case OtherNode => Err(InvalidCast)
    case Invocation(OtherExpression, _) => Err(InvalidCast)
    case Invocation(MemberAccess(name), arguments) =>
      match FirstNamed(mappingMethods, name)
      case None => Err(NoMatchingMethod)
      case Some(i) =>
        var methodInfo := mappingMethods[i];
        match InvocationArguments(|methodInfo.parameters|, ArgumentTexts(arguments))
        case Err(e) => Err(e)
        case Ok(args) =>
          var run := InvokeSpec(methodInfo, args);
          if run.failure.Some? then Err(InvocationFailed(run.failure.value)) else Ok(run.appended)
  }

  /**
   * `Array.Copy(source, sourceIndex, destination, destinationIndex, length)`:
   * copies the texts into the slots, or fails and copies nothing when a
   * range lies outside its array.
   */
  method ArrayCopy(source: array<string>, sourceIndex: nat, destination: array<Arg>, destinationIndex: nat, length: nat)
    returns (ok: bool)
    modifies destination
    ensures ok <==> sourceIndex + length <= source.Length && destinationIndex + length <= destination.Length
    ensures !ok ==> destination[..] == old(destination[..])
    ensures ok ==> forall k :: 0 <= k < destination.Length ==>
      destination[k] == if destinationIndex <= k < destinationIndex + length
                        then Text(source[sourceIndex + k - destinationIndex]) else old(destination[k])
  {
    if sourceIndex + length > source.Length || destinationIndex + length > destination.Length {
      return false;
    }
    var i := 0;
    while i < length
      invariant 0 <= i <= length
      invariant forall k :: 0 <= k < destination.Length ==>
        destination[k] == if destinationIndex <= k < destinationIndex + i
                          then Text(source[sourceIndex + k - destinationIndex]) else old(destination[k])
    {
      destination[destinationIndex + i] := Text(source[sourceIndex + i]);
      i := i + 1;
    }
    ok := true;
  }

  /**
   * `Transform`: resolves the first registered method named like the call,
   * fills an argument array whose slot 0 is a fresh capture builder and
   * whose other slots hold the arguments' source text, invokes the method
   * and returns what the capture builder recorded.
   */
  method Transform(mappingMethods: seq<MethodInfo>, node: SyntaxNode) returns (r: Result<seq<Metadata>, TransformError>)
    ensures r == Replay(mappingMethods, node)
  {
    if !node.Invocation? || !node.expression.MemberAccess? {
      return Err(InvalidCast);
    }
    var methodName := node.expression.name;
    var first := FirstNamed(mappingMethods, methodName);
    if first.None? {
      return Err(NoMatchingMethod);
    }
    var methodInfo := mappingMethods[first.value];
    var parameters := methodInfo.parameters;
    var arguments := node.arguments;
    var mappingBuilder := new MappingBuilder();
    var invocationParameters := new Arg[|parameters|](_ => Null);
    if invocationParameters.Length == 0 {
      return Err(IndexOutOfRange);
    }
    invocationParameters[0] := CaptureBuilder;
    if |parameters| > 1 {
      var argumentsArray := new string[|arguments|](i requires 0 <= i < |arguments| => ConvertArgumentToString(arguments[i]));
      var startIndex := if |parameters| == argumentsArray.Length then 1 else 0;
      var copied := ArrayCopy(argumentsArray, startIndex, invocationParameters, 1, invocationParameters.Length - 1);
      if !copied {
        return Err(CopyOutOfRange);
      }
    }
    ghost var expected := InvocationArguments(|parameters|, ArgumentTexts(arguments));
    assert invocationParameters[..] == expected.value;
    var failure := Invoke(methodInfo, invocationParameters, mappingBuilder);
    if failure.Some? {
      return Err(InvocationFailed(failure.value));
    }
    assert mappingBuilder.metadataCollection == InvokeSpec(methodInfo, expected.value).appended;
    assert InvokeSpec(methodInfo, expected.value).failure.None?;
    return Ok(mappingBuilder.metadataCollection);
  }

  /**
   * A candidate call site always resolves to a method: `Transform` then
   * raises neither the cast nor the `First` exception, and it raises one of
   * them on every other node.
   */
  lemma CandidatesResolve(mappingMethods: seq<MethodInfo>, node: SyntaxNode)
    ensures IsMappingMethod(mappingMethods, node) <==>
      Replay(mappingMethods, node) != Err(InvalidCast) && Replay(mappingMethods, node) != Err(NoMatchingMethod)
  {
  }

  /** Same-named methods later in the registry never influence the replay of a candidate. */
  lemma ReplayIgnoresLaterOverloads(mappingMethods: seq<MethodInfo>, later: seq<MethodInfo>, node: SyntaxNode)
    requires IsMappingMethod(mappingMethods, node)
    ensures Replay(mappingMethods + later, node) == Replay(mappingMethods, node)
  {
    FirstNamedIgnoresLater(mappingMethods, later, node.expression.name);
  }
}
