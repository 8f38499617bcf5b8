/**
 * The generator as shipped: the `MappingBuilderExtensions` surface seen
 * through reflection, and the run that scans nodes, replays every candidate
 * and emits the artifact. Any exception aborts the run.
 */
module Pipeline {
  import opened Results
  import opened Abstractions
  import opened Reflection
  import opened Generators
  import opened Emission

  /** `MappingBuilderExtensions.ToTable(this IMappingBuilder builder, string table)` as reflection sees it. */
  const ToTableMethod: MethodInfo :=
    MethodInfo("ToTable", true, [MappingBuilderInterface, StringType], [AddTableFromParameter(1)])

  /**
   * `typeof(MappingBuilderExtensions).GetMethods()`: `ToTable` and the public
   * instance methods inherited from `object`.
   */
  const MappingBuilderExtensions: seq<MethodInfo> := [
    ToTableMethod,
    MethodInfo("GetType", false, [], []),
    MethodInfo("ToString", false, [], []),
    MethodInfo("Equals", false, [ObjectType], []),
    MethodInfo("GetHashCode", false, [], [])
  ]

  /** The registry of `MappingsSyntaxProcessor`: exactly `ToTable`, whose parameter count is 2. */
  lemma GeneratorRegistry()
    ensures MappingMethods(MappingBuilderExtensions) == [ToTableMethod]
    ensures |ToTableMethod.parameters| == 2
  {
    var e := MappingBuilderExtensions;
    assert MappingMethods(e[4..]) == [] by { assert e[4..][1..] == []; }
    assert MappingMethods(e[3..]) == [] by { assert e[3..][1..] == e[4..]; }
    assert MappingMethods(e[2..]) == [] by { assert e[2..][1..] == e[3..]; }
    assert MappingMethods(e[1..]) == [] by { assert e[1..][1..] == e[2..]; }
  }

  /** Invoking `ToTable`'s descriptor records one table named by its text argument, as `ToTable` does. */
  lemma ToTableMethodRecordsTable(table: string)
    ensures InvokeSpec(ToTableMethod, [CaptureBuilder, Text(table)]) == Run([TableMetadata(table)], None)
  {
  }

  function Call(name: string, texts: seq<string>): SyntaxNode {
    Invocation(MemberAccess(name), seq(|texts|, i requires 0 <= i < |texts| => Argument(None, texts[i])))
  }

  /**
   * Both spellings of a `ToTable` call record the table argument's text:
   * the extension form (one argument) and the static form (two arguments,
   * the receiver first, which fills the builder slot and is skipped).
   */
  lemma ToTableCallRecordsTable(receiver: string, table: string)
    ensures Replay([ToTableMethod], Call("ToTable", [table])) == Ok([TableMetadata(table)])
    ensures Replay([ToTableMethod], Call("ToTable", [receiver, table])) == Ok([TableMetadata(table)])
  {
    assert InvocationArguments(2, [table]).value == [CaptureBuilder, Text(table)];
    assert InvocationArguments(2, [receiver, table]).value == [CaptureBuilder, Text(table)];
    ToTableMethodRecordsTable(table);
  }

  /**
   * The alignment rule on other argument counts: without an argument the
   * copy fails; with three, the count differs from the parameter count, so
   * copying starts at the first argument and the rest are ignored.
   */
  lemma ToTableMisalignedCalls(first: string, second: string, third: string)
    ensures Replay([ToTableMethod], Call("ToTable", [])) == Err(CopyOutOfRange)
    ensures Replay([ToTableMethod], Call("ToTable", [first, second, third])) == Ok([TableMetadata(first)])
  {
    assert InvocationArguments(2, [first, second, third]).value == [CaptureBuilder, Text(first)];
    ToTableMethodRecordsTable(first);
  }

  /** The call sites the scanner accepts, in discovery order. */
  function Candidates(mappingMethods: seq<MethodInfo>, nodes: seq<SyntaxNode>): (r: seq<SyntaxNode>)
    ensures |r| <= |nodes|
    ensures forall n :: n in r <==> n in nodes && IsMappingMethod(mappingMethods, n)
  {
    if nodes == [] then []
    else if IsMappingMethod(mappingMethods, nodes[0]) then [nodes[0]] + Candidates(mappingMethods, nodes[1..])
    else Candidates(mappingMethods, nodes[1..])
  }

  /** Scanning keeps discovery order: the candidates of consecutive node lists are concatenated. */
  lemma {:induction false} CandidatesAppend(mappingMethods: seq<MethodInfo>, a: seq<SyntaxNode>, b: seq<SyntaxNode>)
    ensures Candidates(mappingMethods, a + b) == Candidates(mappingMethods, a) + Candidates(mappingMethods, b)
  {
    if a == [] {
      assert a + b == b;
    } else {
      assert (a + b)[1..] == a[1..] + b;
      CandidatesAppend(mappingMethods, a[1..], b);
    }
  }

  /**
   * Invoking `ToTable`'s descriptor on a fresh capture builder leaves the
   * same records as calling `ToTable` on a fresh builder.
   */
  method ToTableDescriptorAgrees(table: string) returns (viaInvoke: seq<Metadata>, direct: seq<Metadata>)
    ensures viaInvoke == direct == [TableMetadata(table)]
  {
    var args := new Arg[2];
    args[0] := CaptureBuilder;
    args[1] := Text(table);
    var b1 := new MappingBuilder();
    ToTableMethodRecordsTable(table);
    var failure := Invoke(ToTableMethod, args, b1);
    var b2 := new MappingBuilder();
    var returned := ToTable(b2, table);
    assert failure == None;
    viaInvoke, direct := b1.metadataCollection, b2.metadataCollection;
  }

  /** Replays every candidate in order; the first exception aborts the whole collection. */
  function TransformAll(mappingMethods: seq<MethodInfo>, candidates: seq<SyntaxNode>): Result<seq<seq<Metadata>>, TransformError> {
    if candidates == [] then Ok([])
    else match Replay(mappingMethods, candidates[0])
      case Err(e) => Err(e)
      case Ok(records) =>
        match TransformAll(mappingMethods, candidates[1..])
        case Err(e) => Err(e)
        case Ok(rest) => Ok([records] + rest)
  }

  /** Without an exception, the collected results are the candidates' replays, one per candidate, in order. */
  lemma {:induction false} TransformAllResults(mappingMethods: seq<MethodInfo>, candidates: seq<SyntaxNode>)
    ensures TransformAll(mappingMethods, candidates).Ok? <==>
      forall i :: 0 <= i < |candidates| ==> Replay(mappingMethods, candidates[i]).Ok?
    ensures TransformAll(mappingMethods, candidates).Ok? ==>
      |TransformAll(mappingMethods, candidates).value| == |candidates| &&
      forall i :: 0 <= i < |candidates| ==>
        TransformAll(mappingMethods, candidates).value[i] == Replay(mappingMethods, candidates[i]).value
  {
    if candidates != [] {
      TransformAllResults(mappingMethods, candidates[1..]);
      assert forall i :: 1 <= i < |candidates| ==> candidates[i] == candidates[1..][i - 1];
    }
  }

  datatype GeneratorError = TransformFailed(transformError: TransformError) | ExecuteFailed(emitError: EmitError)

  /** One generator run over the nodes of a compilation, with the extension type's methods. */
  function RunGenerator(extensionMethods: seq<MethodInfo>, nodes: seq<SyntaxNode>, newLine: string): Result<GeneratedSource, GeneratorError> {
    var mappingMethods := MappingMethods(extensionMethods);
    match TransformAll(mappingMethods, Candidates(mappingMethods, nodes))
    case Err(e) => Err(TransformFailed(e))
    case Ok(properties) =>
      match Emit(Flatten(properties), newLine)
      case Err(e) => Err(ExecuteFailed(e))
      case Ok(source) => Ok(source)
  }

  /** There is no per-call-site isolation: one failing candidate makes the whole run fail. */
  lemma OneFailingCallSiteAbortsRun(extensionMethods: seq<MethodInfo>, nodes: seq<SyntaxNode>, newLine: string, node: SyntaxNode)
    requires node in nodes && IsMappingMethod(MappingMethods(extensionMethods), node)
    requires Replay(MappingMethods(extensionMethods), node).Err?
    ensures RunGenerator(extensionMethods, nodes, newLine).Err?
  {
    var mappingMethods := MappingMethods(extensionMethods);
    var candidates := Candidates(mappingMethods, nodes);
    TransformAllResults(mappingMethods, candidates);
    var i :| 0 <= i < |candidates| && candidates[i] == node;
  }

  /** The test input: a mapping method whose body calls `builder.ToTable("MyTable")`. */
  const TestNodes: seq<SyntaxNode> := [OtherNode, OtherNode, Call("ToTable", ["\"MyTable\""])]

  /** The scanner finds the one `ToTable` call of the test input, and its replay records the quoted text. */
  lemma TestReplay()
    ensures var mappingMethods := MappingMethods(MappingBuilderExtensions);
      TransformAll(mappingMethods, Candidates(mappingMethods, TestNodes)) == Ok([[TableMetadata("\"MyTable\"")]])
  {
    GeneratorRegistry();
    var call := Call("ToTable", ["\"MyTable\""]);
    assert IsMappingMethod([ToTableMethod], call);
    assert Candidates([ToTableMethod], TestNodes) == [call] by {
      assert TestNodes[1..][1..] == [call];
      assert [call][1..] == [];
      assert Candidates([ToTableMethod], [call]) == [call];
    }
    ToTableCallRecordsTable("", "\"MyTable\"");
    assert Replay([ToTableMethod], call) == Ok([TableMetadata("\"MyTable\"")]);
    assert [call][1..] == [];
    assert TransformAll([ToTableMethod], []) == Ok([]);
    assert [[TableMetadata("\"MyTable\"")]] + [] == [[TableMetadata("\"MyTable\"")]];
  }

  /**
   * The generated source for the test input. The argument keeps its quotes,
   * so they appear in the constant's name and inside its value.
   */
  lemma TestOutput(newLine: string)
    ensures RunGenerator(MappingBuilderExtensions, TestNodes, newLine) == Ok(GeneratedSource(
      "PersistenceFrameworkGeneratedMappings.g.cs",
      Join(["namespace PersistenceFramework.Generated", "{", "public static class GeneratedMappings", "{",
            "public const string TableName_" + "\"MyTable\"" + " = \"" + "\"MyTable\"" + "\";",
            "}", "}"], newLine)))
  {
    TestReplay();
    var records := [TableMetadata("\"MyTable\"")];
    assert Flatten([records]) == records by {
      assert [records][1..] == [];
      assert records + [] == records;
    }
    FragmentsOfTables(records);
    var body := Fragments(records).value;
    assert |body| == 1 && body[0] == TableLine("\"MyTable\"");
    assert body == [TableLine("\"MyTable\"")];
    var lines := [NamespaceLine, OpenBrace, ClassLine, OpenBrace, TableLine("\"MyTable\""), CloseBrace, CloseBrace];
    assert HeaderLines + [TableLine("\"MyTable\"")] + FooterLines == lines;
    assert Emit(records, newLine) == Ok(GeneratedSource(HintName, Join(lines, newLine)));
  }
}
