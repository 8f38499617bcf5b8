/**
 * The code-emission half of the generator: the handler table, the table
 * handler, and `Execute`, which writes the generated class around the
 * handlers' lines.
 */
module Emission {
  import opened Results
  import opened Abstractions

  /** Each line followed by the line terminator: the text of a `StringBuilder` filled by `AppendLine`. */
  function Join(lines: seq<string>, newLine: string): string
    decreases |lines|
  {
    if lines == [] then "" else Join(lines[..|lines| - 1], newLine) + lines[|lines| - 1] + newLine
  }

  /** Joining distributes over concatenation of the line lists. */
  lemma {:induction false} JoinAppend(a: seq<string>, b: seq<string>, newLine: string)
    ensures Join(a + b, newLine) == Join(a, newLine) + Join(b, newLine)
    decreases |b|
  {
    if b == [] {
      assert a + b == a;
    } else {
      var b' := b[..|b| - 1];
      assert (a + b)[..|a + b| - 1] == a + b';
      JoinAppend(a, b', newLine);
    }
  }

  lemma JoinSingle(line: string, newLine: string)
    ensures Join([line], newLine) == line + newLine
  {
  }

  /**
   * `StringBuilder` used only through `AppendLine`: the lines appended so far;
   * `newLine` is the environment's line terminator.
   */
  class StringBuilder {
    const newLine: string
    var lines: seq<string>

    constructor (newLine: string)
      ensures this.newLine == newLine && lines == []
    {
      this.newLine := newLine;
      lines := [];
    }

    /** The builder's text. */
    function ToString(): string
      reads this
    {
      Join(lines, newLine)
    }

    /** Appends `line` and the line terminator to the text. */
    method AppendLine(line: string)
      modifies this
      ensures lines == old(lines) + [line]
      ensures ToString() == old(ToString()) + line + newLine
    {
      lines := lines + [line];
      assert lines[..|lines| - 1] == old(lines);
    }
  }

  /** The runtime type of a record, the key of the handler table. */
  datatype MetadataType = TableMetadataType | OtherMetadataType(typeName: string)

  function TypeOf(m: Metadata): MetadataType {
    match m
    case TableMetadata(_) => TableMetadataType
    case OtherMetadata(t) => OtherMetadataType(t)
  }

  datatype MetadataGeneratorHandler = TableMetadataGeneratorHandler

  /** The record type a handler casts its record to. */
  function HandledType(h: MetadataGeneratorHandler): MetadataType {
    match h
    case TableMetadataGeneratorHandler => TableMetadataType
  }

  /** The static handler table: exact runtime type to handler. */
  const Handlers: map<MetadataType, MetadataGeneratorHandler> := map[TableMetadataType := TableMetadataGeneratorHandler]

  /** The name under which the generated source is added. */
  const HintName: string := "PersistenceFrameworkGeneratedMappings.g.cs"

  datatype GeneratedSource = GeneratedSource(hintName: string, text: string)

  datatype EmitError = MissingHandler(recordType: MetadataType)

  const TableLinePrefix: string := "public const string TableName_"

  /** The constant declaration the table handler writes for a table named `name`. */
  function TableLine(name: string): string {
    TableLinePrefix + name + " = \"" + name + "\";"
  }

  /** The table handler's line depends on the name alone and tells names apart. */
  lemma TableLineInjective(a: string, b: string)
    requires TableLine(a) == TableLine(b)
    ensures a == b
  {
    assert |TableLine(a)| == 2 * |a| + |TableLinePrefix| + 6;
    assert |a| == |b|;
    assert TableLine(a)[|TableLinePrefix|..|TableLinePrefix| + |a|] == a;
    assert TableLine(b)[|TableLinePrefix|..|TableLinePrefix| + |b|] == b;
  }

  /** The lines `handler.Generate` appends for a record of its type. */
  function HandlerLines(handler: MetadataGeneratorHandler, metadata: Metadata): seq<string>
    requires TypeOf(metadata) == HandledType(handler)
  {
    match handler
    case TableMetadataGeneratorHandler => [TableLine(metadata.name)]
  }

  /** `MetadataGeneratorHandler.Generate`: appends the handler's line to `sb`. */
  method Generate(handler: MetadataGeneratorHandler, sb: StringBuilder, metadata: Metadata)
    requires TypeOf(metadata) == HandledType(handler)
    modifies sb
    ensures sb.lines == old(sb.lines) + HandlerLines(handler, metadata)
  {
    match handler
    case TableMetadataGeneratorHandler =>
      sb.AppendLine(TableLine(metadata.name));
  }

  /** Looking a record's type up in the handler table and generating its lines. */
  function Fragment(m: Metadata): (r: Result<seq<string>, EmitError>)
    ensures r.Err? <==> TypeOf(m) !in Handlers
    ensures r.Err? ==> r.error == MissingHandler(TypeOf(m))
    ensures m.TableMetadata? ==> r == Ok([TableLine(m.name)])
  {
    var t := TypeOf(m);
    if t in Handlers then
      assert HandledType(Handlers[t]) == t;
      Ok(HandlerLines(Handlers[t], m))
    else Err(MissingHandler(t))
  }

  /** The lines of all records, in order; the first record without a handler aborts. */
  function Fragments(records: seq<Metadata>): Result<seq<string>, EmitError>
    decreases |records|
  {
    if records == [] then Ok([])
    else match Fragments(records[..|records| - 1])
      case Err(e) => Err(e)
      case Ok(prefix) =>
        match Fragment(records[|records| - 1])
        case Err(e) => Err(e)
        case Ok(f) => Ok(prefix + f)
  }

  const NamespaceLine: string := "namespace PersistenceFramework.Generated"
  const ClassLine: string := "public static class GeneratedMappings"
  const OpenBrace: string := "{"
  const CloseBrace: string := "}"

  /** The four opening lines of the generated source. */
  const HeaderLines: seq<string> := [NamespaceLine, OpenBrace, ClassLine, OpenBrace]

  /** The two closing lines. */
  const FooterLines: seq<string> := [CloseBrace, CloseBrace]

  /** The specification of `Execute` on the flattened records. */
  function Emit(records: seq<Metadata>, newLine: string): Result<GeneratedSource, EmitError> {
    match Fragments(records)
    case Err(e) => Err(e)
    case Ok(body) => Ok(GeneratedSource(HintName, Join(HeaderLines + body + FooterLines, newLine)))
  }

  /** `properties.SelectMany(p => p)` */
  function Flatten(properties: seq<seq<Metadata>>): seq<Metadata> {
    if properties == [] then [] else properties[0] + Flatten(properties[1..])
  }

  /** Flattening distributes over concatenation, so call-site order is kept. */
  lemma {:induction false} FlattenAppend(a: seq<seq<Metadata>>, b: seq<seq<Metadata>>)
    ensures Flatten(a + b) == Flatten(a) + Flatten(b)
  {
    if a == [] {
      assert a + b == b;
    } else {
      assert (a + b)[1..] == a[1..] + b;
      FlattenAppend(a[1..], b);
    }
  }

  /** Flattening loses and invents no record. */
  lemma {:induction false} FlattenMembers(properties: seq<seq<Metadata>>)
    ensures forall m :: m in Flatten(properties) <==> exists p :: p in properties && m in p
  {
    if properties != [] {
      FlattenMembers(properties[1..]);
      assert forall p :: p in properties <==> p == properties[0] || p in properties[1..];
    }
  }

  /** The lines of a concatenation are the concatenated lines; the first failure wins. */
  lemma {:induction false} FragmentsAppend(a: seq<Metadata>, b: seq<Metadata>)
    ensures Fragments(a + b) ==
      match Fragments(a)
      case Err(e) => Err(e)
      case Ok(x) =>
        match Fragments(b)
        case Err(e) => Err(e)
        case Ok(y) => Ok(x + y)
    decreases |b|
  {
    if b == [] {
      assert a + b == a;
      match Fragments(a)
      case Err(_) =>
      case Ok(x) => assert x + [] == x;
    } else {
      var b' := b[..|b| - 1];
      assert (a + b)[..|a + b| - 1] == a + b';
      assert (a + b)[|a + b| - 1] == b[|b| - 1];
      FragmentsAppend(a, b');
      match Fragments(a)
      case Err(_) =>
      case Ok(x) =>
        match Fragments(b')
        case Err(_) =>
        case Ok(y) =>
          match Fragment(b[|b| - 1])
          case Err(_) =>
          case Ok(f) => assert x + y + f == x + (y + f);
    }
  }

  /** Emission fails exactly when some record's type has no handler, naming the first such type. */
  lemma {:induction false} FragmentsFailIff(records: seq<Metadata>)
    ensures Fragments(records).Err? <==> exists i :: 0 <= i < |records| && TypeOf(records[i]) !in Handlers
    ensures Fragments(records).Err? ==>
      exists i :: 0 <= i < |records| && Fragments(records).error == MissingHandler(TypeOf(records[i]))
        && TypeOf(records[i]) !in Handlers
        && forall j :: 0 <= j < i ==> TypeOf(records[j]) in Handlers
    decreases |records|
  {
    if records != [] {
      var p := records[..|records| - 1];
      FragmentsFailIff(p);
      assert forall i :: 0 <= i < |p| ==> p[i] == records[i];
    }
  }

  /** With only table records, there is exactly one constant declaration per record, in order. */
  lemma {:induction false} FragmentsOfTables(records: seq<Metadata>)
    requires forall i :: 0 <= i < |records| ==> records[i].TableMetadata?
    ensures Fragments(records).Ok?
    ensures |Fragments(records).value| == |records|
    ensures forall i :: 0 <= i < |records| ==> Fragments(records).value[i] == TableLine(records[i].name)
    decreases |records|
  {
    if records != [] {
      var p := records[..|records| - 1];
      FragmentsOfTables(p);
      assert forall i :: 0 <= i < |p| ==> p[i] == records[i];
    }
  }

  /** One more record: its lines are appended, or its missing handler decides the whole result. */
  lemma FragmentsExtend(records: seq<Metadata>, i: nat)
    requires i < |records| && Fragments(records[..i]).Ok?
    ensures TypeOf(records[i]) in Handlers ==>
      Fragments(records[..i + 1]) == Ok(Fragments(records[..i]).value + Fragment(records[i]).value)
    ensures TypeOf(records[i]) !in Handlers ==>
      Fragments(records) == Err(MissingHandler(TypeOf(records[i])))
  {
    assert records[..i + 1][..i] == records[..i];
    if TypeOf(records[i]) !in Handlers {
      FragmentsAppend(records[..i + 1], records[i + 1..]);
      assert records[..i + 1] + records[i + 1..] == records;
    }
  }

  /** The header is four lines. */
  lemma HeaderText(newLine: string)
    ensures Join(HeaderLines, newLine)
         == NamespaceLine + newLine + OpenBrace + newLine + ClassLine + newLine + OpenBrace + newLine
  {
    var nl := newLine;
    JoinSingle(NamespaceLine, nl);
    assert [NamespaceLine, OpenBrace][..1] == [NamespaceLine];
    assert Join([NamespaceLine, OpenBrace], nl) == NamespaceLine + nl + OpenBrace + nl;
    assert [NamespaceLine, OpenBrace, ClassLine][..2] == [NamespaceLine, OpenBrace];
    assert Join([NamespaceLine, OpenBrace, ClassLine], nl) == NamespaceLine + nl + OpenBrace + nl + ClassLine + nl;
    assert HeaderLines[..3] == [NamespaceLine, OpenBrace, ClassLine];
  }

  /** The footer is two closing lines. */
  lemma FooterText(newLine: string)
    ensures Join(FooterLines, newLine) == CloseBrace + newLine + CloseBrace + newLine
  {
    JoinSingle(CloseBrace, newLine);
    assert FooterLines[..1] == [CloseBrace];
  }

  /** The text is the header's text, then the handlers' lines, then the footer's text. */
  lemma EmitText(records: seq<Metadata>, newLine: string)
    requires Fragments(records).Ok?
    ensures Emit(records, newLine) == Ok(GeneratedSource(HintName,
      Join(HeaderLines, newLine) + Join(Fragments(records).value, newLine) + Join(FooterLines, newLine)))
  {
    var body := Fragments(records).value;
    JoinAppend(HeaderLines + body, FooterLines, newLine);
    JoinAppend(HeaderLines, body, newLine);
  }

  /** With no records, only the skeleton is emitted. */
  lemma EmitNoRecords(newLine: string)
    ensures Emit([], newLine) == Ok(GeneratedSource(HintName,
      NamespaceLine + newLine + OpenBrace + newLine + ClassLine + newLine + OpenBrace + newLine
      + CloseBrace + newLine + CloseBrace + newLine))
  {
    assert Fragments([]) == Ok([]);
    assert HeaderLines + [] + FooterLines == HeaderLines + FooterLines;
    JoinAppend(HeaderLines, FooterLines, newLine);
    HeaderText(newLine);
    FooterText(newLine);
    var h := Join(HeaderLines, newLine);
    assert h + "" == h;
    assert h + (CloseBrace + newLine + CloseBrace + newLine) == h + CloseBrace + newLine + CloseBrace + newLine;
  }

  /**
   * `Execute`: writes the header, the lines of every record in flattened
   * order through the handler registered for its exact type, and the two
   * closing lines. A record type without a handler aborts before any source
   * is added.
   */
  method Execute(properties: seq<seq<Metadata>>, newLine: string) returns (r: Result<GeneratedSource, EmitError>)
    ensures r == Emit(Flatten(properties), newLine)
  {
    var sb := new StringBuilder(newLine);
    sb.AppendLine(NamespaceLine);
    sb.AppendLine(OpenBrace);
    sb.AppendLine(ClassLine);
    sb.AppendLine(OpenBrace);
    var records := Flatten(properties);
    ghost var body := [];
    var i := 0;
    while i < |records|
      invariant 0 <= i <= |records|
      invariant Fragments(records[..i]) == Ok(body)
      invariant sb.lines == HeaderLines + body && sb.newLine == newLine
    {
      var metadata := records[i];
      if TypeOf(metadata) !in Handlers {
        FragmentsExtend(records, i);
        return Err(MissingHandler(TypeOf(metadata)));
      }
      var handler := Handlers[TypeOf(metadata)];
      Generate(handler, sb, metadata);
      FragmentsExtend(records, i);
      body := body + HandlerLines(handler, metadata);
      i := i + 1;
    }
    assert records[..i] == records;
    sb.AppendLine(CloseBrace);
    sb.AppendLine(CloseBrace);
    assert sb.lines == HeaderLines + body + FooterLines;
    r := Ok(GeneratedSource(HintName, sb.ToString()));
  }
}
