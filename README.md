# PersistenceFramework source generator: a Dafny model

This project models the build-time metadata pipeline of the PersistenceFramework source generator.

Users describe database mappings with a small DSL: extension methods on `IMappingBuilder`, such as `builder.ToTable("Orders")`. At build time the generator does four things:

- It scans the syntax of the program for calls to those DSL methods.
- It replays each call against a capture builder, using the arguments' source text instead of their values.
- It collects the metadata records that the replays produce.
- It emits a generated class with one constant per table.

The model has six modules:

- `Results`: `Option` and `Result`, which stand in for the exceptions of the code.
- `Abstractions` (`IMappingBuilder.cs`): the `Metadata` records, the append-only `MappingBuilder` class and the `ToTable` operation.
- `Reflection`: the .NET reflection the generator uses, as explicit data. A `MethodInfo` descriptor holds the name, static flag, parameter types and a straight-line body of `AddMetadata` statements, any of which may instead raise (`Throw`). `Invoke` is modelled as a method over the `object[]` argument array, with `InvokeSpec` as its specification.
- `Generators` (`IncrementalGenerator.cs`, extraction half):
  - the constructor's filter, `MappingMethods`;
  - the syntactic predicate `IsMappingMethod`;
  - the argument alignment, `InvocationArguments`;
  - `Array.Copy`;
  - `Transform`, which is proved equal to the specification function `Replay`.
- `Emission` (`IncrementalGenerator.cs`, emission half):
  - the `StringBuilder`, modelled as the list of lines passed to `AppendLine`; its text is `Join` of those lines;
  - the handler table, keyed by exact record type;
  - the table handler's `Generate`;
  - `Execute`, which is proved equal to the specification function `Emit`.
- `Pipeline`: the `MappingBuilderExtensions` surface as reflection sees it, and one whole generator run, `RunGenerator`. The test project's input is worked through end to end in this module.

What the model keeps from the code:

- **First match.** Call sites are resolved by name only, to the first method with that name.
- **Alignment rule.** If the argument count equals the parameter count, copying starts at the second argument. Otherwise it starts at the first argument, and the copy fails when fewer than `n - 1` arguments exist.
- **Verbatim text.** Argument text is copied as written, so `"MyTable"` keeps its quotes. The generated line is therefore `public const string TableName_"MyTable" = ""MyTable"";` (`Pipeline.TestOutput`).
- **No recovery.** An exception in any replay, or a record type with no handler, aborts the whole run.

The code does not isolate a failing call site, does not re-sort the records, and does not sanitise the constant name. The model follows the code on all three. `Pipeline.OneFailingCallSiteAbortsRun` states the missing isolation, and `Pipeline.CandidatesAppend` with `Pipeline.TransformAllResults` and `Emission.FlattenAppend` state that records stay in discovery order.

## Model

| member | source | states |
|---|---|---|
| `Abstractions.MappingBuilder.constructor` | src/PersistenceFramework.Abstractions/IMappingBuilder.cs:10 | A new builder (or capture builder) holds no records. |
| `Abstractions.MappingBuilder.AddMetadata` | src/PersistenceFramework.Abstractions/IMappingBuilder.cs:12-15 | Appends exactly the given record at the end of the list. Earlier records are unchanged. The generator's capture builder (IncrementalGenerator.cs:33-41) is the same class. |
| `Abstractions.ToTable` | src/PersistenceFramework.Abstractions/IMappingBuilder.cs:20-24 | Appends one `TableMetadata` whose name is `table`, and returns the same builder. |
| `Abstractions.ToTableTwice` | src/PersistenceFramework.Abstractions/IMappingBuilder.cs:20-24 | Two chained `ToTable` calls leave both records on the builder, in call order. |
| `Reflection.RunBody` | src/PersistenceFramework.Generators/IncrementalGenerator.cs:102 | A body runs to completion exactly when every statement succeeds. It then appends one record per statement, in statement order. |
| `Reflection.RunBodyStopsAtFailure` | src/PersistenceFramework.Generators/IncrementalGenerator.cs:102 | After a statement raises, the rest of the body changes nothing. |
| `Reflection.RunBodyStep` | src/PersistenceFramework.Generators/IncrementalGenerator.cs:102 | Running one more statement either appends its record, or makes its failure the failure of the whole body. |
| `Reflection.Invoke` | src/PersistenceFramework.Generators/IncrementalGenerator.cs:102 | Returns the failure of `MethodInfo.Invoke`: an instance method with a null target, a wrong count, a wrong type, or an error in the body. The capture builder ends with exactly the records the body appended. |
| `Generators.MappingMethods` | src/PersistenceFramework.Generators/IncrementalGenerator.cs:47-55 | The registry holds exactly the methods that are static, have at least one parameter, and take `IMappingBuilder` first. |
| `Generators.MappingMethodsAppend` | src/PersistenceFramework.Generators/IncrementalGenerator.cs:52-54 | The filter keeps enumeration order: it distributes over concatenation. |
| `Generators.FirstNamed` | src/PersistenceFramework.Generators/IncrementalGenerator.cs:79 | Finds a method exactly when some method has the name. The one found has that name, and no earlier method does. |
| `Generators.FirstNamedIgnoresLater` | src/PersistenceFramework.Generators/IncrementalGenerator.cs:79 | Methods appended after a match never change which method is found. |
| `Generators.IsMappingMethod` | src/PersistenceFramework.Generators/IncrementalGenerator.cs:57-67 | True exactly for an invocation whose callee is a member access named like some registered method. It is false for every other node, and reads no mutable state. |
| `Generators.ConvertArgumentIgnoresLabel` | src/PersistenceFramework.Generators/IncrementalGenerator.cs:108-113 | `ConvertArgumentToString` (modelled by `Generators.ConvertArgumentToString`) returns the argument expression's source text unchanged, whatever its `name:` label. |
| `Generators.ArgumentTexts` | src/PersistenceFramework.Generators/IncrementalGenerator.cs:96 | `arguments.Select(ConvertArgumentToString)`: one text per argument, in argument order. Each text is its expression's source text, unchanged, and any `name:` label is dropped. |
| `Generators.InvocationArguments` | src/PersistenceFramework.Generators/IncrementalGenerator.cs:88-99 | The array has one slot per parameter, and slot 0 is the capture builder. With exactly `n` arguments, slot `i` gets argument `i`; otherwise slot `i` gets argument `i-1`. There are index and copy errors for zero parameters, or for fewer than `n-1` arguments when `n > 1`. A single-parameter method ignores its arguments, and trailing arguments are ignored. |
| `Generators.ArrayCopy` | src/PersistenceFramework.Generators/IncrementalGenerator.cs:98 | Either copies the texts into exactly the target range and leaves every other slot unchanged, or fails and copies nothing. It fails when a range overruns its array. |
| `Generators.Transform` | src/PersistenceFramework.Generators/IncrementalGenerator.cs:69-106 | Returns exactly `Replay`. That is: the first same-named method, the aligned array, and the records `Invoke` appended to the fresh capture builder, in append order; or the exception raised. |
| `Generators.CandidatesResolve` | src/PersistenceFramework.Generators/IncrementalGenerator.cs:57-79 | A node passes `IsMappingMethod` exactly when replaying it raises neither the cast exception nor the `First` exception. |
| `Generators.ReplayIgnoresLaterOverloads` | src/PersistenceFramework.Generators/IncrementalGenerator.cs:79 | For a candidate, adding same-named methods later in the registry never changes the replay. |
| `Emission.JoinAppend` | src/PersistenceFramework.Generators/IncrementalGenerator.cs:135-150 | The builder's text for two runs of `AppendLine` calls is the concatenation of their texts. |
| `Emission.StringBuilder.constructor` | src/PersistenceFramework.Generators/IncrementalGenerator.cs:135 | A new builder is empty and uses the given line terminator. |
| `Emission.StringBuilder.AppendLine` | src/PersistenceFramework.Generators/IncrementalGenerator.cs:136 | Adds one line, so the text grows by the line plus the terminator. |
| `Emission.TableLineInjective` | src/PersistenceFramework.Generators/IncrementalGenerator.cs:168 | Two table lines are equal only if their names are equal. |
| `Emission.Generate` | src/PersistenceFramework.Generators/IncrementalGenerator.cs:164-169 | The table handler appends exactly one line, `public const string TableName_{Name} = "{Name}";`, built from `Name` alone. |
| `Emission.Fragment` | src/PersistenceFramework.Generators/IncrementalGenerator.cs:143-144 | The lookup is by exact type: it fails, naming the type, exactly when the type has no handler. A table record yields its one line. |
| `Emission.FragmentsAppend` | src/PersistenceFramework.Generators/IncrementalGenerator.cs:141-145 | The lines for concatenated records are the concatenated lines. The first failure wins. |
| `Emission.FragmentsFailIff` | src/PersistenceFramework.Generators/IncrementalGenerator.cs:123-126 | Emission fails exactly when some record's type has no handler, and the error names the first such record's type. |
| `Emission.FragmentsOfTables` | src/PersistenceFramework.Generators/IncrementalGenerator.cs:141-145 | When every record is a table mapping, there is one constant line per record, at the same position. |
| `Emission.FragmentsExtend` | src/PersistenceFramework.Generators/IncrementalGenerator.cs:142-144 | One more record either appends its handler's lines, or its missing handler decides the whole result. |
| `Emission.FlattenAppend` | src/PersistenceFramework.Generators/IncrementalGenerator.cs:141 | `SelectMany` keeps discovery order: it distributes over concatenation of the per-site results. |
| `Emission.FlattenMembers` | src/PersistenceFramework.Generators/IncrementalGenerator.cs:141 | The flattened records are exactly the records of the individual call sites. |
| `Emission.HeaderText` | src/PersistenceFramework.Generators/IncrementalGenerator.cs:136-139 | The header text is the four fixed lines. |
| `Emission.FooterText` | src/PersistenceFramework.Generators/IncrementalGenerator.cs:147-148 | The footer text is two `}` lines. |
| `Emission.EmitText` | src/PersistenceFramework.Generators/IncrementalGenerator.cs:135-150 | The emitted text is the header, then the handlers' lines in record order, then the footer. |
| `Emission.EmitNoRecords` | src/PersistenceFramework.Generators/IncrementalGenerator.cs:135-150 | With zero records, only the six-line skeleton is emitted. |
| `Emission.Execute` | src/PersistenceFramework.Generators/IncrementalGenerator.cs:130-154 | Returns exactly `Emit` of the flattened records. That is the source named `PersistenceFrameworkGeneratedMappings.g.cs`, or the missing-handler error with no source. |
| `Pipeline.GeneratorRegistry` | src/PersistenceFramework.Generators/IncrementalGenerator.cs:128 | The shipped processor's registry is exactly `ToTable`, which has 2 parameters. The inherited instance methods are filtered out. |
| `Pipeline.ToTableMethodRecordsTable` | src/PersistenceFramework.Abstractions/IMappingBuilder.cs:20-24 | Invoking `ToTable`'s descriptor records exactly one table named by its text argument. |
| `Pipeline.ToTableDescriptorAgrees` | src/PersistenceFramework.Abstractions/IMappingBuilder.cs:20-24 | Invoking the reflected `ToTable` descriptor on a fresh capture builder and calling `Abstractions.ToTable` on a fresh builder leave the same list, `[TableMetadata(t)]`. |
| `Pipeline.ToTableCallRecordsTable` | src/PersistenceFramework.Generators/IncrementalGenerator.cs:94-98 | `b.ToTable(t)` (start index 0) and `MappingBuilderExtensions.ToTable(b, t)` (start index 1) both replay to `[TableMetadata(t)]`, with `t` verbatim. |
| `Pipeline.ToTableMisalignedCalls` | src/PersistenceFramework.Generators/IncrementalGenerator.cs:94-98 | With no argument the copy fails. With three arguments, the first one is recorded. |
| `Pipeline.Candidates` | src/PersistenceFramework.Generators/IncrementalGenerator.cs:21-24 | Scanning keeps exactly the nodes that pass `IsMappingMethod`, and never more nodes than it was given. |
| `Pipeline.CandidatesAppend` | src/PersistenceFramework.Generators/IncrementalGenerator.cs:21-24 | Scanning keeps discovery order: the candidates of concatenated node lists are the concatenated candidates, so nothing is reordered, dropped or repeated. |
| `Pipeline.TransformAllResults` | src/PersistenceFramework.Generators/IncrementalGenerator.cs:21-24 | Collection succeeds exactly when every candidate's replay succeeds. It then holds each candidate's records, in discovery order. |
| `Pipeline.OneFailingCallSiteAbortsRun` | src/PersistenceFramework.Generators/IncrementalGenerator.cs:17-30 | A single failing call site makes the whole run fail. There is no isolation. |
| `Pipeline.TestReplay` | test/PersistenceFramework.Generators.Tests/Tests/TableMetadataTests.cs:9-23 | In the test input, only the `ToTable` call is a candidate, and it records the text `"MyTable"` with its quotes. |
| `Pipeline.TestOutput` | test/PersistenceFramework.Generators.Tests/Tests/TableMetadataTests.cs:9-23 | The generated source for the test input, line by line. |

## Left out

- Host incremental wiring (`Initialize`, `CreateSyntaxProvider`, `Collect`, `Combine`, `RegisterSourceOutput`): it is host-engine plumbing and caching. `Pipeline.RunGenerator` only composes scan, replay, collect and emit for one run. An exception anywhere aborts that run.
- `SourceText.From`, UTF-8 encoding and `context.AddSource`: these are output I/O. `Execute` returns the `GeneratedSource` (hint name and text) that would be added.
- The unused `Compilation` parameter and the `CancellationToken` parameters: their values have no effect.
- `Environment.NewLine`: it is environment-dependent, so it is the `newLine` parameter of `Execute`.
- The `IMappingBuilder` interface, which has two implementations: one class, `Abstractions.MappingBuilder`, models both, because they behave identically.
- `StringBuilder` is modelled only through `AppendLine` and `ToString`, the two operations the generator uses.
- Real .NET reflection (`GetMethods`, `GetParameters`, `MethodInfo.Invoke`): these are foreign calls. They are replaced by explicit `MethodInfo` descriptors, whose bodies are straight-line `AddMetadata` statements, any of which may instead raise (`Throw`).
- `Reflection.Invoke`: argument conversion is reduced to string, builder and null checks. Value types and other conversions are not modelled.
- Enumeration order of `GetMethods()`: it is unspecified in .NET. The descriptor list fixes one order.
- A null text never reaches an invoked body, because `Transform` fills every slot. A body that reads a non-text slot fails, instead of building a record with a null name.
- Syntax-node details are reduced to the member name and the argument expression texts: trivia, generic type arguments in names, and `ref`/`out` keywords.
- Exception types and messages: each exception is a constructor of `TransformError`, `InvokeError` or `EmitError`.
- Test infrastructure (`ModuleInitializer`, snapshot verification): it is not part of the generator. The test input appears only as the example in `Pipeline.TestNodes`.
- Three exception paths that the generator cannot reach:
  - `Emission.Generate` requires a table record, so the failing cast `(TableMetadata)metadata` (IncrementalGenerator.cs:166) is not modelled. The handler lookup at IncrementalGenerator.cs:143 only ever passes a table record to this handler.
  - `Abstractions.ToTable` on a null builder throws `NullReferenceException` (IMappingBuilder.cs:22). This is not modelled, because Dafny references cannot be null.
  - A null `table` gives a record with a null `Name`. This is not modelled, because Dafny strings cannot be null.
