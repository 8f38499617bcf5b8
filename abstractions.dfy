/**
 * The mapping DSL surface: metadata records, the builder that collects them,
 * and the `ToTable` extension operation.
 */
module Abstractions {

  /**
   * A metadata record. `TableMetadata` is the only record type the DSL
   * defines; `OtherMetadata` stands for any other class implementing
   * `IMetadata`, identified by its type name (the generator has no handler
   * for it). Records are values: `TableMetadata`'s name has no setter.
   */
  datatype Metadata =
    | TableMetadata(name: string)
    | OtherMetadata(typeName: string)

  /**
   * An `IMappingBuilder`: a list of records that only grows by appending.
   * Both implementations in the system (the runtime `MappingBuilder` and the
   * generator's capture builder) behave exactly like this.
   */
  class MappingBuilder {
    var metadataCollection: seq<Metadata>

    constructor ()
      ensures metadataCollection == []
    {
      metadataCollection := [];
    }

    /** Appends exactly one record at the end; earlier records are unchanged. */
    method AddMetadata(metadata: Metadata)
      modifies this
      ensures metadataCollection == old(metadataCollection) + [metadata]
    {
      metadataCollection := metadataCollection + [metadata];
    }
  }

  /**
   * `builder.ToTable(table)`: records one table mapping named `table` and
   * returns the same builder, so chained calls accumulate in call order.
   */
  method ToTable(builder: MappingBuilder, table: string) returns (r: MappingBuilder)
    modifies builder
    ensures r == builder
    ensures builder.metadataCollection == old(builder.metadataCollection) + [TableMetadata(table)]
  {
    builder.AddMetadata(TableMetadata(table));
    r := builder;
  }

  /** Two chained calls leave both records, in call order. */
  method ToTableTwice(builder: MappingBuilder, first: string, second: string) returns (r: MappingBuilder)
    modifies builder
    ensures r == builder
    ensures builder.metadataCollection
         == old(builder.metadataCollection) + [TableMetadata(first), TableMetadata(second)]
  {
    var b := ToTable(builder, first);
    r := ToTable(b, second);
  }
}
