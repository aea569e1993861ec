/** The table the charts read. OwidTable is immutable: each transform returns a
    new derived table. Its internals (error marking, interpolation, percentages,
    time domains, colour and label lookups) are not part of this model, so a table
    is represented freely, as the table it was derived from plus the transforms
    applied to it in order, and everything read out of a table comes from a
    `TableReader` whose functions are left uninterpreted. */
module OwidTable {
  import opened Util
  import opened Axes

  type Slug = string
  type EntityName = string

  /** The OwidTable transforms the stacked charts call, with their arguments. */
  datatype TableOp =
    | FilterByEntityNames(names: seq<EntityName>)
    | ReplaceNonNumericCellsWithErrorValues(columnSlugs: seq<Slug>)
    | DropRowsWithErrorValuesForAllColumns(columnSlugs: seq<Slug>)
    | InterpolateColumnLinearly(slug: Slug)
    | DropRowsWithErrorValuesForAnyColumn(columnSlugs: seq<Slug>)
      /** `yColumnSlugs[0]`, which is `undefined` when there are no slugs. */
    | ToPercentageFromEachEntityForEachTime(firstSlug: Option<Slug>)
    | ToPercentageFromEachColumnForEachEntityAndTime(columnSlugs: seq<Slug>)

  /** A table: the table it was loaded as, then the transforms applied, oldest first. */
  datatype Table = Table(source: nat, ops: seq<TableOp>) {
    /** The derived table `op` returns. */
    function Then(op: TableOp): Table {
      Table(source, ops + [op])
    }
  }

  /** One row of a column: `{ entityName, time, value }`. */
  datatype Row = Row(entityName: EntityName, time: int, value: real)

  /** The parts of a column the charts read. */
  datatype Column = Column(
    displayName: string,
    isProjection: bool,
    owidRows: seq<Row>,
    owidRowsByEntityName: map<EntityName, seq<Row>>)

  /** `owidRowsByEntityName.get(name) || []`: an entity without rows reads as no rows. */
  function RowsForEntity(column: Column, name: EntityName): (rows: seq<Row>)
    ensures name !in column.owidRowsByEntityName ==> rows == []
    ensures name in column.owidRowsByEntityName ==> rows == column.owidRowsByEntityName[name]
  {
    if name in column.owidRowsByEntityName then column.owidRowsByEntityName[name] else []
  }

  /** What the charts read out of a table, left uninterpreted. */
  datatype TableReader = TableReader(
    getColumn: (Table, Slug) -> Column,
    colorForEntityName: (Table, EntityName) -> Option<Color>,
    colorForColumnByDisplayName: (Table, string) -> Option<Color>,
    timeDomainFor: (Table, seq<Slug>) -> Domain,
    labelForEntityName: (Table, EntityName) -> string)

  /** `table.getColumns(slugs)`: one column per slug, in slug order. */
  function GetColumns(reader: TableReader, table: Table, slugs: seq<Slug>): (columns: seq<Column>)
    ensures |columns| == |slugs|
    ensures forall i :: 0 <= i < |slugs| ==> columns[i] == reader.getColumn(table, slugs[i])
  {
    seq(|slugs|, i requires 0 <= i < |slugs| => reader.getColumn(table, slugs[i]))
  }
}
