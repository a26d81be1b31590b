/** Schema metadata and its compact rendering for the prompt. */
module Schema {
  import opened Text

  datatype ColumnMeta = ColumnMeta(name: string, dataType: string, nullable: bool, isPk: bool, fkRef: Option<string>)

  /** Sample values of one column; a table's samples are in insertion order. */
  datatype Sample = Sample(column: string, values: seq<string>)

  datatype TableMeta = TableMeta(name: string, columns: seq<ColumnMeta>, rowCount: Option<int>, sample: seq<Sample>)

  /** `extractedAt` is the instant in ISO form. */
  datatype SchemaMetadata = SchemaMetadata(dbKey: string, dialect: string, tables: seq<TableMeta>, extractedAt: string)

  predicate SameName(a: string, b: string) { Lower(a) == Lower(b) }

  /** The first table of that name, ignoring case. */
  function FindTable(tables: seq<TableMeta>, name: string): (r: Option<TableMeta>)
    ensures r.Some? ==> r.value in tables && SameName(r.value.name, name)
    ensures r.None? <==> forall t | t in tables :: !SameName(t.name, name)
  {
    if tables == [] then None
    else if SameName(tables[0].name, name) then Some(tables[0])
    else FindTable(tables[1..], name)
  }

  function Take<T>(s: seq<T>, n: nat): (r: seq<T>)
    ensures |r| == if n < |s| then n else |s|
    ensures r <= s
  {
    if n < |s| then s[..n] else s
  }

  function Join(parts: seq<string>, separator: string): string {
    if parts == [] then ""
    else if |parts| == 1 then parts[0]
    else Join(parts[..|parts| - 1], separator) + separator + parts[|parts| - 1]
  }

  function RenderColumn(c: ColumnMeta): string {
    c.name + " " + c.dataType
    + (if c.isPk then " PK" else "")
    + (if c.fkRef.Some? && c.fkRef.value != "" then " FK->" + c.fkRef.value else "")
  }

  function ColumnTexts(columns: seq<ColumnMeta>): (r: seq<string>)
    ensures |r| == |columns|
  {
    seq(|columns|, i requires 0 <= i < |columns| => RenderColumn(columns[i]))
  }

  function QuotedList(values: seq<string>): string {
    "[" + Join(seq(|values|, i requires 0 <= i < |values| => "'" + values[i] + "'"), ", ") + "]"
  }

  function SampleTexts(sample: seq<Sample>): seq<string> {
    if sample == [] then []
    else
      var init := SampleTexts(sample[..|sample| - 1]);
      var last := sample[|sample| - 1];
      if last.values == [] then init else init + [last.column + "=" + QuotedList(Take(last.values, 5))]
  }

  function TableLines(t: TableMeta, maxColumns: nat): seq<string> {
    var head := "TABLE " + t.name + " (" + Join(ColumnTexts(Take(t.columns, maxColumns)), ", ") + ")";
    var samples := Join(SampleTexts(t.sample), "; ");
    if samples == "" then [head] else [head, "  samples: " + samples]
  }

  function Lines(tables: seq<TableMeta>, maxColumns: nat): seq<string> {
    if tables == [] then []
    else Lines(tables[..|tables| - 1], maxColumns) + TableLines(tables[|tables| - 1], maxColumns)
  }

  lemma NoLines(maxColumns: nat)
    ensures Lines([], maxColumns) == []
  {
  }

  lemma LinesStep(tables: seq<TableMeta>, maxColumns: nat, n: nat)
    requires n < |tables|
    ensures Lines(tables[..n + 1], maxColumns) == Lines(tables[..n], maxColumns) + TableLines(tables[n], maxColumns)
  {
    hide TableLines;
    assert tables[..n + 1][..n] == tables[..n];
  }

  const MAX_TABLES: nat := 200
  const MAX_COLUMNS: nat := 40

  /** What `Render` prints. */
  function Rendering(tables: seq<TableMeta>, maxTables: nat, maxColumns: nat): string {
    Join(Lines(Take(tables, maxTables), maxColumns), "\n")
  }

  method Render(tables: seq<TableMeta>, maxTables: nat := MAX_TABLES, maxColumns: nat := MAX_COLUMNS)
    returns (text: string)
    ensures text == Rendering(tables, maxTables, maxColumns)
  {
    hide Lines, TableLines;
    var shown, lines := Take(tables, maxTables), [];
    NoLines(maxColumns);
    for n := 0 to |shown|
      invariant lines == Lines(shown[..n], maxColumns)
    {
      LinesStep(shown, maxColumns, n);
      lines := lines + TableLines(shown[n], maxColumns);
    }
    assert shown[..|shown|] == shown;
    text := Join(lines, "\n");
  }
}
