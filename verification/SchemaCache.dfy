/** The schema cache: metadata flattened to keyed rows of an SQLite table and rebuilt from them. */
module SchemaCache {
  import opened Text
  import opened Sorting
  import opened Schema

  datatype Row = Row(
    dbKey: string, table: string, column: string, dataType: string, nullable: int, isPk: int,
    fkRef: Option<string>, samples: seq<string>, rowCount: Option<int>)

  // ---- The order of rows ----------------------------------------------------------------------

  function ColumnOrder(): (ColumnMeta, ColumnMeta) -> bool { (a: ColumnMeta, b: ColumnMeta) => LexLeq(a.name, b.name) }

  function TableOrder(): (TableMeta, TableMeta) -> bool { (a: TableMeta, b: TableMeta) => LexLeq(a.name, b.name) }

  predicate RowLeq(a: Row, b: Row) {
    LexLeq(a.table, b.table) && (a.table == b.table ==> LexLeq(a.column, b.column))
  }

  /** ORDER BY table_name, column_name */
  function RowOrder(): (Row, Row) -> bool { (a: Row, b: Row) => RowLeq(a, b) }

  lemma OrdersAreTotal()
    ensures TotalPreorder(ColumnOrder()) && TotalPreorder(TableOrder()) && TotalPreorder(RowOrder())
  {
    forall a, b ensures LexLeq(a, b) || LexLeq(b, a) { LexTotal(a, b); }
    forall a, b | LexLeq(a, b) && LexLeq(b, a) ensures a == b { LexAntisymmetric(a, b); }
    forall a, b, c | LexLeq(a, b) && LexLeq(b, c) ensures LexLeq(a, c) { LexTransitive(a, b, c); }
    forall a, b, c | RowLeq(a, b) && RowLeq(b, c) ensures RowLeq(a, c) {}
  }

  // ---- Saving ---------------------------------------------------------------------------------

  function SampleOf(sample: seq<Sample>, column: string): seq<string> {
    if sample == [] then []
    else if sample[0].column == column then sample[0].values
    else SampleOf(sample[1..], column)
  }

  function RowFor(dbKey: string, t: TableMeta, c: ColumnMeta): Row {
    Row(dbKey, t.name, c.name, c.dataType, if c.nullable then 1 else 0, if c.isPk then 1 else 0,
        c.fkRef, SampleOf(t.sample, c.name), t.rowCount)
  }

  function TableRows(dbKey: string, t: TableMeta, columns: seq<ColumnMeta>): (r: seq<Row>)
    ensures |r| == |columns|
  {
    if columns == [] then []
    else TableRows(dbKey, t, columns[..|columns| - 1]) + [RowFor(dbKey, t, columns[|columns| - 1])]
  }

  function RowsOf(dbKey: string, tables: seq<TableMeta>): seq<Row> {
    if tables == [] then []
    else
      var t := tables[|tables| - 1];
      RowsOf(dbKey, tables[..|tables| - 1]) + TableRows(dbKey, t, t.columns)
  }

  predicate SamePrimaryKey(a: Row, b: Row) {
    a.dbKey == b.dbKey && a.table == b.table && a.column == b.column
  }

  /** What the table's primary key guarantees. */
  predicate DistinctKeys(rows: seq<Row>) {
    forall i, j | 0 <= i < j < |rows| :: !SamePrimaryKey(rows[i], rows[j])
  }

  function Without(rows: seq<Row>, dbKey: string): seq<Row> {
    if rows == [] then []
    else
      var init := Without(rows[..|rows| - 1], dbKey);
      if rows[|rows| - 1].dbKey == dbKey then init else init + [rows[|rows| - 1]]
  }

  function Of(rows: seq<Row>, dbKey: string): seq<Row> {
    if rows == [] then []
    else
      var init := Of(rows[..|rows| - 1], dbKey);
      if rows[|rows| - 1].dbKey == dbKey then init + [rows[|rows| - 1]] else init
  }

  function Dropping(rows: seq<Row>, r: Row): seq<Row> {
    if rows == [] then []
    else
      var init := Dropping(rows[..|rows| - 1], r);
      if SamePrimaryKey(rows[|rows| - 1], r) then init else init + [rows[|rows| - 1]]
  }

  /** INSERT OR REPLACE, row by row. */
  function InsertAll(rows: seq<Row>, incoming: seq<Row>): seq<Row> {
    if incoming == [] then rows
    else
      var r := incoming[|incoming| - 1];
      Dropping(InsertAll(rows, incoming[..|incoming| - 1]), r) + [r]
  }

  // ---- Loading --------------------------------------------------------------------------------

  function ColumnOf(r: Row): ColumnMeta {
    ColumnMeta(r.column, r.dataType, r.nullable != 0, r.isPk != 0, r.fkRef)
  }

  function TableIndex(tables: seq<TableMeta>, name: string): (i: nat)
    ensures i <= |tables| && (i < |tables| ==> tables[i].name == name)
    ensures forall k | 0 <= k < i :: tables[k].name != name
  {
    if tables == [] || tables[0].name == name then 0 else 1 + TableIndex(tables[1..], name)
  }

  function SetSample(sample: seq<Sample>, column: string, values: seq<string>): seq<Sample> {
    if sample == [] then [Sample(column, values)]
    else if sample[0].column == column then [Sample(column, values)] + sample[1..]
    else [sample[0]] + SetSample(sample[1..], column, values)
  }

  function Extended(t: TableMeta, r: Row): TableMeta {
    t.(columns := t.columns + [ColumnOf(r)], sample := SetSample(t.sample, r.column, r.samples))
  }

  /** One row: its table is created at the end on first sight, then gains a column and its samples. */
  function AddRow(tables: seq<TableMeta>, r: Row): seq<TableMeta> {
    var i := TableIndex(tables, r.table);
    if i < |tables| then tables[i := Extended(tables[i], r)]
    else tables + [Extended(TableMeta(r.table, [], r.rowCount, []), r)]
  }

  function Grouped(rows: seq<Row>): seq<TableMeta> {
    if rows == [] then [] else AddRow(Grouped(rows[..|rows| - 1]), rows[|rows| - 1])
  }

  function Loaded(rows: seq<Row>, extractedAt: string, dbKey: string): Option<SchemaMetadata> {
    var mine := Sort(Of(rows, dbKey), RowOrder());
    if mine == [] then None else Some(SchemaMetadata(dbKey, "", Grouped(mine), extractedAt))
  }

  function SavedRows(rows: seq<Row>, meta: SchemaMetadata): seq<Row> {
    InsertAll(Without(rows, meta.dbKey), RowsOf(meta.dbKey, meta.tables))
  }

  // ---- The primary key ------------------------------------------------------------------------

  lemma {:induction false} WithoutKeepsKeys(rows: seq<Row>, dbKey: string)
    requires DistinctKeys(rows)
    ensures DistinctKeys(Without(rows, dbKey))
    ensures forall r | r in Without(rows, dbKey) :: r in rows
  {
    if rows == [] {
    } else {
      var n := |rows| - 1;
      WithoutKeepsKeys(rows[..n], dbKey);
      assert forall x | x in rows[..n] :: x in rows && !SamePrimaryKey(x, rows[n]);
    }
  }

  lemma {:induction false} DroppingKeepsKeys(rows: seq<Row>, r: Row)
    requires DistinctKeys(rows)
    ensures DistinctKeys(Dropping(rows, r))
    ensures forall x | x in Dropping(rows, r) :: x in rows && !SamePrimaryKey(x, r)
  {
    if rows == [] {
    } else {
      var n := |rows| - 1;
      DroppingKeepsKeys(rows[..n], r);
      assert forall x | x in rows[..n] :: x in rows && !SamePrimaryKey(x, rows[n]);
    }
  }

  /** INSERT OR REPLACE keeps primary keys distinct, whatever comes in. */
  lemma {:induction false} InsertKeepsKeys(rows: seq<Row>, incoming: seq<Row>)
    requires DistinctKeys(rows)
    ensures DistinctKeys(InsertAll(rows, incoming))
  {
    if incoming == [] {
    } else {
      var n := |incoming| - 1;
      InsertKeepsKeys(rows, incoming[..n]);
      DroppingKeepsKeys(InsertAll(rows, incoming[..n]), incoming[n]);
    }
  }

  lemma SavingKeepsKeys(rows: seq<Row>, meta: SchemaMetadata)
    requires DistinctKeys(rows)
    ensures DistinctKeys(SavedRows(rows, meta))
  {
    WithoutKeepsKeys(rows, meta.dbKey);
    InsertKeepsKeys(Without(rows, meta.dbKey), RowsOf(meta.dbKey, meta.tables));
  }

  // ---- Unfolding the loops by one step --------------------------------------------------------

  lemma SavingStarts(dbKey: string)
    ensures forall tables: seq<TableMeta> :: RowsOf(dbKey, tables[..0]) == []
  {
  }

  lemma TableRowsStart(dbKey: string, t: TableMeta)
    ensures TableRows(dbKey, t, t.columns[..0]) == []
  {
  }

  lemma TableRowsStep(dbKey: string, t: TableMeta, k: nat)
    requires k < |t.columns|
    ensures TableRows(dbKey, t, t.columns[..k + 1])
            == TableRows(dbKey, t, t.columns[..k]) + [RowFor(dbKey, t, t.columns[k])]
  {
    assert t.columns[..k + 1][..k] == t.columns[..k];
  }

  lemma AppendStep<T>(a: seq<T>, b: seq<T>, x: T)
    ensures a + b + [x] == a + (b + [x])
  {
  }

  lemma RowsStep(dbKey: string, tables: seq<TableMeta>, n: nat)
    requires n < |tables|
    ensures RowsOf(dbKey, tables[..n + 1])
            == RowsOf(dbKey, tables[..n]) + TableRows(dbKey, tables[n], tables[n].columns)
  {
    assert tables[..n + 1][..n] == tables[..n];
  }

  lemma InsertStart(kept: seq<Row>, incoming: seq<Row>)
    ensures InsertAll(kept, incoming[..0]) == kept
  {
  }

  lemma InsertStep(kept: seq<Row>, incoming: seq<Row>, n: nat)
    requires n < |incoming|
    ensures InsertAll(kept, incoming[..n + 1]) == Dropping(InsertAll(kept, incoming[..n]), incoming[n]) + [incoming[n]]
  {
    assert incoming[..n + 1][..n] == incoming[..n];
  }

  lemma NothingGrouped()
    ensures Grouped([]) == []
  {
  }

  lemma GroupedStep(rows: seq<Row>, n: nat)
    requires n < |rows|
    ensures Grouped(rows[..n + 1]) == AddRow(Grouped(rows[..n]), rows[n])
  {
    hide AddRow;
    assert rows[..n + 1][..n] == rows[..n];
  }

  class MetaDb {
    var rows: seq<Row>
    var extractedAt: Option<string>  // one instant, shared by all keys

    ghost predicate Valid()
      reads this
    {
      DistinctKeys(rows) && (rows != [] ==> extractedAt.Some?)
    }

    constructor ()
      ensures Valid() && rows == [] && extractedAt == None
    {
      rows, extractedAt := [], None;
    }

    method SaveSchema(meta: SchemaMetadata)
      requires Valid()
      modifies this
      ensures Valid()
      ensures rows == SavedRows(old(rows), meta)
      ensures extractedAt == Some(meta.extractedAt)
    {
      hide TableRows, RowsOf, RowFor, Without, Dropping, InsertAll, DistinctKeys;
      SavingKeepsKeys(rows, meta);
      var incoming := [];
      SavingStarts(meta.dbKey);
      for n := 0 to |meta.tables|
        invariant incoming == RowsOf(meta.dbKey, meta.tables[..n])
        invariant unchanged(this)
      {
        var t := meta.tables[n];
        ghost var before := incoming;
        TableRowsStart(meta.dbKey, t);
        for k := 0 to |t.columns|
          invariant incoming == before + TableRows(meta.dbKey, t, t.columns[..k])
          invariant unchanged(this)
        {
          TableRowsStep(meta.dbKey, t, k);
          AppendStep(before, TableRows(meta.dbKey, t, t.columns[..k]), RowFor(meta.dbKey, t, t.columns[k]));
          incoming := incoming + [RowFor(meta.dbKey, t, t.columns[k])];
        }
        FullPrefix(t.columns);
        RowsStep(meta.dbKey, meta.tables, n);
      }
      FullPrefix(meta.tables);
      rows := Without(rows, meta.dbKey);
      ghost var kept := rows;
      InsertStart(kept, incoming);
      for n := 0 to |incoming|
        invariant rows == InsertAll(kept, incoming[..n]) && extractedAt == old(extractedAt)
      {
        InsertStep(kept, incoming, n);
        rows := Dropping(rows, incoming[n]) + [incoming[n]];
      }
      FullPrefix(incoming);
      extractedAt := Some(meta.extractedAt);
    }

    method LoadSchema(dbKey: string, now: string) returns (r: Option<SchemaMetadata>)
      ensures r == Loaded(rows, if extractedAt.Some? then extractedAt.value else now, dbKey)
    {
      hide Grouped, AddRow, Sort, Of;
      var mine := Sort(Of(rows, dbKey), RowOrder());
      if mine == [] {
        return None;
      }
      var tables: seq<TableMeta> := [];
      NothingGrouped();
      for n := 0 to |mine|
        invariant tables == Grouped(mine[..n])
      {
        GroupedStep(mine, n);
        tables := AddRow(tables, mine[n]);
      }
      assert mine[..|mine|] == mine;
      return Some(SchemaMetadata(dbKey, "", tables, if extractedAt.Some? then extractedAt.value else now));
    }
  }
}
