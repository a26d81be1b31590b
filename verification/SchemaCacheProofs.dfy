/** The schema cache is a round trip up to a precise normal form. */
module SchemaCacheProofs {
  import opened Text
  import opened Sorting
  import opened Schema
  import opened SchemaCache

  predicate UniqueColumns(columns: seq<ColumnMeta>) {
    forall i, j | 0 <= i < j < |columns| :: columns[i].name != columns[j].name
  }

  predicate UniqueTables(tables: seq<TableMeta>) {
    forall i, j | 0 <= i < j < |tables| :: tables[i].name != tables[j].name
  }

  /** What a database catalogue guarantees: no table twice, no column twice in a table. */
  predicate Unique(tables: seq<TableMeta>) {
    UniqueTables(tables) && forall t | t in tables :: UniqueColumns(t.columns)
  }

  // ---- The normal form ------------------------------------------------------------------------

  function Aligned(sample: seq<Sample>, columns: seq<ColumnMeta>): (r: seq<Sample>)
    ensures |r| == |columns|
  {
    if columns == [] then []
    else
      var c := columns[|columns| - 1];
      Aligned(sample, columns[..|columns| - 1]) + [Sample(c.name, SampleOf(sample, c.name))]
  }

  /** Columns by name, and one sample list per column, empty where there was none. */
  function NormalTable(t: TableMeta): TableMeta {
    var columns := Sort(t.columns, ColumnOrder());
    TableMeta(t.name, columns, t.rowCount, Aligned(t.sample, columns))
  }

  function NormalTables(tables: seq<TableMeta>): seq<TableMeta> {
    if tables == [] then []
    else
      var init, t := NormalTables(tables[..|tables| - 1]), tables[|tables| - 1];
      if t.columns == [] then init else init + [NormalTable(t)]
  }

  /** The tables that have columns, by name. */
  function NormalForm(tables: seq<TableMeta>): seq<TableMeta> {
    Sort(NormalTables(tables), TableOrder())
  }

  // ---- Saving fresh rows ----------------------------------------------------------------------

  lemma DroppingSnoc(rows: seq<Row>, x: Row, r: Row)
    requires !SamePrimaryKey(x, r)
    ensures Dropping(rows + [x], r) == Dropping(rows, r) + [x]
  {
    assert (rows + [x])[..|rows|] == rows;
  }

  lemma {:induction false} DroppingNothing(rows: seq<Row>, r: Row)
    requires forall x | x in rows :: !SamePrimaryKey(x, r)
    ensures Dropping(rows, r) == rows
  {
    hide SamePrimaryKey;
    if rows == [] {
    } else {
      var n := |rows| - 1;
      DroppingNothing(rows[..n], r);
      PrefixStep(rows, n);
      FullPrefix(rows);
      DroppingSnoc(rows[..n], rows[n], r);
    }
  }

  lemma {:induction false} InsertFresh(kept: seq<Row>, rows: seq<Row>, dbKey: string)
    requires DistinctKeys(rows) && forall r | r in rows :: r.dbKey == dbKey
    requires forall r | r in kept :: r.dbKey != dbKey
    ensures InsertAll(kept, rows) == kept + rows
  {
    hide Dropping;
    if rows == [] {
    } else {
      var n := |rows| - 1;
      var init, r := rows[..n], rows[n];
      assert r in rows && forall x | x in init :: x in rows;
      InsertFresh(kept, init, dbKey);
      forall x | x in kept + init ensures !SamePrimaryKey(x, r) {
        if x in init {
          var k :| 0 <= k < n && init[k] == x;
          assert !SamePrimaryKey(rows[k], rows[n]);
        }
      }
      DroppingNothing(kept + init, r);
      PrefixStep(rows, n);
      FullPrefix(rows);
      AppendStep(kept, init, r);
    }
  }

  lemma {:induction false} WithoutRemoves(rows: seq<Row>, dbKey: string)
    ensures forall r | r in Without(rows, dbKey) :: r.dbKey != dbKey
  {
    if rows == [] {
    } else {
      WithoutRemoves(rows[..|rows| - 1], dbKey);
    }
  }

  lemma {:induction false} OfConcat(a: seq<Row>, b: seq<Row>, dbKey: string)
    ensures Of(a + b, dbKey) == Of(a, dbKey) + Of(b, dbKey)
  {
    if b == [] {
      assert a + b == a;
    } else {
      OfConcat(a, b[..|b| - 1], dbKey);
      assert (a + b)[..|a + b| - 1] == a + b[..|b| - 1];
    }
  }

  lemma {:induction false} OfAllOrNone(rows: seq<Row>, dbKey: string)
    ensures (forall r | r in rows :: r.dbKey == dbKey) ==> Of(rows, dbKey) == rows
    ensures (forall r | r in rows :: r.dbKey != dbKey) ==> Of(rows, dbKey) == []
  {
    if rows == [] {
    } else {
      var n := |rows| - 1;
      OfAllOrNone(rows[..n], dbKey);
      assert rows[n] in rows && rows == rows[..n] + [rows[n]];
    }
  }

  // ---- The rows of a schema -------------------------------------------------------------------

  lemma {:induction false} TableRowsMembers(dbKey: string, t: TableMeta, columns: seq<ColumnMeta>)
    ensures forall i | 0 <= i < |columns| :: TableRows(dbKey, t, columns)[i] == RowFor(dbKey, t, columns[i])
  {
    if columns == [] {
    } else {
      TableRowsMembers(dbKey, t, columns[..|columns| - 1]);
    }
  }

  lemma {:induction false} RowOrigin(dbKey: string, tables: seq<TableMeta>, r: Row)
    requires r in RowsOf(dbKey, tables)
    ensures r.dbKey == dbKey
    ensures exists t, c :: t in tables && c in t.columns && r == RowFor(dbKey, t, c)
  {
    var n := |tables| - 1;
    var t := tables[n];
    if r in RowsOf(dbKey, tables[..n]) {
      RowOrigin(dbKey, tables[..n], r);
      var t', c :| t' in tables[..n] && c in t'.columns && r == RowFor(dbKey, t', c);
      assert t' in tables;
    } else {
      TableRowsMembers(dbKey, t, t.columns);
      var i :| 0 <= i < |t.columns| && TableRows(dbKey, t, t.columns)[i] == r;
      assert t in tables && t.columns[i] in t.columns;
    }
  }

  lemma {:induction false} RowsAreDistinct(dbKey: string, tables: seq<TableMeta>)
    requires Unique(tables)
    ensures DistinctKeys(RowsOf(dbKey, tables))
  {
    if tables == [] {
    } else {
      var n := |tables| - 1;
      var t, init := tables[n], tables[..n];
      assert t in tables && forall x | x in init :: x in tables;
      RowsAreDistinct(dbKey, init);
      TableRowsMembers(dbKey, t, t.columns);
      var before, rows := RowsOf(dbKey, init), RowsOf(dbKey, tables);
      forall i, j | 0 <= i < j < |rows| ensures !SamePrimaryKey(rows[i], rows[j]) {
        if i < |before| <= j {
          assert before[i] in before;
          RowOrigin(dbKey, init, before[i]);
        }
      }
    }
  }

  /** Rows that tie in the order are the same row. */
  lemma TiesAreEqual(rows: seq<Row>, dbKey: string)
    requires DistinctKeys(rows) && forall r | r in rows :: r.dbKey == dbKey
    ensures forall x, y | x in rows && y in rows :: RowLeq(x, y) && RowLeq(y, x) ==> x == y
  {
    forall x, y | x in rows && y in rows && RowLeq(x, y) && RowLeq(y, x) ensures x == y {
      LexAntisymmetric(x.table, y.table);
      LexAntisymmetric(x.column, y.column);
      var i :| 0 <= i < |rows| && rows[i] == x;
      var j :| 0 <= j < |rows| && rows[j] == y;
      assert SamePrimaryKey(rows[i], rows[j]) && SamePrimaryKey(rows[j], rows[i]);
    }
  }

  // ---- Rearranging tables and columns rearranges the rows -------------------------------------

  lemma {:induction false} RowsOfConcat(dbKey: string, a: seq<TableMeta>, b: seq<TableMeta>)
    ensures RowsOf(dbKey, a + b) == RowsOf(dbKey, a) + RowsOf(dbKey, b)
  {
    if b == [] {
      assert a + b == a;
    } else {
      RowsOfConcat(dbKey, a, b[..|b| - 1]);
      assert (a + b)[..|a + b| - 1] == a + b[..|b| - 1];
    }
  }

  lemma RowsOfOne(dbKey: string, t: TableMeta)
    ensures RowsOf(dbKey, [t]) == TableRows(dbKey, t, t.columns)
  {
    assert [t][..0] == [];
  }

  lemma {:induction false} RowsBagOfTables(dbKey: string, a: seq<TableMeta>, b: seq<TableMeta>)
    requires multiset(a) == multiset(b)
    ensures multiset(RowsOf(dbKey, a)) == multiset(RowsOf(dbKey, b))
  {
    if a == [] {
      assert |multiset(b)| == 0;
    } else {
      var i := TakeOut(a, b);
      var rest := b[..i] + b[i + 1..];
      RowsBagOfTables(dbKey, a[..|a| - 1], rest);
      RowsOfConcat(dbKey, b[..i], b[i + 1..]);
      RowsOfConcat(dbKey, b[..i] + [b[i]], b[i + 1..]);
      RowsOfConcat(dbKey, b[..i], [b[i]]);
      RowsOfOne(dbKey, b[i]);
    }
  }

  lemma {:induction false} TableRowsConcat(dbKey: string, t: TableMeta, a: seq<ColumnMeta>, b: seq<ColumnMeta>)
    ensures TableRows(dbKey, t, a + b) == TableRows(dbKey, t, a) + TableRows(dbKey, t, b)
  {
    if b == [] {
      assert a + b == a;
    } else {
      TableRowsConcat(dbKey, t, a, b[..|b| - 1]);
      assert (a + b)[..|a + b| - 1] == a + b[..|b| - 1];
    }
  }

  lemma {:induction false} RowsBagOfColumns(dbKey: string, t: TableMeta, a: seq<ColumnMeta>, b: seq<ColumnMeta>)
    requires multiset(a) == multiset(b)
    ensures multiset(TableRows(dbKey, t, a)) == multiset(TableRows(dbKey, t, b))
  {
    if a == [] {
      assert |multiset(b)| == 0;
    } else {
      var i := TakeOut(a, b);
      RowsBagOfColumns(dbKey, t, a[..|a| - 1], b[..i] + b[i + 1..]);
      TableRowsConcat(dbKey, t, b[..i], b[i + 1..]);
      TableRowsConcat(dbKey, t, b[..i] + [b[i]], b[i + 1..]);
      TableRowsConcat(dbKey, t, b[..i], [b[i]]);
      assert TableRows(dbKey, t, [b[i]]) == [RowFor(dbKey, t, b[i])] by { assert [b[i]][..0] == []; }
    }
  }

  lemma {:induction false} AlignedAnswers(sample: seq<Sample>, columns: seq<ColumnMeta>, c: ColumnMeta)
    requires c in columns
    ensures SampleOf(Aligned(sample, columns), c.name) == SampleOf(sample, c.name)
  {
    var n := |columns| - 1;
    var last := columns[n];
    var init := Aligned(sample, columns[..n]);
    SampleOfAppend(init, Sample(last.name, SampleOf(sample, last.name)), c.name);
    if c in columns[..n] {
      AlignedAnswers(sample, columns[..n], c);
      AlignedKnows(sample, columns[..n], c);
    } else {
      AlignedKnowsOnly(sample, columns[..n], c.name);
    }
  }

  predicate Knows(sample: seq<Sample>, column: string) {
    exists i :: 0 <= i < |sample| && sample[i].column == column
  }

  lemma {:induction false} SampleOfAppend(sample: seq<Sample>, s: Sample, column: string)
    ensures SampleOf(sample + [s], column)
            == if Knows(sample, column) then SampleOf(sample, column)
               else if s.column == column then s.values else []
  {
    if sample == [] {
    } else {
      assert (sample + [s])[1..] == sample[1..] + [s];
      SampleOfAppend(sample[1..], s, column);
      assert forall i | 0 < i < |sample| :: sample[i] == sample[1..][i - 1];
    }
  }

  lemma {:induction false} AlignedKnows(sample: seq<Sample>, columns: seq<ColumnMeta>, c: ColumnMeta)
    requires c in columns
    ensures Knows(Aligned(sample, columns), c.name)
  {
    AlignedColumns(sample, columns);
    var i :| 0 <= i < |columns| && columns[i] == c;
    assert Aligned(sample, columns)[i].column == c.name;
  }

  lemma {:induction false} AlignedColumns(sample: seq<Sample>, columns: seq<ColumnMeta>)
    ensures forall i | 0 <= i < |columns| :: Aligned(sample, columns)[i].column == columns[i].name
  {
    if columns == [] {
    } else {
      AlignedColumns(sample, columns[..|columns| - 1]);
    }
  }

  /** A name the alignment knows belongs to some column, which then has the same samples. */
  lemma {:induction false} AlignedKnowsOnly(sample: seq<Sample>, columns: seq<ColumnMeta>, name: string)
    ensures Knows(Aligned(sample, columns), name)
            ==> SampleOf(Aligned(sample, columns), name) == SampleOf(sample, name)
  {
    if columns == [] {
    } else {
      var n := |columns| - 1;
      AlignedKnowsOnly(sample, columns[..n], name);
      var init, last := Aligned(sample, columns[..n]), columns[n];
      SampleOfAppend(init, Sample(last.name, SampleOf(sample, last.name)), name);
      assert forall i | 0 <= i < n :: Aligned(sample, columns)[i] == init[i];
    }
  }

  lemma {:induction false} SameRowsForNormalTable(dbKey: string, t: TableMeta, columns: seq<ColumnMeta>)
    requires forall c | c in columns :: c in NormalTable(t).columns
    ensures TableRows(dbKey, NormalTable(t), columns) == TableRows(dbKey, t, columns)
  {
    if columns == [] {
    } else {
      var c := columns[|columns| - 1];
      SameRowsForNormalTable(dbKey, t, columns[..|columns| - 1]);
      AlignedAnswers(t.sample, NormalTable(t).columns, c);
    }
  }

  lemma {:induction false} NormalTablesHaveTheSameRows(dbKey: string, tables: seq<TableMeta>)
    ensures multiset(RowsOf(dbKey, NormalTables(tables))) == multiset(RowsOf(dbKey, tables))
  {
    if tables == [] {
    } else {
      var n := |tables| - 1;
      var t, init := tables[n], tables[..n];
      NormalTablesHaveTheSameRows(dbKey, init);
      if t.columns != [] {
        var u := NormalTable(t);
        SortPermutes(t.columns, ColumnOrder());
        SameRowsForNormalTable(dbKey, t, u.columns);
        RowsBagOfColumns(dbKey, t, u.columns, t.columns);
        RowsOfConcat(dbKey, NormalTables(init), [u]);
        RowsOfOne(dbKey, u);
      }
    }
  }

  // ---- The normal form is sorted, unique and complete -----------------------------------------

  /** With columns, sorted and unique, and one sample list per column. */
  ghost predicate NormalShape(t: TableMeta) {
    && t.columns != [] && UniqueColumns(t.columns) && Sorted(t.columns, ColumnOrder())
    && t.sample == Aligned(t.sample, t.columns)
  }

  /** Sorted by name, no name twice, every table of normal shape. */
  ghost predicate Normal(tables: seq<TableMeta>) {
    UniqueTables(tables) && Sorted(tables, TableOrder()) && forall t | t in tables :: NormalShape(t)
  }

  lemma {:induction false} AlignedTwice(sample: seq<Sample>, all: seq<ColumnMeta>, columns: seq<ColumnMeta>)
    requires forall c | c in columns :: c in all
    ensures Aligned(Aligned(sample, all), columns) == Aligned(sample, columns)
  {
    if columns == [] {
    } else {
      var c := columns[|columns| - 1];
      AlignedTwice(sample, all, columns[..|columns| - 1]);
      AlignedAnswers(sample, all, c);
    }
  }

  lemma NormalTableIsNormal(t: TableMeta)
    requires t.columns != [] && UniqueColumns(t.columns)
    ensures NormalShape(NormalTable(t))
  {
    hide LexLeq, Aligned, Sort;
    var columns := Sort(t.columns, ColumnOrder());
    OrdersAreTotal();
    SortPermutes(t.columns, ColumnOrder());
    SortSorts(t.columns, ColumnOrder());
    var name := (c: ColumnMeta) => c.name;
    PermutationKeepsDistinct(t.columns, columns, name);
    assert forall i, j | 0 <= i < j < |columns| :: name(columns[i]) != name(columns[j]);
    AlignedTwice(t.sample, columns, columns);
  }

  lemma {:induction false} NormalTablesOrigin(tables: seq<TableMeta>)
    requires Unique(tables)
    ensures UniqueTables(NormalTables(tables))
    ensures forall u | u in NormalTables(tables) :: NormalShape(u) && exists t :: t in tables && t.name == u.name
  {
    hide NormalShape, NormalTable;
    if tables == [] {
    } else {
      var n := |tables| - 1;
      var t, init := tables[n], tables[..n];
      assert t in tables && forall x | x in init :: x in tables;
      NormalTablesOrigin(init);
      if t.columns != [] {
        NormalTableIsNormal(t);
        NormalTableKeepsName(t);
      }
    }
  }

  lemma NormalTableKeepsName(t: TableMeta)
    ensures NormalTable(t).name == t.name
  {
  }

  lemma NormalFormIsNormal(tables: seq<TableMeta>)
    requires Unique(tables)
    ensures Normal(NormalForm(tables))
  {
    hide NormalShape, NormalTables, Sort, LexLeq;
    var all := NormalTables(tables);
    NormalTablesOrigin(tables);
    OrdersAreTotal();
    SortPermutes(all, TableOrder());
    SortSorts(all, TableOrder());
    var name := (t: TableMeta) => t.name;
    PermutationKeepsDistinct(all, NormalForm(tables), name);
    assert forall i, j | 0 <= i < j < |all| :: name(NormalForm(tables)[i]) != name(NormalForm(tables)[j]);
    MembersAgree(all, NormalForm(tables));
  }

  lemma EarlierNamesAreLess(tables: seq<TableMeta>)
    requires Normal(tables) && tables != []
    ensures
      var n := |tables| - 1;
      forall u | u in tables[..n] :: LexLeq(u.name, tables[n].name) && u.name != tables[n].name
  {
    hide LexLeq, NormalShape;
    var n := |tables| - 1;
    forall u | u in tables[..n] ensures LexLeq(u.name, tables[n].name) && u.name != tables[n].name {
      var k :| 0 <= k < n && tables[..n][k] == u;
      assert TableOrder()(tables[k], tables[n]);
    }
  }

  lemma {:induction false} RowsOfNormalAreSorted(dbKey: string, tables: seq<TableMeta>)
    requires Normal(tables)
    ensures Sorted(RowsOf(dbKey, tables), RowOrder())
  {
    hide LexLeq, NormalShape, TableRows, RowLeq;
    if tables == [] {
    } else {
      var n := |tables| - 1;
      var t, init := tables[n], tables[..n];
      assert t in tables && forall x | x in init :: x in tables;
      RowsOfNormalAreSorted(dbKey, init);
      var before, own := RowsOf(dbKey, init), TableRows(dbKey, t, t.columns);
      TableRowsAreSorted(dbKey, t);
      forall a, b | a in before && b in own ensures RowLeq(a, b) { RowsOfEarlierTables(dbKey, tables, a, b); }
      SortedConcat(before, own);
    }
  }

  lemma SortedConcat(a: seq<Row>, b: seq<Row>)
    requires Sorted(a, RowOrder()) && Sorted(b, RowOrder()) && forall x, y | x in a && y in b :: RowLeq(x, y)
    ensures Sorted(a + b, RowOrder())
  {
    hide RowLeq;
    var s := a + b;
    forall i, j | 0 <= i < j < |s| ensures RowOrder()(s[i], s[j]) {
      if j < |a| {
        assert RowOrder()(a[i], a[j]);
      } else if i < |a| {
        assert a[i] in a && b[j - |a|] in b;
      } else {
        assert RowOrder()(b[i - |a|], b[j - |a|]);
      }
    }
  }

  lemma TableRowsAreSorted(dbKey: string, t: TableMeta)
    requires NormalShape(t)
    ensures Sorted(TableRows(dbKey, t, t.columns), RowOrder())
  {
    hide LexLeq, TableRows;
    TableRowsMembers(dbKey, t, t.columns);
    LexTotal(t.name, t.name);
    forall i, j | 0 <= i < j < |t.columns| ensures LexLeq(t.columns[i].name, t.columns[j].name) {
      assert ColumnOrder()(t.columns[i], t.columns[j]);
    }
  }

  /** Rows of earlier tables come first, since their tables' names are less. */
  lemma RowsOfEarlierTables(dbKey: string, tables: seq<TableMeta>, a: Row, b: Row)
    requires Normal(tables) && tables != []
    requires a in RowsOf(dbKey, tables[..|tables| - 1])
    requires b in TableRows(dbKey, tables[|tables| - 1], tables[|tables| - 1].columns)
    ensures RowLeq(a, b)
  {
    hide LexLeq, NormalShape, RowsOf, TableRows;
    var n := |tables| - 1;
    var t := tables[n];
    EarlierNamesAreLess(tables);
    RowOrigin(dbKey, tables[..n], a);
    TableRowsMembers(dbKey, t, t.columns);
  }

  // ---- Regrouping -----------------------------------------------------------------------------

  lemma {:induction false} SetSampleAppends(sample: seq<Sample>, column: string, values: seq<string>)
    requires !Knows(sample, column)
    ensures SetSample(sample, column, values) == sample + [Sample(column, values)]
  {
    if sample == [] {
    } else {
      assert sample[0].column != column;
      forall i | 0 <= i < |sample| - 1 ensures sample[1..][i].column != column {
        assert sample[1..][i] == sample[i + 1];
      }
      SetSampleAppends(sample[1..], column, values);
    }
  }

  lemma {:induction false} TableIndexAbsent(tables: seq<TableMeta>, name: string)
    requires forall t | t in tables :: t.name != name
    ensures TableIndex(tables, name) == |tables|
    ensures forall t: TableMeta :: t.name == name ==> TableIndex(tables + [t], name) == |tables|
  {
    if tables == [] {
    } else {
      TableIndexAbsent(tables[1..], name);
      forall t: TableMeta | t.name == name ensures TableIndex(tables + [t], name) == |tables| {
        assert (tables + [t])[1..] == tables[1..] + [t];
      }
    }
  }

  /** The table as far as its first columns go. */
  function Part(t: TableMeta, k: nat): TableMeta
    requires k <= |t.columns|
  {
    t.(columns := t.columns[..k], sample := Aligned(t.sample, t.columns[..k]))
  }

  lemma {:induction false} GroupOneTable(dbKey: string, before: seq<Row>, done: seq<TableMeta>, t: TableMeta, k: nat)
    requires 0 < k <= |t.columns| && UniqueColumns(t.columns)
    requires Grouped(before) == done && forall u | u in done :: u.name != t.name
    ensures Grouped(before + TableRows(dbKey, t, t.columns[..k])) == done + [Part(t, k)]
  {
    var c := t.columns[k - 1];
    var r := RowFor(dbKey, t, c);
    assert t.columns[..k][..k - 1] == t.columns[..k - 1];
    var earlier := before + TableRows(dbKey, t, t.columns[..k - 1]);
    assert before + TableRows(dbKey, t, t.columns[..k]) == earlier + [r];
    assert (earlier + [r])[..|earlier|] == earlier;
    TableIndexAbsent(done, t.name);
    if k == 1 {
      assert earlier == before;
      FirstColumn(dbKey, t);
    } else {
      GroupOneTable(dbKey, before, done, t, k - 1);
      NextColumn(dbKey, t, k);
      assert (done + [Part(t, k - 1)])[|done| := Part(t, k)] == done + [Part(t, k)];
    }
  }

  lemma FirstColumn(dbKey: string, t: TableMeta)
    requires t.columns != []
    ensures Extended(TableMeta(t.name, [], t.rowCount, []), RowFor(dbKey, t, t.columns[0])) == Part(t, 1)
  {
    assert t.columns[..1] == [t.columns[0]] && t.columns[..1][..0] == [];
  }

  lemma NextColumn(dbKey: string, t: TableMeta, k: nat)
    requires 1 < k <= |t.columns| && UniqueColumns(t.columns)
    ensures Extended(Part(t, k - 1), RowFor(dbKey, t, t.columns[k - 1])) == Part(t, k)
  {
    var c, p := t.columns[k - 1], Part(t, k - 1);
    assert t.columns[..k][..k - 1] == t.columns[..k - 1];
    AlignedColumns(t.sample, t.columns[..k - 1]);
    SetSampleAppends(p.sample, c.name, SampleOf(t.sample, c.name));
  }

  lemma NormalInit(tables: seq<TableMeta>)
    requires Normal(tables) && tables != []
    ensures
      var t, init := tables[|tables| - 1], tables[..|tables| - 1];
      && Normal(init) && t.columns != [] && UniqueColumns(t.columns) && Part(t, |t.columns|) == t
      && forall u | u in init :: u.name != t.name
  {
    var n := |tables| - 1;
    var t := tables[n];
    assert t in tables && forall x | x in tables[..n] :: x in tables;
    assert t.columns[..|t.columns|] == t.columns;
  }

  lemma {:induction false} RegroupingRestores(dbKey: string, tables: seq<TableMeta>)
    requires Normal(tables)
    ensures Grouped(RowsOf(dbKey, tables)) == tables
  {
    if tables == [] {
    } else {
      var n := |tables| - 1;
      var t, init := tables[n], tables[..n];
      NormalInit(tables);
      RegroupingRestores(dbKey, init);
      GroupOneTable(dbKey, RowsOf(dbKey, init), init, t, |t.columns|);
      assert t.columns[..|t.columns|] == t.columns;
      assert init + [t] == tables;
    }
  }

  // ---- The round trip -------------------------------------------------------------------------

  /** Of a saved schema's rows, and of the rows of every other key. */
  lemma SavedRowsByKey(rows: seq<Row>, meta: SchemaMetadata)
    requires Unique(meta.tables)
    ensures Of(SavedRows(rows, meta), meta.dbKey) == RowsOf(meta.dbKey, meta.tables)
  {
    var kept, mine := Without(rows, meta.dbKey), RowsOf(meta.dbKey, meta.tables);
    WithoutRemoves(rows, meta.dbKey);
    RowsAreDistinct(meta.dbKey, meta.tables);
    forall r | r in mine ensures r.dbKey == meta.dbKey { RowOrigin(meta.dbKey, meta.tables, r); }
    InsertFresh(kept, mine, meta.dbKey);
    OfConcat(kept, mine, meta.dbKey);
    OfAllOrNone(kept, meta.dbKey);
    OfAllOrNone(mine, meta.dbKey);
  }

  /** Loading what was saved gives its normal form, whatever the table held before. */
  lemma LoadAfterSave(rows: seq<Row>, meta: SchemaMetadata, extractedAt: string)
    requires Unique(meta.tables)
    ensures
      var normal := NormalForm(meta.tables);
      Loaded(SavedRows(rows, meta), extractedAt, meta.dbKey)
      == if normal == [] then None else Some(SchemaMetadata(meta.dbKey, "", normal, extractedAt))
  {
    var key, normal := meta.dbKey, NormalForm(meta.tables);
    SavedRowsByKey(rows, meta);
    NormalFormIsNormal(meta.tables);
    SortedRowsAreNormal(key, meta.tables);
    RegroupingRestores(key, normal);
    if normal != [] {
      NormalRowsExist(key, normal);
    }
  }

  /** The query's ORDER BY lines the rows up as the normal form would list them. */
  lemma SortedRowsAreNormal(dbKey: string, tables: seq<TableMeta>)
    requires Unique(tables)
    ensures Sort(RowsOf(dbKey, tables), RowOrder()) == RowsOf(dbKey, NormalForm(tables))
  {
    hide RowsOf, NormalTables, Normal, LexLeq, Sort, DistinctKeys, Unique;
    var mine, normal := RowsOf(dbKey, tables), NormalForm(tables);
    NormalFormIsNormal(tables);
    NormalTablesHaveTheSameRows(dbKey, tables);
    SortPermutes(NormalTables(tables), TableOrder());
    RowsBagOfTables(dbKey, normal, NormalTables(tables));
    OrdersAreTotal();
    RowsOfNormalAreSorted(dbKey, normal);
    SortPermutes(mine, RowOrder());
    SortSorts(mine, RowOrder());
    RowsAreDistinct(dbKey, tables);
    forall r | r in mine ensures r.dbKey == dbKey { RowOrigin(dbKey, tables, r); }
    TiesAreEqual(mine, dbKey);
    MembersAgree(Sort(mine, RowOrder()), mine);
    SortedUnique(Sort(mine, RowOrder()), RowsOf(dbKey, normal), RowOrder());
  }

  lemma NormalRowsExist(dbKey: string, tables: seq<TableMeta>)
    requires Normal(tables) && tables != []
    ensures RowsOf(dbKey, tables) != []
  {
    assert tables[|tables| - 1] in tables;
  }

  lemma {:induction false} OfDropping(rows: seq<Row>, r: Row, other: string)
    requires r.dbKey != other
    ensures Of(Dropping(rows, r), other) == Of(rows, other)
  {
    if rows == [] {
    } else {
      OfDropping(rows[..|rows| - 1], r, other);
    }
  }

  lemma {:induction false} OfInsertAll(rows: seq<Row>, incoming: seq<Row>, other: string)
    requires forall r | r in incoming :: r.dbKey != other
    ensures Of(InsertAll(rows, incoming), other) == Of(rows, other)
  {
    if incoming == [] {
    } else {
      var n := |incoming| - 1;
      assert incoming[n] in incoming;
      OfInsertAll(rows, incoming[..n], other);
      OfDropping(InsertAll(rows, incoming[..n]), incoming[n], other);
    }
  }

  lemma {:induction false} OfWithout(rows: seq<Row>, dbKey: string, other: string)
    requires dbKey != other
    ensures Of(Without(rows, dbKey), other) == Of(rows, other)
  {
    if rows == [] {
    } else {
      OfWithout(rows[..|rows| - 1], dbKey, other);
    }
  }

  /** Saving under one key leaves every other key's tables unchanged, unique names or not. */
  lemma OtherKeysUntouched(rows: seq<Row>, meta: SchemaMetadata, other: string, extractedAt: string)
    requires other != meta.dbKey
    ensures Loaded(SavedRows(rows, meta), extractedAt, other) == Loaded(rows, extractedAt, other)
  {
    forall r | r in RowsOf(meta.dbKey, meta.tables) ensures r.dbKey != other {
      RowOrigin(meta.dbKey, meta.tables, r);
    }
    OfInsertAll(Without(rows, meta.dbKey), RowsOf(meta.dbKey, meta.tables), other);
    OfWithout(rows, meta.dbKey, other);
  }

  lemma {:induction false} SortOfSorted<T(!new)>(s: seq<T>, leq: (T, T) -> bool)
    requires Sorted(s, leq)
    ensures Sort(s, leq) == s
  {
    if s == [] {
    } else {
      SortOfSorted(s[1..], leq);
    }
  }

  lemma {:induction false} NormalTablesOfNormal(tables: seq<TableMeta>)
    requires forall t | t in tables :: NormalShape(t)
    ensures NormalTables(tables) == tables
  {
    hide Sort, Aligned, LexLeq;
    if tables == [] {
    } else {
      var n := |tables| - 1;
      var t := tables[n];
      assert t in tables && NormalShape(t);
      NormalTablesOfNormal(tables[..n]);
      SortOfSorted(t.columns, ColumnOrder());
      assert NormalTable(t) == t;
    }
  }

  // ---- Loaded schemas -------------------------------------------------------------------------

  lemma {:induction false} OfKeepsKeys(rows: seq<Row>, dbKey: string)
    requires DistinctKeys(rows)
    ensures DistinctKeys(Of(rows, dbKey))
    ensures forall r | r in Of(rows, dbKey) :: r in rows && r.dbKey == dbKey
  {
    if rows == [] {
    } else {
      var n := |rows| - 1;
      OfKeepsKeys(rows[..n], dbKey);
      assert forall x | x in rows[..n] :: x in rows && !SamePrimaryKey(x, rows[n]);
    }
  }

  lemma SortKeepsKeys(rows: seq<Row>)
    requires DistinctKeys(rows)
    ensures DistinctKeys(Sort(rows, RowOrder()))
  {
    var key := (r: Row) => (r.dbKey, r.table, r.column);
    SortPermutes(rows, RowOrder());
    assert forall r, s :: key(r) == key(s) <==> SamePrimaryKey(r, s);
    assert Distinct(rows, key);
    PermutationKeepsDistinct(rows, Sort(rows, RowOrder()), key);
  }

  /** The last table and the last column are those of the last row. */
  ghost predicate EndsWith(tables: seq<TableMeta>, r: Row) {
    && tables != []
    && var t := tables[|tables| - 1];
       t.name == r.table && t.columns != [] && t.columns[|t.columns| - 1].name == r.column
  }

  lemma LaterSampleIsIgnored(sample: seq<Sample>, s: Sample, column: string)
    requires s.column != column
    ensures SampleOf(sample + [s], column) == SampleOf(sample, column)
  {
    SampleOfAppend(sample, s, column);
    if !Knows(sample, column) {
      UnknownHasNoSample(sample, column);
    }
  }

  lemma {:induction false} UnknownHasNoSample(sample: seq<Sample>, column: string)
    requires !Knows(sample, column)
    ensures SampleOf(sample, column) == []
  {
    if sample == [] {
    } else {
      assert sample[0].column != column;
      assert forall i | 0 < i < |sample| :: sample[i] == sample[1..][i - 1];
      UnknownHasNoSample(sample[1..], column);
    }
  }

  lemma {:induction false} AlignedIgnoresLater(sample: seq<Sample>, s: Sample, columns: seq<ColumnMeta>)
    requires forall c | c in columns :: c.name != s.column
    ensures Aligned(sample + [s], columns) == Aligned(sample, columns)
  {
    if columns == [] {
    } else {
      var c := columns[|columns| - 1];
      assert c in columns;
      AlignedIgnoresLater(sample, s, columns[..|columns| - 1]);
      LaterSampleIsIgnored(sample, s, c.name);
    }
  }

  lemma AlignedKnowsNo(sample: seq<Sample>, columns: seq<ColumnMeta>, column: string)
    requires forall c | c in columns :: c.name != column
    ensures !Knows(Aligned(sample, columns), column)
  {
    AlignedColumns(sample, columns);
    forall i | 0 <= i < |columns| ensures Aligned(sample, columns)[i].column != column {
      assert columns[i] in columns;
    }
  }

  /** A table that does not know the column yet takes its samples in at the end. */
  lemma ExtendedIsAligned(t: TableMeta, r: Row)
    requires t.sample == Aligned(t.sample, t.columns) && forall c | c in t.columns :: c.name != r.column
    ensures
      var u := Extended(t, r);
      u.sample == Aligned(u.sample, u.columns) && u.columns == t.columns + [ColumnOf(r)] && u.name == t.name
  {
    hide Knows;
    var s := Sample(r.column, r.samples);
    AlignedKnowsNo(t.sample, t.columns, r.column);
    SetSampleAppends(t.sample, r.column, r.samples);
    AlignedIgnoresLater(t.sample, s, t.columns);
    SampleOfAppend(t.sample, s, r.column);
    assert (t.columns + [ColumnOf(r)])[..|t.columns|] == t.columns;
  }

  lemma SortedColumnsAppend(columns: seq<ColumnMeta>, c: ColumnMeta)
    requires UniqueColumns(columns) && Sorted(columns, ColumnOrder())
    requires forall x | x in columns :: LexLeq(x.name, c.name) && x.name != c.name
    ensures UniqueColumns(columns + [c]) && Sorted(columns + [c], ColumnOrder())
  {
    hide LexLeq;
    var all, n := columns + [c], |columns|;
    forall i, j | 0 <= i < j < |all| ensures all[i].name != all[j].name && ColumnOrder()(all[i], all[j]) {
      if j < n {
        assert ColumnOrder()(columns[i], columns[j]);
      } else {
        assert columns[i] in columns;
      }
    }
  }

  /** A column behind all others, with its samples, keeps a table in shape. */
  lemma ExtendedIsNormal(t: TableMeta, r: Row)
    requires (t.columns == [] && t.sample == []) || NormalShape(t)
    requires forall c | c in t.columns :: LexLeq(c.name, r.column) && c.name != r.column
    ensures NormalShape(Extended(t, r)) && Extended(t, r).name == t.name
    ensures Extended(t, r).columns == t.columns + [ColumnOf(r)]
  {
    hide LexLeq, Extended;
    ExtendedIsAligned(t, r);
    SortedColumnsAppend(t.columns, ColumnOf(r));
  }

  lemma NormalAppend(tables: seq<TableMeta>, u: TableMeta)
    requires Normal(tables) && NormalShape(u)
    requires forall t | t in tables :: LexLeq(t.name, u.name) && t.name != u.name
    ensures Normal(tables + [u])
  {
    hide LexLeq, NormalShape;
    var all, n := tables + [u], |tables|;
    forall i, j | 0 <= i < j < |all| ensures all[i].name != all[j].name && TableOrder()(all[i], all[j]) {
      if j < n {
        assert TableOrder()(tables[i], tables[j]);
      } else {
        assert tables[i] in tables;
      }
    }
  }

  /** A row behind the last one, in the query's order, extends the last table. */
  lemma ExtendLastTable(tables: seq<TableMeta>, last: Row, r: Row)
    requires Normal(tables) && EndsWith(tables, last) && RowLeq(last, r)
    requires last.table == r.table && last.column != r.column
    ensures Normal(AddRow(tables, r)) && EndsWith(AddRow(tables, r), r)
  {
    hide LexLeq, Extended, NormalShape;
    var n := |tables| - 1;
    var init, t := tables[..n], tables[n];
    assert t in tables && tables == init + [t];
    NormalInit(tables);
    EarlierNamesAreLess(tables);
    assert TableIndex(tables, r.table) == n;
    ColumnsPrecede(t, last, r);
    ExtendedIsNormal(t, r);
    NormalAppend(init, Extended(t, r));
    assert AddRow(tables, r) == init + [Extended(t, r)];
  }

  /** Or it starts a new table at the end. */
  lemma StartNewTable(tables: seq<TableMeta>, last: Row, r: Row)
    requires Normal(tables) && EndsWith(tables, last) && RowLeq(last, r) && last.table != r.table
    ensures Normal(AddRow(tables, r)) && EndsWith(AddRow(tables, r), r)
  {
    hide LexLeq, Extended, NormalShape;
    var n := |tables| - 1;
    EarlierNamesAreLess(tables);
    forall u | u in tables ensures LexLeq(u.name, r.table) && u.name != r.table {
      if u != tables[n] {
        assert u in tables[..n];
        LexTransitive(u.name, last.table, r.table);
        if u.name == r.table { LexAntisymmetric(last.table, r.table); }
      }
    }
    TableIndexAbsent(tables, r.table);
    var empty := TableMeta(r.table, [], r.rowCount, []);
    ExtendedIsNormal(empty, r);
    NormalAppend(tables, Extended(empty, r));
  }

  lemma ColumnsPrecede(t: TableMeta, last: Row, r: Row)
    requires NormalShape(t) && t.columns[|t.columns| - 1].name == last.column
    requires LexLeq(last.column, r.column) && last.column != r.column
    ensures forall c | c in t.columns :: LexLeq(c.name, r.column) && c.name != r.column
  {
    hide LexLeq;
    var n := |t.columns| - 1;
    forall c | c in t.columns ensures LexLeq(c.name, r.column) && c.name != r.column {
      var k :| 0 <= k <= n && t.columns[k] == c;
      LexTotal(c.name, c.name);
      assert k < n ==> ColumnOrder()(t.columns[k], t.columns[n]);
      LexTransitive(c.name, last.column, r.column);
      if c.name == r.column { LexAntisymmetric(last.column, r.column); }
    }
  }

  /** Regrouping ordered rows with distinct keys always gives a normal schema. */
  lemma {:induction false} GroupedIsNormal(rows: seq<Row>, dbKey: string)
    requires Sorted(rows, RowOrder()) && DistinctKeys(rows) && forall r | r in rows :: r.dbKey == dbKey
    ensures Normal(Grouped(rows)) && (rows != [] ==> EndsWith(Grouped(rows), rows[|rows| - 1]))
  {
    hide LexLeq, AddRow, EndsWith, NormalShape, Normal;
    if rows == [] {
      NothingIsNormal();
    } else {
      var n := |rows| - 1;
      var init, r := rows[..n], rows[n];
      assert r in rows && forall x | x in init :: x in rows;
      GroupedIsNormal(init, dbKey);
      if n == 0 {
        FirstRowIsNormal(r);
      } else {
        var last := rows[n - 1];
        assert RowOrder()(last, r) && last in rows && !SamePrimaryKey(last, r) && init[n - 1] == last;
        if last.table == r.table {
          ExtendLastTable(Grouped(init), last, r);
        } else {
          StartNewTable(Grouped(init), last, r);
        }
      }
    }
  }

  lemma NothingIsNormal()
    ensures Normal([])
  {
  }

  lemma FirstRowIsNormal(r: Row)
    ensures Normal(AddRow([], r)) && EndsWith(AddRow([], r), r)
  {
    var empty := TableMeta(r.table, [], r.rowCount, []);
    ExtendedIsNormal(empty, r);
    NormalAppend([], Extended(empty, r));
    assert [] + [Extended(empty, r)] == [Extended(empty, r)];
  }

  /** Whatever rows the table holds, what is loaded from it is a normal schema. */
  lemma LoadedIsNormal(rows: seq<Row>, extractedAt: string, dbKey: string)
    requires DistinctKeys(rows) && Loaded(rows, extractedAt, dbKey).Some?
    ensures
      var loaded := Loaded(rows, extractedAt, dbKey).value;
      Normal(loaded.tables) && loaded.tables != [] && loaded.dbKey == dbKey && loaded.extractedAt == extractedAt
  {
    var mine := Of(rows, dbKey);
    OfKeepsKeys(rows, dbKey);
    SortKeepsKeys(mine);
    SortPermutes(mine, RowOrder());
    MembersAgree(Sort(mine, RowOrder()), mine);
    OrdersAreTotal();
    SortSorts(mine, RowOrder());
    GroupedIsNormal(Sort(mine, RowOrder()), dbKey);
  }

  /** Saving any loaded schema and loading it again is the identity, whatever else was saved in between. */
  lemma LoadedSchemasAreStable(rows: seq<Row>, dbKey: string, later: seq<Row>, extractedAt: string)
    requires DistinctKeys(rows) && Loaded(rows, extractedAt, dbKey).Some?
    ensures
      var loaded := Loaded(rows, extractedAt, dbKey).value;
      Loaded(SavedRows(later, loaded), extractedAt, dbKey) == Some(loaded)
  {
    LoadedIsNormal(rows, extractedAt, dbKey);
    var loaded := Loaded(rows, extractedAt, dbKey).value;
    NormalFormOfNormal(loaded.tables);
    LoadAfterSave(later, loaded, extractedAt);
  }

  lemma NormalFormOfNormal(tables: seq<TableMeta>)
    requires Normal(tables)
    ensures Unique(tables) && NormalForm(tables) == tables
  {
    NormalTablesOfNormal(tables);
    SortOfSorted(tables, TableOrder());
  }
}
