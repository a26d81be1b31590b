/** Prompt assembly under a token budget, trimming the schema to fit. */
module Prompt {
  import opened Text
  import opened Schema

  /** Four characters a token, and never less than one. */
  function EstimateTokens(text: string): (n: nat)
    ensures n >= 1 && n >= |text| / 4
  {
    if |text| / 4 < 1 then 1 else |text| / 4
  }

  // ---- Parts of a schema ----------------------------------------------------------------------

  /** The rendering of exactly these tables and columns, without caps. */
  function FullRendering(view: seq<TableMeta>): string { Join(FullLines(view), "\n") }

  function FullLines(view: seq<TableMeta>): seq<string> {
    if view == [] then []
    else
      var t := view[|view| - 1];
      FullLines(view[..|view| - 1]) + TableLines(t, |t.columns|)
  }

  function CapColumns(tables: seq<TableMeta>, maxColumns: nat): (r: seq<TableMeta>)
    ensures |r| == |tables|
  {
    seq(|tables|, i requires 0 <= i < |tables| => tables[i].(columns := Take(tables[i].columns, maxColumns)))
  }

  /** The tables and columns that a capped rendering shows. */
  function Capped(tables: seq<TableMeta>, maxTables: nat, maxColumns: nat): seq<TableMeta> {
    CapColumns(Take(tables, maxTables), maxColumns)
  }

  lemma {:induction false} CappedLines(tables: seq<TableMeta>, maxColumns: nat)
    ensures Lines(tables, maxColumns) == FullLines(CapColumns(tables, maxColumns))
  {
    if tables == [] {
    } else {
      var n := |tables| - 1;
      CappedLines(tables[..n], maxColumns);
      assert CapColumns(tables, maxColumns)[..n] == CapColumns(tables[..n], maxColumns);
      var columns := Take(tables[n].columns, maxColumns);
      assert Take(columns, |columns|) == columns;
    }
  }

  lemma CappedRendering(tables: seq<TableMeta>, maxTables: nat, maxColumns: nat)
    ensures Rendering(tables, maxTables, maxColumns) == FullRendering(Capped(tables, maxTables, maxColumns))
  {
    CappedLines(Take(tables, maxTables), maxColumns);
  }

  /** A table cut down to a prefix of its columns, at least one if it had any, and without samples. */
  predicate CutOf(whole: TableMeta, part: TableMeta) {
    && part == whole.(columns := part.columns, sample := [])
    && part.columns <= whole.columns
    && (whole.columns != [] ==> part.columns != [])
  }

  /** A prefix of the tables, each of them cut down. */
  predicate SubSchema(tables: seq<TableMeta>, view: seq<TableMeta>) {
    |view| <= |tables| && forall i | 0 <= i < |view| :: CutOf(tables[i], view[i])
  }

  predicate Thin(tables: seq<TableMeta>) {
    forall i | 0 <= i < |tables| :: |tables[i].columns| <= 1
  }

  /** Tables are missing, beyond what the table cap hides, only when the rest has one column at most each. */
  predicate DroppedLast(tables: seq<TableMeta>, view: seq<TableMeta>) {
    |view| < |tables| && |view| < MAX_TABLES ==> Thin(view)
  }

  /** The least that trimming can come down to: the first table with its first column. */
  function Minimal(tables: seq<TableMeta>): seq<TableMeta>
    requires tables != []
  {
    [tables[0].(columns := Take(tables[0].columns, 1), sample := [])]
  }

  predicate Fits(tables: seq<TableMeta>, budget: int) {
    tables != [] && EstimateTokens(FullRendering(Minimal(tables))) <= budget
  }

  // ---- Nothing renders shorter than the minimal part ------------------------------------------

  lemma {:induction false} JoinStartsWithFirst(parts: seq<string>, separator: string)
    requires parts != []
    ensures parts[0] <= Join(parts, separator)
  {
    if |parts| == 1 {
    } else {
      JoinStartsWithFirst(parts[..|parts| - 1], separator);
    }
  }

  lemma HeadLineShrinks(t: TableMeta, u: TableMeta, maxColumns: nat)
    requires u.name == t.name && u.sample == [] && u.columns == Take(t.columns, 1) && maxColumns >= 1
    ensures |TableLines(u, |u.columns|)| == 1 && |TableLines(u, |u.columns|)[0]| <= |TableLines(t, maxColumns)[0]|
  {
    assert Take(u.columns, |u.columns|) == u.columns;
    var shown := Take(t.columns, maxColumns);
    if t.columns != [] {
      JoinStartsWithFirst(ColumnTexts(shown), ", ");
      assert ColumnTexts(u.columns) == [ColumnTexts(shown)[0]];
    }
  }

  lemma {:induction false} FirstLine(tables: seq<TableMeta>, maxColumns: nat)
    requires tables != []
    ensures Lines(tables, maxColumns) != [] && Lines(tables, maxColumns)[0] == TableLines(tables[0], maxColumns)[0]
  {
    if |tables| == 1 {
      assert tables[..0] == [];
    } else {
      FirstLine(tables[..|tables| - 1], maxColumns);
    }
  }

  lemma MinimalIsShortest(tables: seq<TableMeta>, rendered: seq<TableMeta>, maxTables: nat, maxColumns: nat)
    requires tables != [] && rendered != [] && maxTables >= 1 && maxColumns >= 1
    requires rendered[0].name == tables[0].name && Take(rendered[0].columns, 1) == Take(tables[0].columns, 1)
    ensures |FullRendering(Minimal(tables))| <= |Rendering(rendered, maxTables, maxColumns)|
    ensures Rendering(rendered, maxTables, maxColumns) != ""
  {
    var u := Minimal(tables)[0];
    var shown := Take(rendered, maxTables);
    HeadLineShrinks(rendered[0], u, maxColumns);
    assert Minimal(tables)[..0] == [];
    assert FullLines(Minimal(tables)) == TableLines(u, |u.columns|);
    FirstLine(shown, maxColumns);
    JoinStartsWithFirst(Lines(shown, maxColumns), "\n");
  }

  lemma SubSchemaIsNoShorter(tables: seq<TableMeta>, view: seq<TableMeta>)
    requires SubSchema(tables, view) && view != []
    ensures FullRendering(view) != ""
    ensures EstimateTokens(FullRendering(Minimal(tables))) <= EstimateTokens(FullRendering(view))
  {
    var width := 1 + TotalColumns(view);
    assert CutOf(tables[0], view[0]);
    MinimalIsShortest(tables, view, |view|, width);
    CappedRendering(view, |view|, width);
    ColumnsWithinTotal(view);
    assert Capped(view, |view|, width) == view;
  }

  // ---- Trimming -------------------------------------------------------------------------------

  function TotalColumns(tables: seq<TableMeta>): nat {
    if tables == [] then 0
    else TotalColumns(tables[..|tables| - 1]) + |tables[|tables| - 1].columns|
  }

  lemma {:induction false} ColumnsWithinTotal(tables: seq<TableMeta>)
    ensures forall i | 0 <= i < |tables| :: |tables[i].columns| <= TotalColumns(tables)
  {
    if tables == [] {
    } else {
      ColumnsWithinTotal(tables[..|tables| - 1]);
    }
  }

  lemma {:induction false} TotalAfterUpdate(tables: seq<TableMeta>, n: nat, t: TableMeta)
    requires n < |tables|
    ensures TotalColumns(tables[n := t]) == TotalColumns(tables) - |tables[n].columns| + |t.columns|
  {
    var k := |tables| - 1;
    if n == k {
      assert tables[n := t][..k] == tables[..k];
    } else {
      TotalAfterUpdate(tables[..k], n, t);
      assert tables[n := t][..k] == tables[..k][n := t];
    }
  }

  function WithoutSamples(tables: seq<TableMeta>): (r: seq<TableMeta>)
    ensures |r| == |tables| && SubSchema(tables, r)
  {
    seq(|tables|, i requires 0 <= i < |tables| => tables[i].(sample := []))
  }

  lemma CappedIsSubSchema(tables: seq<TableMeta>, slim: seq<TableMeta>, maxTables: nat, maxColumns: nat)
    requires SubSchema(tables, slim) && maxColumns >= 1
    ensures SubSchema(tables, Capped(slim, maxTables, maxColumns))
  {
    forall i | 0 <= i < |Capped(slim, maxTables, maxColumns)|
      ensures CutOf(tables[i], Capped(slim, maxTables, maxColumns)[i])
    {
      assert CutOf(tables[i], slim[i]);
    }
  }

  /** The rest of the last column's table, with that column gone. */
  function PopColumn(t: TableMeta): TableMeta
    requires |t.columns| > 1
  {
    t.(columns := t.columns[..|t.columns| - 1])
  }

  lemma PopKeepsSubSchema(tables: seq<TableMeta>, slim: seq<TableMeta>, n: nat)
    requires SubSchema(tables, slim) && n < |slim| && |slim[n].columns| > 1
    ensures SubSchema(tables, slim[n := PopColumn(slim[n])])
    ensures TotalColumns(slim[n := PopColumn(slim[n])]) == TotalColumns(slim) - 1
  {
    TotalAfterUpdate(slim, n, PopColumn(slim[n]));
    assert CutOf(tables[n], slim[n]);
  }

  /** What trimming may return. */
  ghost predicate Trimmed(tables: seq<TableMeta>, budget: int, text: string) {
    if Fits(tables, budget) then
      EstimateTokens(text) <= budget && text != ""
      && exists view ::
           SubSchema(tables, view) && DroppedLast(tables, view) && view != [] && text == FullRendering(view)
    else text == ""
  }

  lemma ViewThatFits(tables: seq<TableMeta>, view: seq<TableMeta>, budget: nat)
    requires SubSchema(tables, view) && DroppedLast(tables, view) && (tables != [] ==> view != [])
    requires EstimateTokens(FullRendering(view)) <= budget
    ensures Trimmed(tables, budget, FullRendering(view))
  {
    if view != [] {
      SubSchemaIsNoShorter(tables, view);
    }
  }

  lemma ThinnestDoesNotFit(tables: seq<TableMeta>, slim: seq<TableMeta>, budget: int)
    requires SubSchema(tables, slim) && Thin(slim) && |slim| == 1
    requires EstimateTokens(FullRendering(slim)) > budget
    ensures !Fits(tables, budget)
  {
    assert CutOf(tables[0], slim[0]);
    assert slim[0].columns == Take(tables[0].columns, 1);
    assert slim == Minimal(tables);
  }

  /** The text renders the slimmed tables, with the first caps or the default ones. */
  ghost predicate Renders(tables: seq<TableMeta>, slim: seq<TableMeta>, text: string) {
    && SubSchema(tables, slim)
    && (text == Rendering(slim, |slim|, 10) || text == Rendering(slim, MAX_TABLES, MAX_COLUMNS))
  }

  /** A fitting text of tables that were dropped only once all were thin is a valid result. */
  lemma RenderedResult(tables: seq<TableMeta>, slim: seq<TableMeta>, text: string, budget: nat)
    requires Renders(tables, slim, text) && EstimateTokens(text) <= budget
    requires (tables != [] ==> slim != []) && (|slim| < |tables| ==> Thin(slim))
    ensures Trimmed(tables, budget, text)
  {
    hide Rendering, FullRendering, SubSchema, Trimmed;
    NonEmptyParts(tables, slim);
    var maxTables, maxColumns := MAX_TABLES, MAX_COLUMNS;
    if text == Rendering(slim, |slim|, 10) {
      maxTables, maxColumns := |slim|, 10;
    }
    CappedRendering(slim, maxTables, maxColumns);
    CappedIsSubSchema(tables, slim, maxTables, maxColumns);
    ViewThatFits(tables, Capped(slim, maxTables, maxColumns), budget);
  }

  lemma NonEmptyParts(tables: seq<TableMeta>, slim: seq<TableMeta>)
    requires SubSchema(tables, slim)
    ensures |slim| <= |tables|
  {
  }

  lemma ThinIsNotCapped(slim: seq<TableMeta>, maxTables: nat, maxColumns: nat)
    requires Thin(slim) && |slim| == 1 && maxTables >= 1 && maxColumns >= 1
    ensures Capped(slim, maxTables, maxColumns) == slim
  {
  }

  lemma RenderedFailure(tables: seq<TableMeta>, slim: seq<TableMeta>, text: string, budget: nat)
    requires Renders(tables, slim, text) && EstimateTokens(text) > budget
    requires Thin(slim) && |slim| == 1
    ensures !Fits(tables, budget)
  {
    hide SubSchema, Rendering, FullRendering, Capped, Fits, EstimateTokens;
    CappedRendering(slim, |slim|, 10);
    CappedRendering(slim, MAX_TABLES, MAX_COLUMNS);
    ThinIsNotCapped(slim, |slim|, 10);
    ThinIsNotCapped(slim, MAX_TABLES, MAX_COLUMNS);
    ThinnestDoesNotFit(tables, slim, budget);
  }

  lemma FewerTables(tables: seq<TableMeta>, slim: seq<TableMeta>)
    requires SubSchema(tables, slim) && slim != []
    ensures SubSchema(tables, slim[..|slim| - 1]) && |slim| <= |tables|
  {
  }

  lemma NoTablesNoText(slim: seq<TableMeta>, text: string)
    requires text == Rendering(slim, |slim|, 10) || text == Rendering(slim, MAX_TABLES, MAX_COLUMNS)
    ensures slim == [] ==> text == ""
  {
  }

  lemma NothingFitsNothing(tables: seq<TableMeta>, budget: int)
    requires budget <= 0 || !Fits(tables, budget)
    ensures Trimmed(tables, budget, "")
  {
  }

  /** Columns go first, the last of each table in turn; then whole tables from the end. */
  method TrimSchema(schema: SchemaMetadata, budget: int) returns (text: string)
    ensures Trimmed(schema.tables, budget, text)
  {
    hide Rendering, Trimmed, SubSchema, CutOf, Fits;
    if budget <= 0 {
      NothingFitsNothing(schema.tables, budget);
      return "";
    }
    var tables := schema.tables;
    var slim := WithoutSamples(tables);
    text := Render(slim, |slim|, 10);
    if EstimateTokens(text) <= budget {
      RenderedResult(tables, slim, text, budget);
      return;
    }
    while EstimateTokens(text) > budget && exists i :: 0 <= i < |slim| && |slim[i].columns| > 1
      invariant Renders(tables, slim, text) && |slim| == |tables|
      decreases TotalColumns(slim)
    {
      slim, text := PopColumns(tables, slim, text, budget);
      text := Render(slim);
    }
    while EstimateTokens(text) > budget && |slim| > 1
      invariant Renders(tables, slim, text) && (tables != [] ==> slim != [])
      invariant EstimateTokens(text) > budget || |slim| < |tables| ==> Thin(slim)
      decreases |slim|
    {
      FewerTables(tables, slim);
      slim := slim[..|slim| - 1];
      text := Render(slim);
    }
    if EstimateTokens(text) > budget {
      NoTablesNoText(slim, text);
      RenderedFailure(tables, slim, text, budget);
      NothingFitsNothing(tables, budget);
      return "";
    }
    RenderedResult(tables, slim, text, budget);
  }

  /** One pass over the tables, popping columns while the text is too long; the first pop always happens. */
  method PopColumns(tables: seq<TableMeta>, start: seq<TableMeta>, tooLong: string, budget: nat)
    returns (slim: seq<TableMeta>, text: string)
    requires SubSchema(tables, start) && EstimateTokens(tooLong) > budget && !Thin(start)
    ensures SubSchema(tables, slim) && |slim| == |start|
    ensures TotalColumns(slim) < TotalColumns(start)
  {
    hide SubSchema, Rendering, EstimateTokens, TotalColumns;
    slim, text := start, tooLong;
    for n := 0 to |start|
      invariant SubSchema(tables, slim) && |slim| == |start|
      invariant TotalColumns(slim) < TotalColumns(start)
                || (slim == start && text == tooLong && Thin(start[..n]))
    {
      while |slim[n].columns| > 1 && EstimateTokens(text) > budget
        invariant SubSchema(tables, slim) && |slim| == |start|
        invariant TotalColumns(slim) < TotalColumns(start)
                  || (slim == start && text == tooLong && Thin(start[..n]))
        decreases |slim[n].columns|
      {
        PopKeepsSubSchema(tables, slim, n);
        slim := slim[n := PopColumn(slim[n])];
        text := Render(slim, |slim|, |slim[n].columns|);
      }
    }
    assert start[..|start|] == start;
  }

  // ---- The prompt -----------------------------------------------------------------------------

  const HINTS: map<string, string> := map["en" := "Answer in English.", "id" := "Answer in Bahasa Indonesia."]

  function LanguageHint(language: string): string {
    if language in HINTS then HINTS[language] else HINTS["en"]
  }

  function ShotTexts(shots: seq<(string, string)>): seq<string> {
    if shots == [] then []
    else ["Q: " + shots[0].0 + "\nSQL: " + shots[0].1] + ShotTexts(shots[1..])
  }

  /** System text, language hint, and the optional metric definitions and examples. */
  function Header(system: string, language: string, semantic: string, shots: seq<(string, string)>): string {
    Join([system, LanguageHint(language)]
         + (if semantic != "" then ["METRIC DEFINITIONS:\n" + semantic] else [])
         + (if shots != [] then ["EXAMPLE QUERIES:\n" + Join(ShotTexts(Take(shots, 3)), "\n")] else []),
         "\n\n")
  }

  function Ask(question: string): string { "\n\nQUESTION: " + question }

  function SchemaBlock(text: string): string { "\n\nDATABASE SCHEMA:\n" + text }

  function Bare(system: string, language: string, question: string): string {
    system + "\n\n" + LanguageHint(language) + Ask(question)
  }

  /** What is left for the schema block. */
  function Budget(header: string, question: string, maxTokens: int): int {
    maxTokens - EstimateTokens(header) - EstimateTokens(question) - 100
  }

  /** What stands in the schema block: all of the schema if that fits, and otherwise a trimmed part of it. */
  ghost predicate SchemaText(tables: seq<TableMeta>, budget: int, text: string) {
    var whole := Rendering(tables, MAX_TABLES, MAX_COLUMNS);
    if EstimateTokens(whole) <= budget then text == whole else Trimmed(tables, budget, text)
  }

  /** The block fits with at least ninety tokens to spare: four divisions lose less than eleven tokens in all. */
  lemma BlockLeavesSlack(header: string, question: string, text: string, maxTokens: int)
    requires EstimateTokens(text) <= Budget(header, question, maxTokens)
    ensures EstimateTokens(header + SchemaBlock(text) + Ask(question)) <= maxTokens - 90
  {
  }

  /**
   * The schema is in the prompt exactly when its minimal part fits the budget, whole if all of it fits, and then
   * the prompt is at least ninety tokens below the maximum. Otherwise extras are dropped only to meet the maximum.
   */
  method BuildPrompt(
      system: string, question: string, schema: Option<SchemaMetadata>, semantic: string,
      shots: seq<(string, string)>, language: string, maxTokens: int := 3000)
    returns (prompt: string)
    ensures
      var header := Header(system, language, semantic, shots);
      if schema.Some? && Fits(schema.value.tables, Budget(header, question, maxTokens)) then
        EstimateTokens(prompt) <= maxTokens - 90
        && exists text :: text != "" && SchemaText(schema.value.tables, Budget(header, question, maxTokens), text)
                          && prompt == header + SchemaBlock(text) + Ask(question)
      else
        prompt == if EstimateTokens(header + Ask(question)) > maxTokens then Bare(system, language, question)
                  else header + Ask(question)
    ensures EstimateTokens(prompt) <= maxTokens
            || EstimateTokens(prompt) <= EstimateTokens(Bare(system, language, question))
    ensures |prompt| >= |Ask(question)| && prompt[|prompt| - |Ask(question)|..] == Ask(question)
  {
    hide Header, Rendering, FullRendering, SubSchema, DroppedLast, Minimal;
    var header := Header(system, language, semantic, shots);
    var budget := Budget(header, question, maxTokens);
    var schemaText := "";
    if schema.Some? {
      var tables := schema.value.tables;
      schemaText := Render(tables);
      NoTablesNoText(tables, schemaText);
      if tables != [] {
        MinimalIsShortest(tables, tables, MAX_TABLES, MAX_COLUMNS);
      }
      if schemaText != "" && EstimateTokens(schemaText) > budget {
        schemaText := TrimSchema(schema.value, if budget > 0 then budget else 0);
        if EstimateTokens(schemaText) > (if budget > 0 then budget else 0) {
          schemaText := "";
        }
      }
    }
    ghost var bareHeader := header;
    if schemaText != "" {
      BlockLeavesSlack(header, question, schemaText, maxTokens);
      header := header + SchemaBlock(schemaText);
    }
    prompt := header + Ask(question);
    if EstimateTokens(prompt) > maxTokens {
      prompt := Bare(system, language, question);
    }
  }
}
