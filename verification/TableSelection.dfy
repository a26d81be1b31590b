/** Which tables go into the prompt: the relevant ones and everything their foreign keys lead to. */
module TableSelection {
  import opened Text
  import opened Sorting
  import opened Schema

  // ---- Relevance ------------------------------------------------------------------------------

  predicate InToken(c: char) { 'a' <= c <= 'z' || IsDigit(c) || c == '_' }

  function TokenEnd(s: string, from: nat): (r: nat)
    requires from <= |s|
    ensures from <= r <= |s|
    decreases |s| - from
  {
    if from == |s| || !InToken(s[from]) then from else TokenEnd(s, from + 1)
  }

  function LowerTokens(s: string): set<string>
    decreases |s|
  {
    if s == "" then {}
    else if InToken(s[0]) then
      var end := TokenEnd(s, 1);
      {s[..end]} + LowerTokens(s[end..])
    else LowerTokens(s[1..])
  }

  function Tokens(text: string): set<string> { LowerTokens(Lower(text)) }

  function ColumnScore(columns: seq<ColumnMeta>, asked: set<string>): nat {
    if columns == [] then 0
    else ColumnScore(columns[1..], asked) + if Tokens(columns[0].name) * asked != {} then 1 else 0
  }

  function Score(t: TableMeta, asked: set<string>): nat {
    ColumnScore(t.columns, asked) + if Tokens(t.name) * asked != {} then 3 else 0
  }

  /** Highest score first; ties keep their order. */
  function ByScore(asked: set<string>): (TableMeta, TableMeta) -> bool {
    (a: TableMeta, b: TableMeta) => Score(a, asked) >= Score(b, asked)
  }

  function Scoring(tables: seq<TableMeta>, asked: set<string>): seq<TableMeta> {
    if tables == [] then []
    else (if Score(tables[0], asked) > 0 then [tables[0]] else []) + Scoring(tables[1..], asked)
  }

  /** Python's s[:n], which drops from the end when n is negative. */
  function UpTo<T>(s: seq<T>, n: int): (r: seq<T>)
    ensures r <= s
  {
    if n >= 0 then Take(s, n) else if |s| + n >= 0 then s[..|s| + n] else []
  }

  function Seeds(tables: seq<TableMeta>, question: string, maxTables: int): seq<TableMeta> {
    var asked := Tokens(question);
    var scored := Sort(tables, ByScore(asked));
    var picked := UpTo(Scoring(scored, asked), maxTables);
    if picked == [] then UpTo(scored, maxTables) else picked
  }

  // ---- Foreign keys as a graph ----------------------------------------------------------------

  predicate HasRef(c: ColumnMeta) { c.fkRef.Some? && c.fkRef.value != "" }

  /** The table part of "table.column". */
  function RefOf(c: ColumnMeta): string
    requires HasRef(c)
  {
    c.fkRef.value[..IndexOf(c.fkRef.value, 0, '.')]
  }

  function AllRefs(tables: seq<TableMeta>): set<string> {
    set t, c | t in tables && c in t.columns && HasRef(c) :: RefOf(c)
  }

  ghost predicate Edge(tables: seq<TableMeta>, from: TableMeta, to: TableMeta) {
    exists c :: c in from.columns && HasRef(c) && FindTable(tables, RefOf(c)) == Some(to)
  }

  ghost predicate Path(tables: seq<TableMeta>, path: seq<TableMeta>) {
    path != [] && forall i | 0 <= i < |path| - 1 :: Edge(tables, path[i], path[i + 1])
  }

  ghost predicate Reachable(tables: seq<TableMeta>, seeds: seq<TableMeta>, t: TableMeta) {
    exists path :: Path(tables, path) && path[0] in seeds && path[|path| - 1] == t
  }

  /** Every foreign key of a picked table whose target resolves is matched by a picked table. */
  ghost predicate Closed(tables: seq<TableMeta>, picked: seq<TableMeta>) {
    forall t, c | t in picked && c in t.columns && HasRef(c) && FindTable(tables, RefOf(c)).Some? ::
      Covered(picked, RefOf(c))
  }

  ghost predicate Covered(picked: seq<TableMeta>, name: string) {
    exists u :: u in picked && SameName(u.name, name)
  }

  /** No two tables have the same name, ignoring case. */
  ghost predicate UniqueNames(tables: seq<TableMeta>) {
    forall i, j | 0 <= i < j < |tables| :: !SameName(tables[i].name, tables[j].name)
  }

  ghost predicate RefersTo(u: TableMeta, name: string) {
    exists c :: c in u.columns && HasRef(c) && RefOf(c) == name
  }

  /** A name under which the table comes in: its own if it is a seed, or what a reachable foreign key calls it. */
  ghost predicate Spells(tables: seq<TableMeta>, seeds: seq<TableMeta>, t: TableMeta, name: string) {
    && FindTable(tables, name) == Some(t)
    && ((t in seeds && name == t.name)
        || exists u :: u in tables && Reachable(tables, seeds, u) && RefersTo(u, name))
  }

  ghost function Spellings(tables: seq<TableMeta>, seeds: seq<TableMeta>, t: TableMeta): set<string> {
    set name | name in AllRefs(tables) + {t.name} && Spells(tables, seeds, t, name)
  }

  predicate NoRepeats(picked: seq<TableMeta>) {
    forall i, j | 0 <= i < j < |picked| :: picked[i] != picked[j]
  }

  lemma SeedIsReachable(tables: seq<TableMeta>, seeds: seq<TableMeta>, t: TableMeta)
    requires t in seeds
    ensures Reachable(tables, seeds, t)
  {
    assert Path(tables, [t]);
  }

  lemma ReachableStep(tables: seq<TableMeta>, seeds: seq<TableMeta>, t: TableMeta, u: TableMeta)
    requires Reachable(tables, seeds, t) && Edge(tables, t, u)
    ensures Reachable(tables, seeds, u)
  {
    hide Edge;
    var path :| Path(tables, path) && path[0] in seeds && path[|path| - 1] == t;
    assert Path(tables, path + [u]);
  }

  /** A set with the seeds in it and no edge leading out holds everything reachable. */
  lemma {:induction false} ClosedHoldsPath(tables: seq<TableMeta>, picked: seq<TableMeta>, path: seq<TableMeta>)
    requires Path(tables, path) && path[0] in picked
    requires forall t, u | t in picked && Edge(tables, t, u) :: u in picked
    ensures path[|path| - 1] in picked
  {
    if |path| == 1 {
    } else {
      var init := path[..|path| - 1];
      assert Path(tables, init);
      ClosedHoldsPath(tables, picked, init);
      assert Edge(tables, path[|path| - 2], path[|path| - 1]);
    }
  }

  // ---- The worklist ---------------------------------------------------------------------------

  /** What holds of the picked tables and the names looked up so far, at every step. */
  ghost predicate Progress(
      tables: seq<TableMeta>, seeds: seq<TableMeta>, picked: seq<TableMeta>, names: set<string>)
  {
    && seeds <= picked
    && (forall t | t in picked :: t in tables && Reachable(tables, seeds, t))
    && (forall n | n in names :: Covered(picked, n))
  }

  function Named(tables: seq<TableMeta>, names: set<string>, t: TableMeta): set<string> {
    set n | n in names && FindTable(tables, n) == Some(t)
  }

  /** Each name looked up stands for one table picked, and is a seed's own or that of a foreign key. */
  ghost predicate Counted(tables: seq<TableMeta>, seeds: seq<TableMeta>, picked: seq<TableMeta>, names: set<string>) {
    && (forall t :: multiset(picked)[t] == |Named(tables, names, t)|)
    && (forall t | t in seeds :: t.name in names)
    && (forall n | n in names :: Grounded(seeds, picked, n))
  }

  ghost predicate Grounded(seeds: seq<TableMeta>, picked: seq<TableMeta>, name: string) {
    (exists s :: s in seeds && s.name == name) || (exists u :: u in picked && RefersTo(u, name))
  }

  /** The references of these columns are looked up already, or lead nowhere. */
  ghost predicate Settled(tables: seq<TableMeta>, columns: seq<ColumnMeta>, names: set<string>) {
    forall c | c in columns && HasRef(c) && FindTable(tables, RefOf(c)).Some? :: RefOf(c) in names
  }

  lemma PickKeepsProgress(
      tables: seq<TableMeta>, seeds: seq<TableMeta>, picked: seq<TableMeta>, names: set<string>,
      t: TableMeta, c: ColumnMeta, u: TableMeta)
    requires Progress(tables, seeds, picked, names)
    requires t in picked && c in t.columns && HasRef(c) && FindTable(tables, RefOf(c)) == Some(u)
    ensures Progress(tables, seeds, picked + [u], names + {RefOf(c)})
  {
    assert Edge(tables, t, u);
    ReachableStep(tables, seeds, t, u);
    var grown := picked + [u];
    assert u in grown && SameName(u.name, RefOf(c));
    forall n | n in names ensures Covered(grown, n) {
      var v :| v in picked && SameName(v.name, n);
      assert v in grown;
    }
  }

  lemma NamedStep(tables: seq<TableMeta>, names: set<string>, name: string, t: TableMeta)
    requires name !in names
    ensures |Named(tables, names + {name}, t)|
            == |Named(tables, names, t)| + if FindTable(tables, name) == Some(t) then 1 else 0
  {
    hide FindTable;
    if FindTable(tables, name) == Some(t) {
      assert Named(tables, names + {name}, t) == Named(tables, names, t) + {name};
    } else {
      assert Named(tables, names + {name}, t) == Named(tables, names, t);
    }
  }

  lemma GroundedStays(seeds: seq<TableMeta>, picked: seq<TableMeta>, u: TableMeta, name: string)
    requires Grounded(seeds, picked, name)
    ensures Grounded(seeds, picked + [u], name)
  {
    hide RefersTo;
    if v :| v in picked && RefersTo(v, name) {
      assert v in picked + [u];
    }
  }

  lemma PickKeepsCounted(
      tables: seq<TableMeta>, seeds: seq<TableMeta>, picked: seq<TableMeta>, names: set<string>,
      t: TableMeta, c: ColumnMeta, u: TableMeta)
    requires Counted(tables, seeds, picked, names)
    requires t in picked && c in t.columns && HasRef(c) && RefOf(c) !in names
    requires FindTable(tables, RefOf(c)) == Some(u)
    ensures Counted(tables, seeds, picked + [u], names + {RefOf(c)})
  {
    hide FindTable, HasRef, RefOf, Named, Grounded;
    var name := RefOf(c);
    forall v ensures multiset(picked + [u])[v] == |Named(tables, names + {name}, v)| {
      NamedStep(tables, names, name, v);
    }
    forall n | n in names ensures Grounded(seeds, picked + [u], n) { GroundedStays(seeds, picked, u, n); }
    assert Grounded(seeds, picked + [u], name) by { ReferenceIsGrounded(seeds, picked + [u], t, c); }
  }

  lemma ReferenceIsGrounded(seeds: seq<TableMeta>, picked: seq<TableMeta>, t: TableMeta, c: ColumnMeta)
    requires t in picked && c in t.columns && HasRef(c)
    ensures Grounded(seeds, picked, RefOf(c))
  {
    assert RefersTo(t, RefOf(c));
  }

  lemma FoundByItsName(tables: seq<TableMeta>, t: TableMeta)
    requires UniqueNames(tables) && t in tables
    ensures FindTable(tables, t.name) == Some(t)
  {
    SameNameSameTable(tables, FindTable(tables, t.name).value, t);
  }

  lemma SeedsAreCounted(tables: seq<TableMeta>, seeds: seq<TableMeta>)
    requires UniqueNames(tables) && NoRepeats(seeds) && forall t | t in seeds :: t in tables
    ensures Counted(tables, seeds, seeds, set t | t in seeds :: t.name)
  {
    var names := set t | t in seeds :: t.name;
    forall t ensures multiset(seeds)[t] == |Named(tables, names, t)| {
      forall s | s in seeds ensures FindTable(tables, s.name) == Some(s) { FoundByItsName(tables, s); }
      NoRepeatsMultiplicity(seeds, t);
      assert Named(tables, names, t) == if t in seeds then {t.name} else {};
    }
  }

  lemma SeedsStart(tables: seq<TableMeta>, seeds: seq<TableMeta>)
    requires forall t | t in seeds :: t in tables
    ensures Progress(tables, seeds, seeds, set t | t in seeds :: t.name)
  {
    forall t | t in seeds ensures Reachable(tables, seeds, t) { SeedIsReachable(tables, seeds, t); }
  }

  /** At the fixpoint: closed, and with unique names precisely the reachable tables, once per spelling. */
  lemma Fixpoint(tables: seq<TableMeta>, seeds: seq<TableMeta>, picked: seq<TableMeta>, names: set<string>)
    requires Progress(tables, seeds, picked, names)
    requires forall t | t in picked :: Settled(tables, t.columns, names)
    ensures Closed(tables, picked)
    ensures UniqueNames(tables) ==> forall u :: u in picked <==> Reachable(tables, seeds, u)
    ensures UniqueNames(tables) && Counted(tables, seeds, picked, names)
            ==> forall t :: multiset(picked)[t] == |Spellings(tables, seeds, t)|
  {
    hide FindTable, SameName, HasRef, RefOf, Spellings, Named;
    SettledIsClosed(tables, picked, names);
    if UniqueNames(tables) {
      ClosedHoldsEdges(tables, picked);
      forall u | Reachable(tables, seeds, u) ensures u in picked {
        var path :| Path(tables, path) && path[0] in seeds && path[|path| - 1] == u;
        ClosedHoldsPath(tables, picked, path);
      }
      if Counted(tables, seeds, picked, names) {
        forall t ensures Named(tables, names, t) == Spellings(tables, seeds, t) {
          NamesAreSpellings(tables, seeds, picked, names, t);
        }
      }
    }
  }

  lemma SettledIsClosed(tables: seq<TableMeta>, picked: seq<TableMeta>, names: set<string>)
    requires forall t | t in picked :: Settled(tables, t.columns, names)
    requires forall n | n in names :: Covered(picked, n)
    ensures Closed(tables, picked)
  {
    hide FindTable, SameName, HasRef, RefOf;
  }

  /** Under unique names, a table that matches a reference is the one it leads to. */
  lemma ClosedHoldsEdges(tables: seq<TableMeta>, picked: seq<TableMeta>)
    requires UniqueNames(tables) && Closed(tables, picked) && forall t | t in picked :: t in tables
    ensures forall t, u | t in picked && Edge(tables, t, u) :: u in picked
  {
    hide FindTable, HasRef, RefOf;
    forall t, u | t in picked && Edge(tables, t, u) ensures u in picked {
      var c :| c in t.columns && HasRef(c) && FindTable(tables, RefOf(c)) == Some(u);
      assert Covered(picked, RefOf(c));
      var v :| v in picked && SameName(v.name, RefOf(c));
      SameNameSameTable(tables, u, v);
    }
  }

  /** What was looked up for a table is what it is called by the seeds and by reachable foreign keys. */
  lemma NamesAreSpellings(
      tables: seq<TableMeta>, seeds: seq<TableMeta>, picked: seq<TableMeta>, names: set<string>, t: TableMeta)
    requires UniqueNames(tables) && Counted(tables, seeds, picked, names)
    requires forall u :: u in picked <==> Reachable(tables, seeds, u)
    requires forall u | u in picked :: u in tables && Settled(tables, u.columns, names)
    requires forall u | u in seeds :: u in tables
    ensures Named(tables, names, t) == Spellings(tables, seeds, t)
  {
    hide FindTable, HasRef, RefOf, Settled, Reachable, RefersTo, UniqueNames, SameName;
    forall n | n in Named(tables, names, t) ensures n in Spellings(tables, seeds, t) {
      NameIsSpelling(tables, seeds, picked, names, t, n);
    }
    forall n | n in Spellings(tables, seeds, t) && !(t in seeds && n == t.name) ensures n in names {
      var u :| u in tables && Reachable(tables, seeds, u) && RefersTo(u, n);
      assert u in picked;
      ResolvedReferenceIsNamed(tables, u, names, n);
    }
  }

  lemma NameIsSpelling(
      tables: seq<TableMeta>, seeds: seq<TableMeta>, picked: seq<TableMeta>, names: set<string>,
      t: TableMeta, n: string)
    requires UniqueNames(tables) && Grounded(seeds, picked, n) && FindTable(tables, n) == Some(t)
    requires forall u | u in picked :: u in tables && Reachable(tables, seeds, u)
    requires forall u | u in seeds :: u in tables
    ensures n in Spellings(tables, seeds, t)
  {
    hide FindTable, HasRef, RefOf, Reachable, UniqueNames, SameName;
    if s :| s in seeds && s.name == n {
      FoundByItsName(tables, s);
    } else {
      var u :| u in picked && RefersTo(u, n);
    }
  }

  lemma ResolvedReferenceIsNamed(tables: seq<TableMeta>, u: TableMeta, names: set<string>, n: string)
    requires Settled(tables, u.columns, names) && RefersTo(u, n) && FindTable(tables, n).Some?
    ensures n in names
  {
    hide FindTable, HasRef, RefOf;
  }

  lemma SameNameSameTable(tables: seq<TableMeta>, u: TableMeta, v: TableMeta)
    requires UniqueNames(tables) && u in tables && v in tables && SameName(u.name, v.name)
    ensures u == v
  {
    var i :| 0 <= i < |tables| && tables[i] == u;
    var j :| 0 <= j < |tables| && tables[j] == v;
    assert SameName(tables[i].name, tables[j].name) && SameName(tables[j].name, tables[i].name);
  }

  lemma {:induction false} ScoringKeeps(tables: seq<TableMeta>, asked: set<string>)
    ensures forall t | t in Scoring(tables, asked) :: t in tables
    ensures NoRepeats(tables) ==> NoRepeats(Scoring(tables, asked))
  {
    if tables == [] {
    } else {
      ScoringKeeps(tables[1..], asked);
      assert forall i | 0 <= i < |tables[1..]| :: tables[1..][i] == tables[i + 1];
      assert NoRepeats(tables) ==> NoRepeats(tables[1..]) && tables[0] !in tables[1..];
    }
  }

  lemma {:induction false} SortKeepsNoRepeats(tables: seq<TableMeta>, leq: (TableMeta, TableMeta) -> bool)
    requires NoRepeats(tables)
    ensures NoRepeats(Sort(tables, leq))
  {
    var sorted := Sort(tables, leq);
    SortPermutes(tables, leq);
    forall i, j | 0 <= i < j < |sorted| ensures sorted[i] != sorted[j] {
      if sorted[i] == sorted[j] {
        assert sorted == sorted[..i] + [sorted[i]] + sorted[i + 1..j] + [sorted[j]] + sorted[j + 1..];
        assert multiset(sorted)[sorted[i]] >= 2;
        NoRepeatsMultiplicity(tables, sorted[i]);
      }
    }
  }

  lemma {:induction false} NoRepeatsMultiplicity(tables: seq<TableMeta>, t: TableMeta)
    requires NoRepeats(tables)
    ensures multiset(tables)[t] <= 1
  {
    if tables == [] {
    } else {
      NoRepeatsMultiplicity(tables[1..], t);
      assert tables == [tables[0]] + tables[1..];
      assert tables[0] !in tables[1..];
    }
  }

  lemma SeedsAreTables(tables: seq<TableMeta>, question: string, maxTables: int)
    ensures forall t | t in Seeds(tables, question, maxTables) :: t in tables
    ensures NoRepeats(tables) ==> NoRepeats(Seeds(tables, question, maxTables))
  {
    hide Tokens, Sort, Scoring, Score;
    var asked := Tokens(question);
    var scored := Sort(tables, ByScore(asked));
    SortPermutes(tables, ByScore(asked));
    MembersAgree(scored, tables);
    ScoringKeeps(scored, asked);
    if NoRepeats(tables) {
      SortKeepsNoRepeats(tables, ByScore(asked));
    }
  }

  lemma ScoredIsSorted(tables: seq<TableMeta>, asked: set<string>)
    ensures Sorted(Sort(tables, ByScore(asked)), ByScore(asked))
    ensures forall t :: t in tables <==> t in Sort(tables, ByScore(asked))
  {
    hide Sort, Score;
    var scored := Sort(tables, ByScore(asked));
    SortPermutes(tables, ByScore(asked));
    MembersAgree(scored, tables);
    assert TotalPreorder(ByScore(asked));
    SortSorts(tables, ByScore(asked));
  }

  lemma PrefixPrecedes<T>(prefix: seq<T>, sorted: seq<T>, leq: (T, T) -> bool, s: T, t: T) returns (j: nat)
    requires prefix <= sorted && Sorted(sorted, leq) && s in prefix && t in sorted && t !in prefix
    ensures |prefix| <= j < |sorted| && sorted[j] == t && leq(s, t)
  {
    var i :| 0 <= i < |prefix| && prefix[i] == s;
    j :| 0 <= j < |sorted| && sorted[j] == t;
    assert forall k | 0 <= k < |prefix| :: sorted[k] == prefix[k] && prefix[k] in prefix;
    assert sorted[i] == s && leq(sorted[i], sorted[j]);
  }

  /** The seeds come first by score; all that score are among them unless the maximum is reached. */
  lemma SeedsComeFirst(tables: seq<TableMeta>, question: string, maxTables: nat)
    ensures
      var asked, seeds := Tokens(question), Seeds(tables, question, maxTables);
      var scored := Sort(tables, ByScore(asked));
      seeds <= scored
      && forall i | |seeds| <= i < |scored| && Score(scored[i], asked) > 0 :: |seeds| == maxTables
  {
    hide Score, Tokens, Sort, Scoring, Sorted;
    var asked := Tokens(question);
    var scored := Sort(tables, ByScore(asked));
    ScoredIsSorted(tables, asked);
    ScoringSplits(scored, asked);
  }

  /** No table left out scores higher than a seed, and unasked tables come in only when nothing is asked for. */
  lemma SeedsScoreHighest(tables: seq<TableMeta>, question: string, maxTables: nat, s: TableMeta, t: TableMeta)
    requires s in Seeds(tables, question, maxTables) && t in tables && t !in Seeds(tables, question, maxTables)
    ensures Score(s, Tokens(question)) >= Score(t, Tokens(question))
    ensures Score(t, Tokens(question)) > 0 ==> |Seeds(tables, question, maxTables)| == maxTables
  {
    hide Score, Tokens, Sort, Seeds, Sorted;
    var asked := Tokens(question);
    var scored := Sort(tables, ByScore(asked));
    ScoredIsSorted(tables, asked);
    SeedsComeFirst(tables, question, maxTables);
    var j := PrefixPrecedes(Seeds(tables, question, maxTables), scored, ByScore(asked), s, t);
  }

  /** Sorted by falling score, the tables that score at all come first. */
  lemma {:induction false} ScoringSplits(sorted: seq<TableMeta>, asked: set<string>)
    requires Sorted(sorted, ByScore(asked))
    ensures Scoring(sorted, asked) <= sorted
    ensures forall i | |Scoring(sorted, asked)| <= i < |sorted| :: Score(sorted[i], asked) == 0
  {
    hide Score;
    if sorted == [] {
    } else {
      var rest := sorted[1..];
      SortedTail(sorted, ByScore(asked));
      ScoringSplits(rest, asked);
      if Score(sorted[0], asked) == 0 {
        forall i | 0 <= i < |rest| ensures Score(rest[i], asked) == 0 {
          assert ByScore(asked)(sorted[0], sorted[i + 1]);
        }
        NothingScores(rest, asked);
      } else {
        forall i | |Scoring(sorted, asked)| <= i < |sorted| ensures Score(sorted[i], asked) == 0 {
          assert sorted[i] == rest[i - 1];
        }
      }
    }
  }

  lemma {:induction false} NothingScores(tables: seq<TableMeta>, asked: set<string>)
    requires forall t | t in tables :: Score(t, asked) == 0
    ensures Scoring(tables, asked) == []
  {
    if tables == [] {
    } else {
      NothingScores(tables[1..], asked);
    }
  }

  /** The invariant of the worklist. */
  ghost predicate Consistent(
      tables: seq<TableMeta>, seeds: seq<TableMeta>, picked: seq<TableMeta>, names: set<string>)
  {
    && Progress(tables, seeds, picked, names)
    && (UniqueNames(tables) ==> Counted(tables, seeds, picked, names))
  }

  /** Either nothing was found, or at least one more of the finitely many references is looked up. */
  ghost predicate Advances(
      tables: seq<TableMeta>, picked: seq<TableMeta>, names: set<string>,
      picked': seq<TableMeta>, names': set<string>, changed: bool)
  {
    && picked <= picked' && names <= names'
    && if changed then AllRefs(tables) - names' < AllRefs(tables) - names else picked' == picked && names' == names
  }

  lemma PickIsConsistent(
      tables: seq<TableMeta>, seeds: seq<TableMeta>, picked: seq<TableMeta>, names: set<string>,
      t: TableMeta, c: ColumnMeta, u: TableMeta)
    requires Consistent(tables, seeds, picked, names)
    requires t in picked && c in t.columns && HasRef(c) && RefOf(c) !in names
    requires FindTable(tables, RefOf(c)) == Some(u)
    ensures Consistent(tables, seeds, picked + [u], names + {RefOf(c)})
    ensures RefOf(c) in AllRefs(tables) - names
  {
    PickKeepsProgress(tables, seeds, picked, names, t, c, u);
    if UniqueNames(tables) {
      PickKeepsCounted(tables, seeds, picked, names, t, c, u);
    }
  }

  lemma SettledStep(
      tables: seq<TableMeta>, columns: seq<ColumnMeta>, c: ColumnMeta, names: set<string>, names': set<string>)
    requires Settled(tables, columns, names) && names <= names'
    requires HasRef(c) && FindTable(tables, RefOf(c)).Some? ==> RefOf(c) in names'
    ensures Settled(tables, columns + [c], names')
  {
  }

  ghost predicate AllSettled(tables: seq<TableMeta>, done: seq<TableMeta>, names: set<string>) {
    forall t | t in done :: Settled(tables, t.columns, names)
  }

  lemma AllSettledStep(
      tables: seq<TableMeta>, done: seq<TableMeta>, t: TableMeta, names: set<string>, names': set<string>)
    requires AllSettled(tables, done, names) && names <= names' && Settled(tables, t.columns, names')
    ensures AllSettled(tables, done + [t], names')
  {
    forall u | u in done ensures Settled(tables, u.columns, names') {
      assert Settled(tables, u.columns, names);
    }
  }

  lemma PickAdvances(
      tables: seq<TableMeta>, picked: seq<TableMeta>, names: set<string>,
      picked': seq<TableMeta>, names': set<string>, changed: bool, u: TableMeta, ref: string)
    requires Advances(tables, picked, names, picked', names', changed) && ref in AllRefs(tables) - names'
    ensures Advances(tables, picked, names, picked' + [u], names' + {ref}, true)
  {
  }

  /** One pass over a table's columns: tables its foreign keys name are picked unless looked up before. */
  method FollowKeys(
      tables: seq<TableMeta>, ghost seeds: seq<TableMeta>, t: TableMeta, picked: seq<TableMeta>, names: set<string>)
    returns (picked': seq<TableMeta>, names': set<string>, changed: bool)
    requires Consistent(tables, seeds, picked, names) && t in picked
    ensures Consistent(tables, seeds, picked', names')
    ensures Advances(tables, picked, names, picked', names', changed)
    ensures Settled(tables, t.columns, names')
  {
    picked', names', changed := picked, names, false;
    for k := 0 to |t.columns|
      invariant Consistent(tables, seeds, picked', names')
      invariant Advances(tables, picked, names, picked', names', changed)
      invariant Settled(tables, t.columns[..k], names')
    {
      var c := t.columns[k];
      ghost var before := names';
      if HasRef(c) && RefOf(c) !in names' {
        var found := FindTable(tables, RefOf(c));
        if found.Some? {
          PickIsConsistent(tables, seeds, picked', names', t, c, found.value);
          PickAdvances(tables, picked, names, picked', names', changed, found.value, RefOf(c));
          picked', names', changed := picked' + [found.value], names' + {RefOf(c)}, true;
        }
      }
      SettledStep(tables, t.columns[..k], c, before, names');
      PrefixStep(t.columns, k);
    }
    FullPrefix(t.columns);
  }

  lemma UniqueNamesNoRepeats(tables: seq<TableMeta>)
    requires UniqueNames(tables)
    ensures NoRepeats(tables)
  {
    forall i, j | 0 <= i < j < |tables| ensures tables[i] != tables[j] {
      assert !SameName(tables[i].name, tables[j].name);
    }
  }

  lemma SeedsAreConsistent(tables: seq<TableMeta>, question: string, maxTables: int)
    ensures
      var seeds := Seeds(tables, question, maxTables);
      Consistent(tables, seeds, seeds, set t | t in seeds :: t.name)
  {
    SeedsAreTables(tables, question, maxTables);
    SeedsStart(tables, Seeds(tables, question, maxTables));
    if UniqueNames(tables) {
      UniqueNamesNoRepeats(tables);
      SeedsAreCounted(tables, Seeds(tables, question, maxTables));
    }
  }

  lemma AdvancesCompose(
      tables: seq<TableMeta>, p0: seq<TableMeta>, n0: set<string>, p1: seq<TableMeta>, n1: set<string>, first: bool,
      p2: seq<TableMeta>, n2: set<string>, second: bool)
    requires Advances(tables, p0, n0, p1, n1, first) && Advances(tables, p1, n1, p2, n2, second)
    ensures Advances(tables, p0, n0, p2, n2, first || second)
  {
  }

  /**
   * The closure of the seeds: sound, since everything in it is reachable from a seed; complete, since no foreign
   * key leads out of it; and with unique names precisely the reachable tables, each once for every spelling.
   */
  ghost predicate ClosureOf(tables: seq<TableMeta>, seeds: seq<TableMeta>, result: seq<TableMeta>) {
    && seeds <= result
    && Closed(tables, result)
    && (forall t | t in result :: t in tables && Reachable(tables, seeds, t))
    && (UniqueNames(tables) ==>
          && (forall t :: t in result <==> Reachable(tables, seeds, t))
          && forall t :: multiset(result)[t] == |Spellings(tables, seeds, t)|)
  }

  /** A table is repeated exactly when it comes in under two spellings. */
  lemma RepeatsAreSpellings(tables: seq<TableMeta>, seeds: seq<TableMeta>, result: seq<TableMeta>)
    requires UniqueNames(tables) && ClosureOf(tables, seeds, result)
    ensures NoRepeats(result) <==> forall t :: |Spellings(tables, seeds, t)| <= 1
  {
    if NoRepeats(result) {
      forall t ensures |Spellings(tables, seeds, t)| <= 1 { NoRepeatsMultiplicity(result, t); }
    }
    forall i, j | 0 <= i < j < |result| && result[i] == result[j] ensures |Spellings(tables, seeds, result[i])| >= 2 {
      assert result == result[..i] + [result[i]] + result[i + 1..j] + [result[j]] + result[j + 1..];
    }
  }

  /** Foreign keys spell their tables exactly. */
  ghost predicate WellSpelled(tables: seq<TableMeta>) {
    forall t, c | t in tables && c in t.columns && HasRef(c) && FindTable(tables, RefOf(c)).Some? ::
      FindTable(tables, RefOf(c)).value.name == RefOf(c)
  }

  /** With exact spelling nothing is repeated. */
  lemma ExactSpellingIsEnough(tables: seq<TableMeta>, seeds: seq<TableMeta>, result: seq<TableMeta>)
    requires UniqueNames(tables) && WellSpelled(tables) && ClosureOf(tables, seeds, result)
    ensures NoRepeats(result)
  {
    forall t ensures |Spellings(tables, seeds, t)| <= 1 {
      forall n | n in Spellings(tables, seeds, t) ensures n == t.name {
        if !(t in seeds && n == t.name) {
          var u :| u in tables && Reachable(tables, seeds, u) && RefersTo(u, n);
          var c :| c in u.columns && HasRef(c) && RefOf(c) == n;
        }
      }
      assert Spellings(tables, seeds, t) <= {t.name};
      SubsetIsSmaller(Spellings(tables, seeds, t), {t.name});
    }
    RepeatsAreSpellings(tables, seeds, result);
  }

  lemma SubsetIsSmaller<T>(a: set<T>, b: set<T>)
    requires a <= b
    ensures |a| <= |b|
  {
    assert b == a + (b - a) && |b| == |a| + |b - a|;
  }

  const USER_KEY := ColumnMeta("user_id", "INT", true, false, Some("users.id"))
  const ORDERS := TableMeta("orders", [USER_KEY], None, [])
  const USERS := TableMeta("Users", [], None, [])
  const LOG := TableMeta("log", [], None, [])

  lemma ExampleNames()
    ensures UniqueNames([ORDERS, USERS, LOG]) && FindTable([ORDERS, USERS, LOG], "users") == Some(USERS)
  {
    hide FindTable;
    var tables := [ORDERS, USERS, LOG];
    assert Lower("Users") == "users" == Lower("users");
    assert Lower("orders")[0] == 'o' && Lower("log")[0] == 'l';
    assert USERS in tables;
    SameNameSameTable(tables, FindTable(tables, "users").value, USERS);
  }

  /** A foreign key in lower case and a seed in upper case: the table is in the prompt twice. */
  lemma MisspelledKeyRepeatsTable(result: seq<TableMeta>)
    requires ClosureOf([ORDERS, USERS, LOG], Seeds([ORDERS, USERS, LOG], "", 2), result)
    ensures multiset(result)[USERS] == 2
  {
    hide FindTable, Seeds, HasRef, RefOf, Spellings, UniqueNames, Closed, Reachable;
    var tables := [ORDERS, USERS, LOG];
    NothingAskedKeepsOrder(tables, 2);
    var seeds := Seeds(tables, "", 2);
    assert seeds == [ORDERS, USERS];
    UsersRef(USER_KEY);
    ExampleNames();
    ExampleSpellings(tables, seeds);
  }

  lemma ExampleSpellings(tables: seq<TableMeta>, seeds: seq<TableMeta>)
    requires tables == [ORDERS, USERS, LOG] && seeds == [ORDERS, USERS]
    ensures Spellings(tables, seeds, USERS) == {"users", "Users"}
  {
    hide FindTable, HasRef, RefOf, Reachable, UniqueNames, SameName;
    UsersRef(USER_KEY);
    ExampleNames();
    FoundByItsName(tables, USERS);
    SeedIsReachable(tables, seeds, ORDERS);
    assert USER_KEY in ORDERS.columns && ORDERS in tables && RefersTo(ORDERS, "users");
    assert "users" in AllRefs(tables);
    forall n | n in Spellings(tables, seeds, USERS) && n != "Users" ensures n == "users" {
      var u :| u in tables && Reachable(tables, seeds, u) && RefersTo(u, n);
    }
  }

  lemma UsersRef(c: ColumnMeta)
    requires c.fkRef == Some("users.id")
    ensures HasRef(c) && RefOf(c) == "users"
  {
    var s := "users.id";
    assert s[5] == '.' && IndexOf(s, 0, '.') == 5;
    assert s[..5] == "users";
  }

  /** A question without words scores nothing, so the tables keep their order. */
  lemma NothingAskedKeepsOrder(tables: seq<TableMeta>, n: nat)
    requires n <= |tables|
    ensures Seeds(tables, "", n) == tables[..n]
  {
    assert Tokens("") == {};
    forall t ensures Score(t, {}) == 0 { ScoreOfNothing(t.columns); }
    SortOfTies(tables, ByScore({}));
    NothingScores(tables, {});
  }

  lemma {:induction false} ScoreOfNothing(columns: seq<ColumnMeta>)
    ensures ColumnScore(columns, {}) == 0
  {
    if columns == [] {
    } else {
      ScoreOfNothing(columns[1..]);
    }
  }

  lemma {:induction false} SortOfTies(tables: seq<TableMeta>, leq: (TableMeta, TableMeta) -> bool)
    requires forall a, b :: leq(a, b)
    ensures Sort(tables, leq) == tables
  {
    if tables == [] {
    } else {
      SortOfTies(tables[1..], leq);
    }
  }

  lemma FixpointIsClosure(tables: seq<TableMeta>, seeds: seq<TableMeta>, picked: seq<TableMeta>, names: set<string>)
    requires Consistent(tables, seeds, picked, names) && AllSettled(tables, picked, names)
    ensures ClosureOf(tables, seeds, picked)
  {
    Fixpoint(tables, seeds, picked, names);
  }

  lemma AdvancesKeepsNames(
      tables: seq<TableMeta>, picked: seq<TableMeta>, names: set<string>,
      picked': seq<TableMeta>, names': set<string>, changed: bool)
    requires Advances(tables, picked, names, picked', names', changed)
    ensures names <= names'
  {
  }

  lemma PassStarts(tables: seq<TableMeta>, picked: seq<TableMeta>, names: set<string>)
    ensures Advances(tables, picked, names, picked, names, false) && AllSettled(tables, picked[..0], names)
  {
  }

  lemma PassEnds(
      tables: seq<TableMeta>, picked: seq<TableMeta>, names: set<string>,
      picked': seq<TableMeta>, names': set<string>, changed: bool)
    requires Advances(tables, picked, names, picked', names', changed)
    ensures if changed then AllRefs(tables) - names' < AllRefs(tables) - names else picked' == picked && names' == names
  {
  }

  lemma PassKeepsSnapshot(
      tables: seq<TableMeta>, snapshot: seq<TableMeta>, known: set<string>, picked: seq<TableMeta>, names: set<string>,
      changed: bool, n: nat)
    requires Advances(tables, snapshot, known, picked, names, changed) && n < |snapshot|
    ensures snapshot[n] in picked
  {
    PickedStays(snapshot, picked, n);
  }

  lemma PickedStays<T>(small: seq<T>, large: seq<T>, n: nat)
    requires small <= large && n < |small|
    ensures small[n] in large
  {
    assert large[n] == small[n];
  }

  /** One pass over the tables picked so far. */
  method PassOver(
      tables: seq<TableMeta>, ghost seeds: seq<TableMeta>, snapshot: seq<TableMeta>, known: set<string>)
    returns (picked: seq<TableMeta>, names: set<string>, changed: bool)
    requires Consistent(tables, seeds, snapshot, known)
    ensures Consistent(tables, seeds, picked, names) && AllSettled(tables, snapshot, names)
    ensures Advances(tables, snapshot, known, picked, names, changed)
  {
    hide Consistent, Advances, AllSettled, Settled, AllRefs;
    picked, names, changed := snapshot, known, false;
    PassStarts(tables, snapshot, known);
    for n := 0 to |snapshot|
      invariant Consistent(tables, seeds, picked, names)
      invariant Advances(tables, snapshot, known, picked, names, changed)
      invariant AllSettled(tables, snapshot[..n], names)
    {
      ghost var p, s, before := picked, names, changed;
      PassKeepsSnapshot(tables, snapshot, known, p, s, before, n);
      var found;
      PrefixStep(snapshot, n);
      picked, names, found := FollowKeys(tables, seeds, snapshot[n], picked, names);
      changed := changed || found;
      AdvancesCompose(tables, snapshot, known, p, s, before, picked, names, found);
      AdvancesKeepsNames(tables, p, s, picked, names, found);
      AllSettledStep(tables, snapshot[..n], snapshot[n], s, names);
    }
    FullPrefix(snapshot);
  }

  /** Small schemas pass through untouched; larger ones become the foreign-key closure of the seeds. */
  method RelevantTables(schema: SchemaMetadata, question: string, maxTables: int := 8) returns (r: SchemaMetadata)
    ensures |schema.tables| <= maxTables ==> r == schema
    ensures r == schema.(tables := r.tables)
    ensures |schema.tables| > maxTables ==>
              ClosureOf(schema.tables, Seeds(schema.tables, question, maxTables), r.tables)
  {
    if |schema.tables| <= maxTables {
      return schema;
    }
    hide Consistent, Advances, AllSettled, Settled, ClosureOf, Seeds, AllRefs;
    var tables := schema.tables;
    var seeds := Seeds(tables, question, maxTables);
    var picked := seeds;
    var names := set t | t in picked :: t.name;
    SeedsAreConsistent(tables, question, maxTables);
    var changed := true;
    while changed
      invariant Consistent(tables, seeds, picked, names)
      invariant !changed ==> AllSettled(tables, picked, names)
      decreases AllRefs(tables) - names, changed
    {
      ghost var snapshot, known := picked, names;
      picked, names, changed := PassOver(tables, seeds, picked, names);
      PassEnds(tables, snapshot, known, picked, names, changed);
    }
    FixpointIsClosure(tables, seeds, picked, names);
    return schema.(tables := picked);
  }
}
