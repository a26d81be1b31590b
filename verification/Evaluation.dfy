/** The golden-set gate: comparison of executed result sets, and the tally of a run. */
module Evaluation {
  import opened Sorting
  import opened Text

  // ---- Normalised rows and their order --------------------------------------------------------

  /** A normalised cell: missing, a number (truth values count as numbers), or text. */
  datatype Cell = Null | Number(value: real) | Str(text: string)

  type Cells = seq<Cell>

  /** Python's order on cells; comparing cells of different kinds raises. */
  function CellLeq(a: Cell, b: Cell): Option<bool> {
    match (a, b)
    case (Number(x), Number(y)) => Some(x <= y)
    case (Str(x), Str(y)) => Some(LexLeq(x, y))
    case _ => None
  }

  /** Tuples are compared at the first position where they differ; a proper prefix comes first. */
  function Compare(a: Cells, b: Cells): Option<bool> {
    if a == [] then Some(true)
    else if b == [] then Some(false)
    else if a[0] == b[0] then Compare(a[1..], b[1..])
    else CellLeq(a[0], b[0])
  }

  function Rank(c: Cell): nat { if c.Null? then 0 else if c.Number? then 1 else 2 }

  /** The same order, made total by ranking cells of different kinds. */
  predicate RowLeq(a: Cells, b: Cells) {
    if a == [] then true
    else if b == [] then false
    else if a[0] == b[0] then RowLeq(a[1..], b[1..])
    else if CellLeq(a[0], b[0]).Some? then CellLeq(a[0], b[0]).value
    else Rank(a[0]) <= Rank(b[0])
  }

  function RowOrder(): (Cells, Cells) -> bool { (a: Cells, b: Cells) => RowLeq(a, b) }

  lemma {:induction false} RowTotal(a: Cells, b: Cells)
    ensures RowLeq(a, b) || RowLeq(b, a)
  {
    if a == [] || b == [] {
    } else if a[0] == b[0] {
      RowTotal(a[1..], b[1..]);
    } else if a[0].Str? && b[0].Str? {
      LexTotal(a[0].text, b[0].text);
    }
  }

  lemma {:induction false} RowAntisymmetric(a: Cells, b: Cells)
    requires RowLeq(a, b) && RowLeq(b, a)
    ensures a == b
  {
    if a == [] || b == [] {
    } else {
      if a[0].Str? && b[0].Str? && a[0] != b[0] {
        LexAntisymmetric(a[0].text, b[0].text);
      }
      RowAntisymmetric(a[1..], b[1..]);
      assert a == [a[0]] + a[1..] && b == [b[0]] + b[1..];
    }
  }

  lemma {:induction false} RowTransitive(a: Cells, b: Cells, c: Cells)
    requires RowLeq(a, b) && RowLeq(b, c)
    ensures RowLeq(a, c)
  {
    if a == [] || b == [] || c == [] {
    } else if a[0] == b[0] == c[0] {
      RowTransitive(a[1..], b[1..], c[1..]);
    } else if a[0].Str? && b[0].Str? && c[0].Str? && a[0] != b[0] && b[0] != c[0] {
      LexTransitive(a[0].text, b[0].text, c[0].text);
      if a[0] == c[0] {
        LexAntisymmetric(a[0].text, b[0].text);
      }
    }
  }

  lemma RowOrderIsTotal()
    ensures TotalOrder(RowOrder())
  {
    forall a, b ensures RowLeq(a, b) || RowLeq(b, a) { RowTotal(a, b); }
    forall a, b | RowLeq(a, b) && RowLeq(b, a) ensures a == b { RowAntisymmetric(a, b); }
    forall a, b, c | RowLeq(a, b) && RowLeq(b, c) ensures RowLeq(a, c) { RowTransitive(a, b, c); }
  }

  /** Where the comparison does not raise, it answers as the total order. */
  lemma {:induction false} CompareIsRowLeq(a: Cells, b: Cells)
    ensures Compare(a, b).Some? ==> Compare(a, b).value == RowLeq(a, b)
    ensures Compare(a, b).Some? <==> Compare(b, a).Some?
  {
    if a == [] || b == [] {
    } else {
      CompareIsRowLeq(a[1..], b[1..]);
    }
  }

  // ---- Sorting rows with a comparison that can raise ------------------------------------------

  function InsertRow(x: Cells, s: seq<Cells>): Option<seq<Cells>> {
    if s == [] then Some([x])
    else
      match Compare(x, s[0])
      case None => None
      case Some(true) => Some([x] + s)
      case Some(false) =>
        var rest := InsertRow(x, s[1..]);
        if rest.None? then None else Some([s[0]] + rest.value)
  }

  /** `sorted`, or nothing when a comparison raises. */
  function SortRows(s: seq<Cells>): Option<seq<Cells>> {
    if s == [] then Some([])
    else
      var rest := SortRows(s[1..]);
      if rest.None? then None else InsertRow(s[0], rest.value)
  }

  /** No two rows differ first at cells of different kinds. */
  ghost predicate Comparable(s: seq<Cells>) {
    forall a, b | a in s && b in s :: Compare(a, b).Some?
  }

  /**
   * Order decides neighbours: a row between two others that agree with it up to a position cannot keep them
   * apart, so an insertion that meets no clash has none beyond the place where it stops.
   */
  lemma {:induction false} NoClashBeyond(x: Cells, a: Cells, b: Cells)
    requires Compare(x, a) == Some(true) && RowLeq(a, b) && Compare(a, b).Some?
    ensures Compare(x, b).Some?
  {
    if x == [] || a == [] || b == [] {
    } else if x[0] == a[0] == b[0] {
      NoClashBeyond(x[1..], a[1..], b[1..]);
    } else if x[0] == b[0] && x[0].Str? && a[0].Str? {
      LexAntisymmetric(x[0].text, a[0].text);
    }
  }

  /** Inserting goes through exactly when the new row clashes with no other, wherever it ends up. */
  lemma {:induction false} InsertRaisesOnClash(x: Cells, s: seq<Cells>)
    requires Comparable(s) && Sorted(s, RowOrder())
    ensures InsertRow(x, s).Some? <==> forall b | b in s :: Compare(x, b).Some?
    ensures InsertRow(x, s).Some? ==> InsertRow(x, s).value == Insert(x, s, RowOrder())
  {
    if s == [] {
    } else {
      CompareIsRowLeq(x, s[0]);
      assert forall b | b in s[1..] :: b in s;
      assert s == [s[0]] + s[1..];
      if Compare(x, s[0]) == Some(true) {
        forall b | b in s ensures Compare(x, b).Some? {
          var k :| 0 <= k < |s| && s[k] == b;
          assert k > 0 ==> RowOrder()(s[0], s[k]);
          if k > 0 { NoClashBeyond(x, s[0], b); }
        }
      } else if Compare(x, s[0]) == Some(false) {
        assert Sorted(s[1..], RowOrder()) by { SortedTail(s, RowOrder()); }
        InsertRaisesOnClash(x, s[1..]);
      }
    }
  }

  /** Sorting raises exactly when two rows clash; otherwise it is the sort by the total order. */
  lemma {:induction false} SortRaisesOnClash(s: seq<Cells>)
    ensures SortRows(s).Some? <==> Comparable(s)
    ensures SortRows(s).Some? ==> SortRows(s).value == Sort(s, RowOrder())
  {
    if s == [] {
    } else {
      var rest := s[1..];
      SortRaisesOnClash(rest);
      assert forall b | b in rest :: b in s;
      assert s == [s[0]] + rest;
      if Comparable(rest) {
        var sorted := Sort(rest, RowOrder());
        SortPermutes(rest, RowOrder());
        MembersAgree(sorted, rest);
        RowOrderIsTotal();
        SortSorts(rest, RowOrder());
        InsertRaisesOnClash(s[0], sorted);
        ComparableCons(s[0], rest);
      }
    }
  }

  /**
   * No sorting algorithm avoids the clash: a sequence whose neighbours compare in order, as any completed sort
   * leaves it, is comparable throughout.
   */
  lemma {:induction false} NeighboursDecide(r: seq<Cells>, i: nat, j: nat)
    requires forall k | 0 <= k < |r| - 1 :: Compare(r[k], r[k + 1]) == Some(true)
    requires i < j < |r|
    ensures Compare(r[i], r[j]) == Some(true)
    decreases j - i
  {
    if j == i + 1 {
    } else {
      NeighboursDecide(r, i, j - 1);
      CompareIsRowLeq(r[i], r[j - 1]);
      CompareIsRowLeq(r[j - 1], r[j]);
      NoClashBeyond(r[i], r[j - 1], r[j]);
      RowTransitive(r[i], r[j - 1], r[j]);
      CompareIsRowLeq(r[i], r[j]);
    }
  }

  lemma ComparableCons(x: Cells, s: seq<Cells>)
    requires Comparable(s)
    ensures Comparable([x] + s) <==> forall b | b in s :: Compare(x, b).Some?
  {
    SelfComparable(x);
    forall b | b in s ensures Compare(x, b).Some? <==> Compare(b, x).Some? { CompareIsRowLeq(x, b); }
    assert x in [x] + s && forall b | b in s :: b in [x] + s;
  }

  lemma {:induction false} SelfComparable(x: Cells)
    ensures Compare(x, x) == Some(true)
  {
    if x == [] {
    } else {
      SelfComparable(x[1..]);
    }
  }

  // ---- Comparing results ----------------------------------------------------------------------

  /** What executing a query gives back: its rows, or an exception of any kind. */
  datatype Execution<V> = Rows(rows: seq<seq<V>>) | Raised

  /** How a comparison ends: with a verdict, or with an exception that nothing catches. */
  datatype Verdict = Judged(same: bool) | Crashed

  /** How cells are normalised, and how query text is. */
  datatype Comparison<!V> = Comparison(normalize: V -> Cell, normalizeText: string -> string)

  function NormalRow<V>(row: seq<V>, normalize: V -> Cell): (r: Cells)
    ensures |r| == |row|
  {
    seq(|row|, i requires 0 <= i < |row| => normalize(row[i]))
  }

  function Normalized<V>(rows: seq<seq<V>>, normalize: V -> Cell): (r: seq<Cells>)
    ensures |r| == |rows|
  {
    seq(|rows|, i requires 0 <= i < |rows| => NormalRow(rows[i], normalize))
  }

  function SameResults<V>(
      c: Comparison<V>, generated: string, expected: string, gen: Execution<V>, exp: Execution<V>): Verdict
  {
    if generated == "" then Judged(false)
    else if gen.Raised? || exp.Raised? then Judged(c.normalizeText(generated) == c.normalizeText(expected))
    else if |gen.rows| != |exp.rows| then Judged(false)
    else
      var a, b := SortRows(Normalized(gen.rows, c.normalize)), SortRows(Normalized(exp.rows, c.normalize));
      if a.None? || b.None? then Crashed else Judged(a.value == b.value)
  }

  /**
   * Two executed queries with as many rows each are compared as bags of normalised rows, whatever the order, if
   * the rows of each are comparable; otherwise the comparison crashes.
   */
  lemma SameResultsIsBagEquality<V>(
      c: Comparison<V>, generated: string, expected: string, gen: seq<seq<V>>, exp: seq<seq<V>>)
    requires generated != ""
    ensures
      var a, b := Normalized(gen, c.normalize), Normalized(exp, c.normalize);
      SameResults(c, generated, expected, Rows(gen), Rows(exp))
      == if |gen| == |exp| && !(Comparable(a) && Comparable(b)) then Crashed
         else Judged(multiset(a) == multiset(b))
  {
    var a, b := Normalized(gen, c.normalize), Normalized(exp, c.normalize);
    if multiset(a) == multiset(b) {
      assert |a| == |multiset(a)| == |multiset(b)| == |b|;
    }
    SortRaisesOnClash(a);
    SortRaisesOnClash(b);
    RowOrderIsTotal();
    SortDecidesBagEquality(a, b, RowOrder());
  }

  /** A missing value beside a present one in the first column: even a result compared with itself crashes. */
  lemma NullBesideValueCrashes(c: Comparison<Cell>, generated: string, expected: string)
    requires generated != "" && forall v :: c.normalize(v) == v
    ensures
      var rows := [[Null], [Number(1.0)]];
      SameResults(c, generated, expected, Rows(rows), Rows(rows)) == Crashed
  {
    var rows := [[Null], [Number(1.0)]];
    var a := Normalized(rows, c.normalize);
    assert a[0] == [Null] && a[1] == [Number(1.0)];
    assert a[0] in a && a[1] in a && Compare(a[0], a[1]).None?;
    SameResultsIsBagEquality(c, generated, expected, rows, rows);
  }

  // ---- A run ----------------------------------------------------------------------------------

  datatype GoldenCase = GoldenCase(question: string, sqlExpected: string, keywords: seq<string>)

  /** How the pipeline answered one case, with the outcome of running both queries for the comparison. */
  datatype Reply<V> =
    | PipelineError
    | Answer(sql: string, insight: string, ok: bool, generated: Execution<V>, expected: Execution<V>)

  datatype Report = Report(total: nat, correct: nat, failures: seq<string>)

  function Judge<V>(c: Comparison<V>, golden: GoldenCase, reply: Reply<V>): Verdict {
    match reply
    case PipelineError => Judged(false)
    case Answer(sql, insight, ok, generated, expected) =>
      if golden.sqlExpected != "" then SameResults(c, sql, golden.sqlExpected, generated, expected)
      else if golden.keywords != [] then
        Judged(forall i | 0 <= i < |golden.keywords| :: Contains(Lower(insight), golden.keywords[i]))
      else Judged(ok)
  }

  /** Both queries ran and gave as many rows, but the rows of one of them cannot be put in order. */
  ghost predicate Clashes<V>(c: Comparison<V>, golden: GoldenCase, reply: Reply<V>) {
    && reply.Answer? && golden.sqlExpected != "" && reply.sql != ""
    && reply.generated.Rows? && reply.expected.Rows? && |reply.generated.rows| == |reply.expected.rows|
    && !(Comparable(Normalized(reply.generated.rows, c.normalize))
         && Comparable(Normalized(reply.expected.rows, c.normalize)))
  }

  lemma CrashesOnClash<V>(c: Comparison<V>, golden: GoldenCase, reply: Reply<V>)
    ensures Judge(c, golden, reply).Crashed? <==> Clashes(c, golden, reply)
  {
    hide Comparable, SortRows;
    if reply.Answer? && golden.sqlExpected != "" && reply.sql != "" && reply.generated.Rows? && reply.expected.Rows? {
      SameResultsIsBagEquality(c, reply.sql, golden.sqlExpected, reply.generated.rows, reply.expected.rows);
    }
  }

  predicate Passes<V>(c: Comparison<V>, golden: GoldenCase, reply: Reply<V>) {
    Judge(c, golden, reply) == Judged(true)
  }

  /**
   * Runs the golden set in order. The run completes exactly when no case's rows clash; then every case ends up
   * counted as correct or listed as a failure.
   */
  method RunEval<V>(c: Comparison<V>, golden: seq<GoldenCase>, replies: seq<Reply<V>>)
    returns (report: Option<Report>)
    requires |replies| == |golden|
    ensures report.None? <==> exists i :: 0 <= i < |golden| && Clashes(c, golden[i], replies[i])
    ensures report.Some? ==>
              var r := report.value;
              && r.total == |golden| && r.correct + |r.failures| == r.total
              && r.correct == |set i | 0 <= i < |golden| && Passes(c, golden[i], replies[i])|
              && forall q :: q in r.failures <==>
                   exists i :: 0 <= i < |golden| && golden[i].question == q && !Passes(c, golden[i], replies[i])
  {
    hide Judge, Clashes;
    var correct: nat, failures: seq<string> := 0, [];
    ghost var passed: set<int> := {};
    for n := 0 to |golden|
      invariant correct + |failures| == n
      invariant forall i | 0 <= i < n :: !Clashes(c, golden[i], replies[i])
      invariant passed == set i | 0 <= i < n && Passes(c, golden[i], replies[i])
      invariant correct == |passed|
      invariant forall q :: q in failures <==>
                  exists i :: 0 <= i < n && golden[i].question == q && !Passes(c, golden[i], replies[i])
    {
      var verdict := Judge(c, golden[n], replies[n]);
      CrashesOnClash(c, golden[n], replies[n]);
      if verdict.Crashed? {
        return None;
      }
      if verdict.same {
        passed := passed + {n};
        correct := correct + 1;
      } else {
        failures := failures + [golden[n].question];
      }
    }
    return Some(Report(|golden|, correct, failures));
  }
}
