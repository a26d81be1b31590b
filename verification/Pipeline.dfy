/** The question pipeline: cache, self-correcting SQL flow, analysis flow, and their shared end. */
module Pipeline {
  import opened Text
  import opened Sorting
  import opened Schema
  import SchemaCache
  import opened QueryCaching
  import opened Answers

  const MAX_ATTEMPTS: nat := 3
  const MAX_ANALYSIS_QUERIES: nat := 4
  const SUBSTANTIVE: nat := 60
  const FLAKY: string := "Model belum memberikan jawaban \U{2014} mencoba ulang"
  const UNANSWERABLE: string := "This question cannot be answered with the available data schema."
  const UNANSWERABLE_ID: string := "Pertanyaan ini tidak dapat dijawab dengan skema data yang tersedia."

  // ---- What the outside world may answer ------------------------------------------------------

  datatype GuardResult = Passed(sql: string) | Refused(error: string)

  datatype SqlPlan = SqlPlan(sql: string, reasoning: string, needsData: bool, queries: seq<string>)

  /** A model's reply, parsed. */
  datatype Reply = Unparsable(error: string) | Planned(plan: SqlPlan)

  /** Rows are in their output form, masked and capped; the height counts them all. */
  datatype Frame = Frame(columns: seq<string>, rows: seq<string>, height: nat)

  datatype DbOutcome = Rows(frame: Frame) | MissingTable(error: string) | DbFailure(error: string)

  /** One round of the SQL flow: the reply, the outcome of its query, and the schema if it is read again. */
  datatype Round = Round(reply: Reply, outcome: DbOutcome, reread: SchemaMetadata, tokens: nat)

  /** One round of the analysis flow: the reply and the outcomes of its queries, in order. */
  datatype AnalysisRound = AnalysisRound(reply: Reply, outcomes: seq<DbOutcome>, tokens: nat)

  /** The model's text about a result, and the figure drawn from it. */
  datatype Explanation = Explanation(text: string, figure: Option<string>, tokens: nat)

  datatype FinalReply = FinalReply(insight: string, recommendations: seq<string>, tokens: nat)

  datatype Question = Question(text: string, user: string, role: string, model: string, stream: bool, analysis: bool)

  // ---- The SQL flow, described by its rounds --------------------------------------------------

  datatype Kind =
    | BadReply(error: string)
    | Advice(text: string)
    | Flaky
    | Rejected(error: string)
    | Missing(sql: string, error: string)
    | Broken(sql: string, error: string)
    | Success(sql: string, frame: Frame)

  /** What checking and running a query comes to. */
  function QueryKind(checked: GuardResult, outcome: DbOutcome): Kind {
    match checked
    case Refused(error) => Rejected(error)
    case Passed(sql) =>
      match outcome
      case Rows(frame) => Success(sql, frame)
      case MissingTable(error) => Missing(sql, error)
      case DbFailure(error) => Broken(sql, error)
  }

  function KindOf(guard: string -> GuardResult, r: Round): Kind {
    match r.reply
    case Unparsable(error) => BadReply("Invalid response from model: " + error)
    case Planned(plan) =>
      if !plan.needsData || Trim(plan.sql) == "" then
        if |Trim(plan.reasoning)| >= SUBSTANTIVE then Advice(Trim(plan.reasoning)) else Flaky
      else QueryKind(guard(plan.sql), r.outcome)
  }

  /** The query the guard let through in this round. */
  function SqlOf(kind: Kind): Option<string> {
    match kind
    case Missing(sql, _) => Some(sql)
    case Broken(sql, _) => Some(sql)
    case Success(sql, _) => Some(sql)
    case _ => None
  }

  /** The error this round leaves for the next one. */
  function ErrorOf(kind: Kind): Option<string> {
    match kind
    case BadReply(error) => Some(error)
    case Rejected(error) => Some(error)
    case Missing(_, error) => Some(error)
    case Broken(_, error) => Some(error)
    case Flaky => Some(FLAKY)
    case _ => None
  }

  function Kinds(guard: string -> GuardResult, rounds: seq<Round>): (r: seq<Kind>)
    ensures |r| == |rounds|
  {
    seq(|rounds|, i requires 0 <= i < |rounds| => KindOf(guard, rounds[i]))
  }

  predicate HasFlaky(kinds: seq<Kind>) { exists i :: 0 <= i < |kinds| && kinds[i].Flaky? }

  /** The round that ends the loop: rows, a substantive answer, or the second refusal. */
  predicate Ends(kinds: seq<Kind>, i: nat)
    requires i < |kinds|
  {
    kinds[i].Success? || kinds[i].Advice? || (kinds[i].Flaky? && HasFlaky(kinds[..i]))
  }

  ghost predicate EndsAt(kinds: seq<Kind>, n: nat) {
    n < |kinds| && Ends(kinds, n) && forall i | 0 <= i < n :: !Ends(kinds, i)
  }

  ghost predicate NeverEnds(kinds: seq<Kind>) {
    forall i | 0 <= i < |kinds| :: !Ends(kinds, i)
  }

  function Say(stream: bool, e: Event): seq<Effect> {
    if stream then [Emit(e)] else []
  }

  /** The effects of what round n, counted from zero, came to. */
  function KindLog(kind: Kind, n: nat, stream: bool): seq<Effect> {
    match kind
    case BadReply(error) => Say(stream, Retry(n + 1, error))
    case Advice(_) => []
    case Flaky => Say(stream, Retry(n + 1, FLAKY))
    case Rejected(error) => Say(stream, Retry(n + 1, error))
    case Missing(sql, error) =>
      Say(stream, SqlReady(sql)) + [Execute(sql)] + Say(stream, SchemaRefresh(error)) + [Introspect]
    case Broken(sql, error) => Say(stream, SqlReady(sql)) + [Execute(sql)] + Say(stream, Retry(n + 1, error))
    case Success(sql, _) => Say(stream, SqlReady(sql)) + [Execute(sql)]
  }

  function RoundLog(kind: Kind, n: nat, stream: bool): seq<Effect> {
    [Consult] + KindLog(kind, n, stream)
  }

  function RoundsLog(kinds: seq<Kind>, stream: bool): seq<Effect> {
    if kinds == [] then []
    else
      var n := |kinds| - 1;
      RoundsLog(kinds[..n], stream) + RoundLog(kinds[n], n, stream)
  }

  function LastSql(kinds: seq<Kind>): string {
    if kinds == [] then ""
    else if SqlOf(kinds[|kinds| - 1]).Some? then SqlOf(kinds[|kinds| - 1]).value
    else LastSql(kinds[..|kinds| - 1])
  }

  function LastError(kinds: seq<Kind>): string {
    if kinds == [] then ""
    else if ErrorOf(kinds[|kinds| - 1]).Some? then ErrorOf(kinds[|kinds| - 1]).value
    else LastError(kinds[..|kinds| - 1])
  }

  function OrElse(text: string, fallback: string): string {
    if text == "" then fallback else text
  }

  function TokensOf(rounds: seq<Round>): nat {
    if rounds == [] then 0 else TokensOf(rounds[..|rounds| - 1]) + rounds[|rounds| - 1].tokens
  }

  // ---- What is remembered between runs --------------------------------------------------------

  /** The schema in memory with its version, and the stored rows with their instant. */
  datatype Memory = Memory(
    schema: Option<SchemaMetadata>, version: string, rows: seq<SchemaCache.Row>, extractedAt: Option<string>)

  /** The version is that of the schema. */
  predicate InStep(m: Memory) { m.schema.Some? ==> m.version == m.schema.value.extractedAt }

  /** A schema read anew goes to memory, and for a relational backend to the store as well. */
  function Refreshed(relational: bool, m: Memory, read: SchemaMetadata): Memory {
    if relational then
      Memory(Some(read), read.extractedAt, SchemaCache.SavedRows(m.rows, read), Some(read.extractedAt))
    else m.(schema := Some(read), version := read.extractedAt)
  }

  function StoredSchema(relational: bool, dbKey: string, m: Memory, now: string): Option<SchemaMetadata> {
    if relational then
      SchemaCache.Loaded(m.rows, if m.extractedAt.Some? then m.extractedAt.value else now, dbKey)
    else None
  }

  /** On first use: the stored schema, else one read anew. */
  function Opened(relational: bool, dbKey: string, m: Memory, read: SchemaMetadata, now: string): (r: Memory)
    ensures r.schema.Some? && (InStep(m) ==> InStep(r))
  {
    if m.schema.Some? then m
    else
      var stored := StoredSchema(relational, dbKey, m, now);
      if stored.Some? then m.(schema := stored, version := stored.value.extractedAt)
      else Refreshed(relational, m, read)
  }

  function OpeningLog(relational: bool, dbKey: string, m: Memory, now: string): seq<Effect> {
    if m.schema.None? && StoredSchema(relational, dbKey, m, now).None? then [Introspect] else []
  }

  /** Only a missing table has the schema read again. */
  function Remembered(relational: bool, m: Memory, kind: Kind, round: Round): Memory {
    if kind.Missing? then Refreshed(relational, m, round.reread) else m
  }

  function MemoryAfter(relational: bool, m: Memory, kinds: seq<Kind>, rounds: seq<Round>): (r: Memory)
    requires |kinds| <= |rounds|
    ensures InStep(m) ==> InStep(r)
    ensures m.schema.Some? ==> r.schema.Some?
  {
    if kinds == [] then m
    else
      var n := |kinds| - 1;
      Remembered(relational, MemoryAfter(relational, m, kinds[..n], rounds), kinds[n], rounds[n])
  }

  // ---- How a run of the SQL flow ends ---------------------------------------------------------

  function EndingLog(r: AskResult, columns: seq<string>, stream: bool): seq<Effect> {
    match r.status
    case Ok =>
      Say(stream, ResultRows(columns, if r.rows.Some? then r.rows.value else [], r.rowCount))
      + Say(stream, Insight(r.insight))
      + (if r.chart.Some? && r.chart.value != "" then Say(stream, Chart(r.chart.value)) else [])
    case NoData => if r.insight != "" then Say(stream, Insight(r.insight)) else []
    case Error => []
  }

  // ---- The analysis flow, described by its rounds ---------------------------------------------

  datatype Gathering = Gathering(executed: seq<string>, frames: seq<QueryFrame>, failure: Option<string>)

  /** What the final analysis is shown of one query's rows. */
  function FrameOf(query: string, f: Frame): QueryFrame { QueryFrame(query, f.columns, Take(f.rows, 20)) }

  /** Runs the planned queries in order, up to the first that is refused or fails. */
  function Gather(guard: string -> GuardResult, queries: seq<string>, outcomes: seq<DbOutcome>): Gathering
    requires |queries| <= |outcomes|
  {
    if queries == [] then Gathering([], [], None)
    else
      var n := |queries| - 1;
      var g := Gather(guard, queries[..n], outcomes);
      if g.failure.Some? then g
      else
        match guard(queries[n])
        case Refused(error) => g.(failure := Some("Query gagal: " + error))
        case Passed(sql) =>
          match outcomes[n]
          case Rows(f) => Gathering(g.executed + [sql], g.frames + [FrameOf(queries[n], f)], None)
          case MissingTable(error) => g.(executed := g.executed + [sql], failure := Some("Query gagal: " + error))
          case DbFailure(error) => g.(executed := g.executed + [sql], failure := Some("Query gagal: " + error))
  }

  datatype AnalysisKind =
    | Garbled(error: string)
    | Prose(reasoning: string)
    | NoQueries
    | Stopped(executed: seq<string>, error: string)
    | Gathered(executed: seq<string>, frames: seq<QueryFrame>)

  function AnalysisKindOf(guard: string -> GuardResult, r: AnalysisRound): AnalysisKind
    requires |r.outcomes| == MAX_ANALYSIS_QUERIES
  {
    match r.reply
    case Unparsable(error) => Garbled("Invalid response from model: " + error)
    case Planned(plan) =>
      if plan.queries == [] then
        if |Trim(plan.reasoning)| >= SUBSTANTIVE then Prose(plan.reasoning) else NoQueries
      else
        var g := Gather(guard, Take(plan.queries, MAX_ANALYSIS_QUERIES), r.outcomes);
        if g.failure.Some? then Stopped(g.executed, g.failure.value) else Gathered(g.executed, g.frames)
  }

  function AnalysisKinds(guard: string -> GuardResult, rounds: seq<AnalysisRound>): (r: seq<AnalysisKind>)
    requires forall x | x in rounds :: |x.outcomes| == MAX_ANALYSIS_QUERIES
    ensures |r| == |rounds|
  {
    seq(|rounds|, i requires 0 <= i < |rounds| => assert rounds[i] in rounds; AnalysisKindOf(guard, rounds[i]))
  }

  predicate AnalysisEnds(kind: AnalysisKind) { kind.Prose? || kind.Gathered? }

  function ExecuteAll(sqls: seq<string>): seq<Effect> {
    if sqls == [] then [] else ExecuteAll(sqls[..|sqls| - 1]) + [Execute(sqls[|sqls| - 1])]
  }

  function AnalysisRoundLog(kind: AnalysisKind, n: nat, stream: bool): seq<Effect> {
    [Consult] +
    match kind
    case Garbled(error) => Say(stream, Retry(n + 1, error))
    case Prose(_) => []
    case NoQueries => Say(stream, Retry(n + 1, "No analytical queries in response"))
    case Stopped(executed, error) => ExecuteAll(executed) + Say(stream, Retry(n + 1, error))
    case Gathered(executed, _) => ExecuteAll(executed)
  }

  function AnalysisRoundsLog(kinds: seq<AnalysisKind>, stream: bool): seq<Effect> {
    if kinds == [] then []
    else
      var n := |kinds| - 1;
      AnalysisRoundsLog(kinds[..n], stream) + AnalysisRoundLog(kinds[n], n, stream)
  }

  function Numbered(recommendations: seq<string>): seq<string> {
    if recommendations == [] then []
    else
      var n := |recommendations|;
      Numbered(recommendations[..n - 1]) + [NatToString(n) + ". " + recommendations[n - 1]]
  }

  function AnalysisText(reply: FinalReply, indonesian: bool): string {
    var list :=
      if reply.recommendations == [] then ""
      else
        "\n\n" + (if indonesian then "Rekomendasi:" else "Recommendations:")
        + "\n" + Join(Numbered(reply.recommendations), "\n");
    Trim(reply.insight + list)
  }

  function Fresh(q: Question): AskResult {
    AskResult(q.text, "", "", "", None, 0, 0, 0, q.model, Ok, None, false, 1, None)
  }

  // ---- What a run of the SQL flow amounts to --------------------------------------------------

  /** The result before the shared end, given where the rounds stopped. */
  ghost predicate SqlOutcome(
      q: Question, indonesian: bool, kinds: seq<Kind>, rounds: seq<Round>, e: Explanation, r: AskResult)
    requires |kinds| == |rounds| == MAX_ATTEMPTS
  {
    && r.question == q.text && r.model == q.model && !r.cached
    && 1 <= r.attempts <= MAX_ATTEMPTS
    && r.sql == LastSql(kinds[..r.attempts]) && r.reasoning == LastReasoning(rounds[..r.attempts])
    && (r.status == Error <==> NeverEnds(kinds))
    && (r.status == Error ==> r.attempts == MAX_ATTEMPTS)
    && (r.status != Error ==> EndsAt(kinds, r.attempts - 1))
    && (r.status == Ok <==> r.status != Error && kinds[r.attempts - 1].Success?)
    && r.error == (if r.status == Error then Some(OrElse(LastError(kinds), "Query failed after retries")) else None)
    && r.tokens == TokensOf(rounds[..r.attempts]) + (if r.status == Ok then e.tokens else 0)
    && match r.status
       case Ok =>
         var frame := kinds[r.attempts - 1].frame;
         kinds[r.attempts - 1].sql == r.sql && r.rows == Some(frame.rows) && r.rowCount == frame.height
         && r.insight == e.text && r.chart == e.figure
       case NoData =>
         r.rows == None && r.rowCount == 0 && r.chart == None
         && r.insight == if kinds[r.attempts - 1].Advice? then kinds[r.attempts - 1].text
                         else Unanswerable(indonesian)
       case Error => r.rows == None && r.rowCount == 0 && r.chart == None && r.insight == ""
  }

  function ColumnsShown(kinds: seq<Kind>, attempts: nat): seq<string> {
    if 1 <= attempts <= |kinds| && kinds[attempts - 1].Success? then kinds[attempts - 1].frame.columns else []
  }

  /** Every effect of the flow before the shared end. */
  function SqlLog(q: Question, kinds: seq<Kind>, r: AskResult): seq<Effect>
    requires r.attempts <= |kinds|
  {
    Say(q.stream, Plan(q.model, q.analysis)) + RoundsLog(kinds[..r.attempts], q.stream)
    + EndingLog(r, ColumnsShown(kinds, r.attempts), q.stream)
  }

  /** Effects noted one after the other, regrouped behind what was there before. */
  lemma Regroup<T>(start: seq<T>, a: seq<T>, b: seq<T>, c: seq<T>, d: seq<T>, e: seq<T>)
    ensures start + a + b == start + (a + b)
    ensures start + a + b + c == start + (a + (b + c)) == start + (a + b + c)
    ensures start + a + b + c + d == start + (a + (b + c + d)) == start + (a + b + c + d)
    ensures start + a + b + c + d + e == start + (a + (b + c + d + e))
  {
  }

  lemma ExecuteStep(start: seq<Effect>, sqls: seq<string>, sql: string)
    ensures start + ExecuteAll(sqls) + [Execute(sql)] == start + ExecuteAll(sqls + [sql])
  {
    assert (sqls + [sql])[..|sqls|] == sqls;
  }

  /** Once a query has failed, the later ones change nothing. */
  lemma {:induction false} GatherStays(
      guard: string -> GuardResult, queries: seq<string>, outcomes: seq<DbOutcome>, n: nat)
    requires n <= |queries| <= |outcomes|
    requires n == |queries| || Gather(guard, queries[..n], outcomes).failure.Some?
    ensures Gather(guard, queries, outcomes) == Gather(guard, queries[..n], outcomes)
  {
    if n == |queries| {
      FullPrefix(queries);
    } else {
      var init := queries[..|queries| - 1];
      assert init[..n] == queries[..n];
      GatherStays(guard, init, outcomes, n);
    }
  }

  lemma AnalysisStarts(kinds: seq<AnalysisKind>, rounds: seq<AnalysisRound>, stream: bool)
    ensures AnalysisRoundsLog(kinds[..0], stream) == [] && AnalysisTokens(rounds[..0]) == 0
  {
  }

  lemma AnalysisTokensStep(rounds: seq<AnalysisRound>, n: nat)
    requires n < |rounds|
    ensures AnalysisTokens(rounds[..n + 1]) == AnalysisTokens(rounds[..n]) + rounds[n].tokens
    ensures rounds[n] in rounds
  {
    assert rounds[..n + 1][..n] == rounds[..n];
  }

  lemma AnalysisLogStep(start: seq<Effect>, kinds: seq<AnalysisKind>, n: nat, stream: bool)
    requires n < |kinds|
    ensures start + AnalysisRoundsLog(kinds[..n], stream) + AnalysisRoundLog(kinds[n], n, stream)
            == start + AnalysisRoundsLog(kinds[..n + 1], stream)
  {
    assert kinds[..n + 1][..n] == kinds[..n];
  }

  // ---- Either flow ----------------------------------------------------------------------------

  ghost predicate FlowOutcome(guard: string -> GuardResult, q: Question, indonesian: bool, w: World, r: AskResult)
    requires Complete(w)
  {
    if q.analysis then
      AnalysisOutcome(q, indonesian, AnalysisKinds(guard, w.analysisRounds), w.analysisRounds, w.final, r)
    else SqlOutcome(q, indonesian, Kinds(guard, w.rounds), w.rounds, w.explanation, r)
  }

  /** The effects of the flow, before the shared end. */
  ghost function FlowLog(guard: string -> GuardResult, q: Question, w: World, r: AskResult): seq<Effect>
    requires Complete(w) && 1 <= r.attempts <= MAX_ATTEMPTS
  {
    if q.analysis then AnalysisLog(q, AnalysisKinds(guard, w.analysisRounds), r)
    else SqlLog(q, Kinds(guard, w.rounds), r)
  }

  lemma SqlIgnoresLatency(
      q: Question, indonesian: bool, kinds: seq<Kind>, rounds: seq<Round>, e: Explanation, r: AskResult, latency: nat)
    requires |kinds| == |rounds| == MAX_ATTEMPTS && SqlOutcome(q, indonesian, kinds, rounds, e, r)
    ensures SqlOutcome(q, indonesian, kinds, rounds, e, r.(latency := latency))
    ensures SqlLog(q, kinds, r.(latency := latency)) == SqlLog(q, kinds, r)
  {
  }

  lemma AnalysisIgnoresLatency(
      q: Question, indonesian: bool, kinds: seq<AnalysisKind>, rounds: seq<AnalysisRound>, final: FinalReply,
      r: AskResult, latency: nat)
    requires |kinds| == |rounds| == MAX_ATTEMPTS && AnalysisOutcome(q, indonesian, kinds, rounds, final, r)
    ensures AnalysisOutcome(q, indonesian, kinds, rounds, final, r.(latency := latency))
    ensures AnalysisLog(q, kinds, r.(latency := latency)) == AnalysisLog(q, kinds, r)
  {
  }

  /** The latency is filled in by the shared end and is no part of what the flows promise. */
  lemma FlowIgnoresLatency(
      guard: string -> GuardResult, q: Question, indonesian: bool, w: World, r: AskResult, latency: nat)
    requires Complete(w) && FlowOutcome(guard, q, indonesian, w, r)
    ensures !r.cached && 1 <= r.attempts <= MAX_ATTEMPTS
    ensures FlowOutcome(guard, q, indonesian, w, r.(latency := latency))
    ensures FlowLog(guard, q, w, r.(latency := latency)) == FlowLog(guard, q, w, r)
  {
    if q.analysis {
      var rounds := w.analysisRounds;
      AnalysisIgnoresLatency(q, indonesian, AnalysisKinds(guard, rounds), rounds, w.final, r, latency);
    } else {
      SqlIgnoresLatency(q, indonesian, Kinds(guard, w.rounds), w.rounds, w.explanation, r, latency);
    }
  }

  // ---- The loop of the SQL flow ---------------------------------------------------------------

  datatype LoopState = LoopState(
    sql: string, reasoning: string, insight: string, status: Status, lastError: string, tokens: nat,
    declines: nat, ended: bool, frame: Option<Frame>)

  const START := LoopState("", "", "", Ok, "", 0, 0, false, None)

  function Unanswerable(indonesian: bool): string { if indonesian then UNANSWERABLE_ID else UNANSWERABLE }

  /** What a round came to, in terms of the loop's state. */
  function Applied(s: LoopState, kind: Kind, indonesian: bool): LoopState {
    var gaveUp := kind.Flaky? && s.declines >= 1;
    s.(sql := if SqlOf(kind).Some? then SqlOf(kind).value else s.sql,
       insight := if kind.Advice? then kind.text else if gaveUp then Unanswerable(indonesian) else s.insight,
       status := if kind.Advice? || gaveUp then NoData else s.status,
       lastError := if ErrorOf(kind).Some? then ErrorOf(kind).value else s.lastError,
       declines := s.declines + (if kind.Flaky? || kind.Advice? then 1 else 0),
       ended := kind.Success? || kind.Advice? || gaveUp,
       frame := if kind.Success? then Some(kind.frame) else s.frame)
  }

  /** The contract of one round. */
  function Stepped(s: LoopState, kind: Kind, indonesian: bool, round: Round): LoopState {
    var reasoning := if round.reply.Planned? then round.reply.plan.reasoning else s.reasoning;
    Applied(s.(reasoning := reasoning, tokens := s.tokens + round.tokens), kind, indonesian)
  }

  function LastReasoning(rounds: seq<Round>): string {
    if rounds == [] then ""
    else if rounds[|rounds| - 1].reply.Planned? then rounds[|rounds| - 1].reply.plan.reasoning
    else LastReasoning(rounds[..|rounds| - 1])
  }

  /** What the state of the loop says about the first n rounds. */
  ghost predicate Tracks(kinds: seq<Kind>, rounds: seq<Round>, n: nat, indonesian: bool, s: LoopState)
    requires |kinds| == |rounds| && n <= |kinds|
  {
    && s.sql == LastSql(kinds[..n]) && s.tokens == TokensOf(rounds[..n]) && s.reasoning == LastReasoning(rounds[..n])
    && (forall i | 0 <= i < (if s.ended then n - 1 else n) :: !Ends(kinds, i))
    && if s.ended then
         n > 0 && Ends(kinds, n - 1)
         && if kinds[n - 1].Success? then
              s.status == Ok && s.frame == Some(kinds[n - 1].frame) && s.sql == kinds[n - 1].sql
            else
              s.status == NoData
              && s.insight == if kinds[n - 1].Advice? then kinds[n - 1].text else Unanswerable(indonesian)
       else
         s.lastError == LastError(kinds[..n]) && s.status == Ok && s.insight == "" && s.frame == None
         && (s.declines > 0 <==> HasFlaky(kinds[..n]))
  }

  lemma TracksStep(kinds: seq<Kind>, rounds: seq<Round>, n: nat, indonesian: bool, s: LoopState, round: Round)
    requires |kinds| == |rounds| && n < |kinds| && round == rounds[n]
    requires Tracks(kinds, rounds, n, indonesian, s) && !s.ended
    ensures Tracks(kinds, rounds, n + 1, indonesian, Stepped(s, kinds[n], indonesian, round))
  {
    var t, before, after := Stepped(s, kinds[n], indonesian, round), kinds[..n], kinds[..n + 1];
    assert after[..n] == before && after[n] == kinds[n];
    assert rounds[..n + 1][..n] == rounds[..n];
    assert HasFlaky(after) <==> HasFlaky(before) || kinds[n].Flaky? by {
      if HasFlaky(before) {
        var i :| 0 <= i < n && before[i].Flaky?;
        assert after[i].Flaky?;
      }
      if kinds[n].Flaky? {
        assert after[n].Flaky?;
      }
    }
  }

  lemma LoopStarts(
      kinds: seq<Kind>, rounds: seq<Round>, indonesian: bool, relational: bool, m: Memory, stream: bool)
    requires |kinds| == |rounds|
    ensures Tracks(kinds, rounds, 0, indonesian, START)
    ensures RoundsLog(kinds[..0], stream) == [] && MemoryAfter(relational, m, kinds[..0], rounds) == m
  {
  }

  lemma LoopGoesOn(kinds: seq<Kind>, rounds: seq<Round>, n: nat, indonesian: bool, s: LoopState)
    requires |kinds| == |rounds| && n <= |kinds| && Tracks(kinds, rounds, n, indonesian, s) && !s.ended
    ensures s.status == Ok
  {
  }

  lemma MemoryStep(relational: bool, m: Memory, kinds: seq<Kind>, rounds: seq<Round>, n: nat)
    requires n < |kinds| <= |rounds|
    ensures MemoryAfter(relational, m, kinds[..n + 1], rounds)
            == Remembered(relational, MemoryAfter(relational, m, kinds[..n], rounds), kinds[n], rounds[n])
  {
    assert kinds[..n + 1][..n] == kinds[..n];
  }

  lemma LogStep(start: seq<Effect>, kinds: seq<Kind>, n: nat, stream: bool)
    requires n < |kinds|
    ensures start + RoundsLog(kinds[..n], stream) + RoundLog(kinds[n], n, stream)
            == start + RoundsLog(kinds[..n + 1], stream)
  {
    assert kinds[..n + 1][..n] == kinds[..n];
  }

  lemma TracksColumns(kinds: seq<Kind>, rounds: seq<Round>, n: nat, indonesian: bool, s: LoopState)
    requires |kinds| == |rounds| && n <= |kinds| && Tracks(kinds, rounds, n, indonesian, s)
    ensures s.ended && s.status == Ok ==> s.frame.Some?
    ensures ColumnsShown(kinds, n) == if s.ended && s.status == Ok then s.frame.value.columns else []
    ensures !s.ended ==> s.status == Ok
  {
    if n > 0 && !s.ended {
      assert !Ends(kinds, n - 1);
    }
  }

  lemma TracksOutcome(
      q: Question, kinds: seq<Kind>, rounds: seq<Round>, n: nat, indonesian: bool, s: LoopState, e: Explanation,
      r: AskResult)
    requires |kinds| == |rounds| == MAX_ATTEMPTS && n <= MAX_ATTEMPTS
    requires Tracks(kinds, rounds, n, indonesian, s) && (s.ended || n == MAX_ATTEMPTS)
    requires
      r == if !s.ended then
             Fresh(q).(attempts := n, sql := s.sql, reasoning := s.reasoning, status := Error, insight := s.insight,
                       tokens := s.tokens, error := Some(OrElse(s.lastError, "Query failed after retries")))
           else if s.status == Ok && s.frame.Some? then
             Fresh(q).(attempts := n, sql := s.sql, reasoning := s.reasoning, rowCount := s.frame.value.height,
                       rows := Some(s.frame.value.rows), insight := e.text, chart := e.figure,
                       tokens := s.tokens + e.tokens)
           else
             Fresh(q).(attempts := n, sql := s.sql, reasoning := s.reasoning, status := s.status, insight := s.insight,
                       tokens := s.tokens)
    ensures SqlOutcome(q, indonesian, kinds, rounds, e, r)
  {
    hide LastSql, LastError, LastReasoning, TokensOf, Ends;
    FullPrefix(kinds);
  }

  // ---- What a run of the analysis flow amounts to ---------------------------------------------

  function AnalysisErrorOf(kind: AnalysisKind): string {
    match kind
    case Garbled(error) => error
    case NoQueries => "No analytical queries in response"
    case Stopped(_, error) => error
    case _ => ""
  }

  function AnalysisTokens(rounds: seq<AnalysisRound>): nat {
    if rounds == [] then 0 else AnalysisTokens(rounds[..|rounds| - 1]) + rounds[|rounds| - 1].tokens
  }

  const EMPTY_ANALYSIS: string := "Analisis gagal: respon akhir tidak valid"

  /** What the last round and the final reply make of the result; it never carries a query or rows of its own. */
  ghost predicate Concluded(
      q: Question, indonesian: bool, n: nat, last: AnalysisKind, spent: nat, final: FinalReply, r: AskResult)
  {
    && r == Fresh(q).(attempts := n, reasoning := if last.Prose? then last.reasoning else "", insight := r.insight,
                      status := r.status, error := r.error, tokens := r.tokens, latency := r.latency)
    && (!AnalysisEnds(last) ==>
          r.status == Error && r.insight == "" && r.tokens == spent
          && r.error == Some(OrElse(AnalysisErrorOf(last), "Analysis queries failed")))
    && (last.Prose? ==>
          r.status == NoData && r.insight == Trim(last.reasoning) && r.error == None && r.tokens == spent)
    && (last.Gathered? ==>
          r.tokens == spent + final.tokens
          && if final.insight == "" && final.recommendations == [] then
               r.status == Error && r.error == Some(EMPTY_ANALYSIS) && r.insight == ""
             else r.status == Ok && r.error == None && r.insight == AnalysisText(final, indonesian))
  }

  /** The rounds stop at the first plan that is answered in prose or runs completely. */
  ghost predicate AnalysisOutcome(
      q: Question, indonesian: bool, kinds: seq<AnalysisKind>, rounds: seq<AnalysisRound>, final: FinalReply,
      r: AskResult)
    requires |kinds| == |rounds| == MAX_ATTEMPTS
  {
    && 1 <= r.attempts <= MAX_ATTEMPTS
    && (forall i | 0 <= i < r.attempts - 1 :: !AnalysisEnds(kinds[i]))
    && (AnalysisEnds(kinds[r.attempts - 1]) || r.attempts == MAX_ATTEMPTS)
    && Concluded(q, indonesian, r.attempts, kinds[r.attempts - 1], AnalysisTokens(rounds[..r.attempts]), final, r)
  }

  function AnalysisEndLog(last: AnalysisKind, r: AskResult, stream: bool): seq<Effect> {
    (if last.Gathered? then [Analyze(last.frames)] else [])
    + (if r.status == Error then [] else Say(stream, Insight(r.insight)))
  }

  function AnalysisLog(q: Question, kinds: seq<AnalysisKind>, r: AskResult): seq<Effect>
    requires 1 <= r.attempts <= |kinds|
  {
    Say(q.stream, Plan(q.model, q.analysis)) + AnalysisRoundsLog(kinds[..r.attempts], q.stream)
    + AnalysisEndLog(kinds[r.attempts - 1], r, q.stream)
  }

  /** A plan that went through: every query was let through, ran, and gave its frame, in order. */
  lemma {:induction false} GatheredCompletely(
      guard: string -> GuardResult, queries: seq<string>, outcomes: seq<DbOutcome>)
    requires |queries| <= |outcomes| && Gather(guard, queries, outcomes).failure.None?
    ensures
      var g := Gather(guard, queries, outcomes);
      && |g.frames| == |g.executed| == |queries|
      && forall i | 0 <= i < |queries| ::
           guard(queries[i]) == Passed(g.executed[i]) && outcomes[i].Rows?
           && g.frames[i] == FrameOf(queries[i], outcomes[i].frame)
  {
    if queries == [] {
    } else {
      GatheredCompletely(guard, queries[..|queries| - 1], outcomes);
    }
  }

  // ---- The shared end -------------------------------------------------------------------------

  function RecordOf(q: Question, mask: string -> string, r: AskResult): AuditRecord {
    AuditRecord(q.user, q.role, r.question, if r.sql != "" then Some(mask(r.sql)) else None,
                if r.insight != "" then Some(Take(r.insight, 200)) else None,
                r.latency, r.tokens, r.model, r.status, r.error)
  }

  /** Everything nondeterministic that one run meets. */
  datatype World = World(
    read: SchemaMetadata, now: string, lookedUpAt: int, storedAt: int, encodes: bool, latency: nat,
    rounds: seq<Round>, explanation: Explanation, analysisRounds: seq<AnalysisRound>, final: FinalReply)

  predicate Complete(w: World) {
    && |w.rounds| == |w.analysisRounds| == MAX_ATTEMPTS
    && forall x | x in w.analysisRounds :: |x.outcomes| == MAX_ANALYSIS_QUERIES
  }

  function FlowMemory(
      guard: string -> GuardResult, relational: bool, q: Question, w: World, r: AskResult, m: Memory): Memory
    requires Complete(w) && 1 <= r.attempts <= MAX_ATTEMPTS
  {
    if q.analysis then m else MemoryAfter(relational, m, Kinds(guard, w.rounds)[..r.attempts], w.rounds)
  }

  // ---- The runs behind the cache --------------------------------------------------------------

  /** A finished uncached run: the question, all it met, the schema version at its start, and its answer. */
  datatype Run = Run(q: Question, w: World, version: string, answer: AskResult)

  function KeyOf(q: Question, version: string): AskKey { AskKey(q.role, version, q.model, q.text) }

  /** The answer is what one of the flows made of this question in this world. */
  ghost predicate Genuine(guard: string -> GuardResult, indonesian: bool, run: Run) {
    && Complete(run.w) && FlowOutcome(guard, run.q, indonesian, run.w, run.answer)
    && run.answer.latency == run.w.latency
  }

  ghost predicate AllGenuine(guard: string -> GuardResult, indonesian: bool, runs: seq<Run>) {
    forall i | 0 <= i < |runs| :: Genuine(guard, indonesian, runs[i])
  }

  /** The effects of a run, once the schema is there. */
  ghost function RunLog(guard: string -> GuardResult, mask: string -> string, run: Run): seq<Effect>
    requires Complete(run.w) && 1 <= run.answer.attempts <= MAX_ATTEMPTS
  {
    FlowLog(guard, run.q, run.w, run.answer)
    + Closing(run.answer, KeyText(KeyOf(run.q, run.version)), RecordOf(run.q, mask, run.answer), run.q.stream)
  }

  predicate IsStored(run: Run) { Storable(run.answer.status, run.answer.sql) && run.w.encodes }

  function StoreOf(run: Run): Stored {
    Stored(KeyText(KeyOf(run.q, run.version)), PayloadOf(run.answer), run.w.storedAt)
  }

  /** What these runs have left in the cache's history. */
  function Stores(runs: seq<Run>): seq<Stored> {
    if runs == [] then []
    else
      var init, run := Stores(runs[..|runs| - 1]), runs[|runs| - 1];
      if IsStored(run) then init + [StoreOf(run)] else init
  }

  lemma StoresStep(runs: seq<Run>, run: Run)
    ensures Stores(runs + [run]) == if IsStored(run) then Stores(runs) + [StoreOf(run)] else Stores(runs)
  {
    assert (runs + [run])[..|runs|] == runs;
  }

  lemma OpenedInStep(relational: bool, dbKey: string, m: Memory, read: SchemaMetadata, now: string)
    requires InStep(m)
    ensures InStep(Opened(relational, dbKey, m, read, now))
  {
  }

  lemma FlowMemoryInStep(
      guard: string -> GuardResult, relational: bool, q: Question, w: World, r: AskResult, m: Memory)
    requires Complete(w) && 1 <= r.attempts <= MAX_ATTEMPTS && InStep(m)
    ensures FlowMemory(guard, relational, q, w, r, m).schema.Some? || m.schema.None?
    ensures InStep(FlowMemory(guard, relational, q, w, r, m))
    ensures FlowMemory(guard, relational, q, w, r.(latency := w.latency), m)
            == FlowMemory(guard, relational, q, w, r, m)
  {
  }

  lemma GenuineAfterLatency(
      guard: string -> GuardResult, q: Question, indonesian: bool, w: World, version: string, r: AskResult)
    requires Complete(w) && FlowOutcome(guard, q, indonesian, w, r) && r.latency == w.latency
    ensures Genuine(guard, indonesian, Run(q, w, version, r))
  {
  }

  lemma GenuineStep(guard: string -> GuardResult, indonesian: bool, runs: seq<Run>, run: Run)
    requires AllGenuine(guard, indonesian, runs) && Genuine(guard, indonesian, run)
    ensures AllGenuine(guard, indonesian, runs + [run])
  {
    hide Genuine;
  }

  class InsightKit {
    const guard: string -> GuardResult
    const mask: string -> string
    const relational: bool
    const indonesian: bool
    const dbKey: string
    const db: SchemaCache.MetaDb
    const cache: QueryCache
    var schema: Option<SchemaMetadata>
    var version: string
    ghost var log: seq<Effect>  // everything done so far, by all runs
    ghost var runs: seq<Run>    // every uncached run so far, earlier kits' on the same cache included

    /** The cache and the stored schema outlive a kit; `past` holds the runs that earlier ones made. */
    constructor (guard: string -> GuardResult, mask: string -> string, relational: bool, indonesian: bool,
                 dbKey: string, db: SchemaCache.MetaDb, cache: QueryCache, ghost past: seq<Run>)
      requires db.Valid() && cache.Valid()
      requires cache.history == Stores(past) && AllGenuine(guard, indonesian, past)
      ensures Valid() && this.guard == guard && this.mask == mask && this.relational == relational
      ensures this.indonesian == indonesian && this.dbKey == dbKey && this.db == db && this.cache == cache
      ensures schema == None && version == "0" && log == [] && runs == past
    {
      this.guard, this.mask, this.relational, this.indonesian := guard, mask, relational, indonesian;
      this.dbKey, this.db, this.cache := dbKey, db, cache;
      schema, version, log, runs := None, "0", [], past;
    }

    ghost function Remembers(): Memory
      reads this, db
    {
      Memory(schema, version, db.rows, db.extractedAt)
    }

    /** The cache's history is what the runs so far have stored, in order, and every one of them is genuine. */
    ghost predicate Valid()
      reads this, db, cache
    {
      && db.Valid() && cache.Valid()
      && InStep(Remembers())
      && cache.history == Stores(runs)
      && AllGenuine(guard, indonesian, runs)
    }

    method RefreshSchema(read: SchemaMetadata)
      requires db.Valid()
      modifies this`schema, this`version, db
      ensures db.Valid() && Remembers() == Refreshed(relational, old(Remembers()), read)
    {
      if relational {
        db.SaveSchema(read);
      }
      schema := Some(read);
      version := read.extractedAt;
    }

    /** The schema in memory, else the stored one, else a fresh reading, which is then stored. */
    method GetSchema(read: SchemaMetadata, now: string) returns (r: SchemaMetadata)
      requires db.Valid()
      modifies this`schema, this`version, this`log, db
      ensures db.Valid() && schema == Some(r)
      ensures Remembers() == Opened(relational, dbKey, old(Remembers()), read, now)
      ensures log == old(log) + OpeningLog(relational, dbKey, old(Remembers()), now)
    {
      if schema.None? {
        if relational {
          schema := db.LoadSchema(dbKey, now);
        }
        if schema.None? {
          RefreshSchema(read);
          Note([Introspect]);
        } else {
          version := schema.value.extractedAt;
        }
      }
      return schema.value;
    }

    ghost method Note(effects: seq<Effect>)
      modifies this`log
      ensures log == old(log) + effects
    {
      log := log + effects;
    }

    /** One round: consult the model, check its query, run it. */
    method Attempt(q: Question, n: nat, round: Round, s: LoopState) returns (t: LoopState)
      requires db.Valid() && !s.ended && s.status == Ok
      modifies this`schema, this`version, this`log, db
      ensures db.Valid() && t == Stepped(s, KindOf(guard, round), indonesian, round)
      ensures log == old(log) + RoundLog(KindOf(guard, round), n, q.stream)
      ensures Remembers() == Remembered(relational, old(Remembers()), KindOf(guard, round), round)
    {
      hide Trim, Refreshed;
      ghost var start, consult := log, [Consult];
      t := s;
      Note(consult);
      t := t.(tokens := t.tokens + round.tokens);
      if round.reply.Unparsable? {
        t := t.(lastError := "Invalid response from model: " + round.reply.error);
        Note(Say(q.stream, Retry(n + 1, t.lastError)));
        Regroup(start, consult, Say(q.stream, Retry(n + 1, t.lastError)), [], [], []);
        return;
      }
      var plan := round.reply.plan;
      t := t.(reasoning := plan.reasoning);
      if !plan.needsData || Trim(plan.sql) == "" {
        t := t.(declines := t.declines + 1);
        if |Trim(plan.reasoning)| >= SUBSTANTIVE {
          t := t.(status := NoData, insight := Trim(plan.reasoning), ended := true);
          Regroup(start, consult, [], [], [], []);
          return;
        }
        t := t.(lastError := FLAKY);
        Note(Say(q.stream, Retry(n + 1, FLAKY)));
        Regroup(start, consult, Say(q.stream, Retry(n + 1, FLAKY)), [], [], []);
        if t.declines >= 2 {
          t := t.(status := NoData, insight := Unanswerable(indonesian), ended := true);
        }
        return;
      }
      t := CheckAndRun(q, n, round, plan.sql, t);
      Regroup(start, consult, KindLog(KindOf(guard, round), n, q.stream), [], [], []);
    }

    /** The guarded execution of one planned query. */
    method CheckAndRun(q: Question, n: nat, round: Round, sql: string, s: LoopState) returns (t: LoopState)
      requires db.Valid() && !s.ended
      modifies this`schema, this`version, this`log, db
      ensures
        var kind := QueryKind(guard(sql), round.outcome);
        && db.Valid() && t == Applied(s, kind, indonesian)
        && log == old(log) + KindLog(kind, n, q.stream)
        && Remembers() == Remembered(relational, old(Remembers()), kind, round)
    {
      ghost var start := log;
      t := s;
      var checked := guard(sql);
      if checked.Refused? {
        t := t.(lastError := checked.error);
        Note(Say(q.stream, Retry(n + 1, checked.error)));
        return;
      }
      t := t.(sql := checked.sql);
      ghost var ready, execute := Say(q.stream, SqlReady(checked.sql)), [Execute(checked.sql)];
      Note(ready);
      Note(execute);
      match round.outcome {
        case Rows(f) =>
          t := t.(frame := Some(f), ended := true);
          Regroup(start, ready, execute, [], [], []);
        case MissingTable(error) =>
          t := t.(lastError := error);
          Note(Say(q.stream, SchemaRefresh(error)));
          RefreshSchema(round.reread);
          Note([Introspect]);
          Regroup(start, ready, execute, Say(q.stream, SchemaRefresh(error)), [Introspect], []);
        case DbFailure(error) =>
          t := t.(lastError := error);
          Note(Say(q.stream, Retry(n + 1, error)));
          Regroup(start, ready, execute, Say(q.stream, Retry(n + 1, error)), [], []);
      }
    }

    /** The bounded loop: each failed round leaves its error for the next one. */
    method RunRounds(q: Question, rounds: seq<Round>) returns (n: nat, s: LoopState)
      requires db.Valid() && |rounds| == MAX_ATTEMPTS
      modifies this`schema, this`version, this`log, db
      ensures db.Valid() && 1 <= n <= MAX_ATTEMPTS && (s.ended || n == MAX_ATTEMPTS)
      ensures Tracks(Kinds(guard, rounds), rounds, n, indonesian, s)
      ensures log == old(log) + RoundsLog(Kinds(guard, rounds)[..n], q.stream)
      ensures Remembers() == MemoryAfter(relational, old(Remembers()), Kinds(guard, rounds)[..n], rounds)
    {
      hide KindOf, RoundLog, RoundsLog, Tracks, Stepped, MemoryAfter, Remembered;
      ghost var kinds, before, memory := Kinds(guard, rounds), log, Remembers();
      n, s := 0, START;
      LoopStarts(kinds, rounds, indonesian, relational, memory, q.stream);
      while n < MAX_ATTEMPTS && !s.ended
        invariant n <= MAX_ATTEMPTS && (n == 0 ==> !s.ended) && Tracks(kinds, rounds, n, indonesian, s)
        invariant log == before + RoundsLog(kinds[..n], q.stream)
        invariant db.Valid() && Remembers() == MemoryAfter(relational, memory, kinds[..n], rounds)
        decreases MAX_ATTEMPTS - n
      {
        TracksStep(kinds, rounds, n, indonesian, s, rounds[n]);
        LogStep(before, kinds, n, q.stream);
        MemoryStep(relational, memory, kinds, rounds, n);
        LoopGoesOn(kinds, rounds, n, indonesian, s);
        s := Attempt(q, n, rounds[n], s);
        n := n + 1;
      }
    }

    /** The SQL flow up to its shared end. */
    method AskSql(q: Question, rounds: seq<Round>, explanation: Explanation) returns (r: AskResult)
      requires db.Valid() && |rounds| == MAX_ATTEMPTS
      modifies this`schema, this`version, this`log, db
      ensures db.Valid() && SqlOutcome(q, indonesian, Kinds(guard, rounds), rounds, explanation, r)
      ensures log == old(log) + SqlLog(q, Kinds(guard, rounds), r)
      ensures Remembers() == MemoryAfter(relational, old(Remembers()), Kinds(guard, rounds)[..r.attempts], rounds)
    {
      hide Tracks, SqlOutcome, RoundsLog, EndingLog, MemoryAfter, Kinds;
      ghost var kinds, before := Kinds(guard, rounds), log;
      Note(Say(q.stream, Plan(q.model, q.analysis)));
      var n, s := RunRounds(q, rounds);
      r := Fresh(q).(attempts := n, sql := s.sql, reasoning := s.reasoning, status := s.status,
                     insight := s.insight, tokens := s.tokens);
      if !s.ended {
        r := r.(status := Error, error := Some(OrElse(s.lastError, "Query failed after retries")));
      }
      var columns := [];
      if r.status == Ok && s.frame.Some? {
        var f := s.frame.value;
        columns := f.columns;
        r := r.(rowCount := f.height, rows := Some(f.rows), insight := explanation.text, chart := explanation.figure,
                tokens := s.tokens + explanation.tokens);
      }
      TracksOutcome(q, kinds, rounds, n, indonesian, s, explanation, r);
      TracksColumns(kinds, rounds, n, indonesian, s);
      Present(q, r, columns);
      Regroup(before, Say(q.stream, Plan(q.model, q.analysis)), RoundsLog(kinds[..n], q.stream),
              EndingLog(r, columns, q.stream), [], []);
    }

    /** Streams what the flow came to. */
    method Present(q: Question, r: AskResult, columns: seq<string>)
      requires r.status == Ok ==> r.rows.Some?
      modifies this`log
      ensures log == old(log) + EndingLog(r, columns, q.stream)
    {
      ghost var start := log;
      if r.status == Ok {
        Note(Say(q.stream, ResultRows(columns, r.rows.value, r.rowCount)));
        Note(Say(q.stream, Insight(r.insight)));
        if r.chart.Some? && r.chart.value != "" {
          Note(Say(q.stream, Chart(r.chart.value)));
        }
      } else if r.status == NoData && r.insight != "" {
        Note(Say(q.stream, Insight(r.insight)));
      }
    }

    /** Runs the queries of a plan in order; the first that is refused or fails ends it. */
    method RunQueries(queries: seq<string>, outcomes: seq<DbOutcome>) returns (g: Gathering)
      requires |queries| <= |outcomes|
      modifies this`log
      ensures g == Gather(guard, queries, outcomes)
      ensures log == old(log) + ExecuteAll(g.executed)
    {
      ghost var before := log;
      g := Gathering([], [], None);
      var n := 0;
      while n < |queries| && g.failure.None?
        invariant n <= |queries| && g == Gather(guard, queries[..n], outcomes)
        invariant log == before + ExecuteAll(g.executed)
      {
        PrefixStep(queries, n);
        assert queries[..n + 1][..n] == queries[..n];
        var checked := guard(queries[n]);
        if checked.Refused? {
          g := g.(failure := Some("Query gagal: " + checked.error));
        } else {
          ExecuteStep(before, g.executed, checked.sql);
          Note([Execute(checked.sql)]);
          g := g.(executed := g.executed + [checked.sql]);
          match outcomes[n] {
            case Rows(f) => g := g.(frames := g.frames + [FrameOf(queries[n], f)]);
            case MissingTable(error) => g := g.(failure := Some("Query gagal: " + error));
            case DbFailure(error) => g := g.(failure := Some("Query gagal: " + error));
          }
        }
        n := n + 1;
      }
      GatherStays(guard, queries, outcomes, n);
    }

    /** One round of the analysis flow. */
    method AttemptAnalysis(q: Question, n: nat, round: AnalysisRound) returns (kind: AnalysisKind)
      requires |round.outcomes| == MAX_ANALYSIS_QUERIES
      modifies this`log
      ensures kind == AnalysisKindOf(guard, round)
      ensures log == old(log) + AnalysisRoundLog(kind, n, q.stream)
    {
      ghost var start, consult := log, [Consult];
      Note(consult);
      if round.reply.Unparsable? {
        kind := Garbled("Invalid response from model: " + round.reply.error);
        Note(Say(q.stream, Retry(n + 1, kind.error)));
        Regroup(start, consult, Say(q.stream, Retry(n + 1, kind.error)), [], [], []);
        return;
      }
      var plan := round.reply.plan;
      if plan.queries == [] {
        if |Trim(plan.reasoning)| >= SUBSTANTIVE {
          kind := Prose(plan.reasoning);
          Regroup(start, consult, [], [], [], []);
          return;
        }
        kind := NoQueries;
        var again := Retry(n + 1, "No analytical queries in response");
        Note(Say(q.stream, again));
        Regroup(start, consult, Say(q.stream, again), [], [], []);
        return;
      }
      var g := RunQueries(Take(plan.queries, MAX_ANALYSIS_QUERIES), round.outcomes);
      ghost var ran := ExecuteAll(g.executed);
      if g.failure.Some? {
        kind := Stopped(g.executed, g.failure.value);
        Note(Say(q.stream, Retry(n + 1, kind.error)));
        Regroup(start, consult, ran, Say(q.stream, Retry(n + 1, kind.error)), [], []);
      } else {
        kind := Gathered(g.executed, g.frames);
        Regroup(start, consult, ran, [], [], []);
      }
    }

    /** Up to three plans, until one is answered in prose or all of its queries have run. */
    method RunAnalysisRounds(q: Question, rounds: seq<AnalysisRound>) returns (n: nat, last: AnalysisKind, tokens: nat)
      requires |rounds| == MAX_ATTEMPTS && forall x | x in rounds :: |x.outcomes| == MAX_ANALYSIS_QUERIES
      modifies this`log
      ensures
        var kinds := AnalysisKinds(guard, rounds);
        && 1 <= n <= MAX_ATTEMPTS && last == kinds[n - 1] && (AnalysisEnds(last) || n == MAX_ATTEMPTS)
        && (forall i | 0 <= i < n - 1 :: !AnalysisEnds(kinds[i]))
        && tokens == AnalysisTokens(rounds[..n])
        && log == old(log) + AnalysisRoundsLog(kinds[..n], q.stream)
    {
      hide AnalysisKindOf, AnalysisRoundLog, AnalysisRoundsLog, AnalysisTokens;
      ghost var kinds, before := AnalysisKinds(guard, rounds), log;
      n, last, tokens := 0, NoQueries, 0;
      AnalysisStarts(kinds, rounds, q.stream);
      while n < MAX_ATTEMPTS && !AnalysisEnds(last)
        invariant n <= MAX_ATTEMPTS && (if n == 0 then last == NoQueries else last == kinds[n - 1])
        invariant forall i | 0 <= i < n - 1 :: !AnalysisEnds(kinds[i])
        invariant tokens == AnalysisTokens(rounds[..n])
        invariant log == before + AnalysisRoundsLog(kinds[..n], q.stream)
        decreases MAX_ATTEMPTS - n
      {
        AnalysisTokensStep(rounds, n);
        last := AttemptAnalysis(q, n, rounds[n]);
        AnalysisLogStep(before, kinds, n, q.stream);
        tokens := tokens + rounds[n].tokens;
        n := n + 1;
      }
    }

    /** The last step of the analysis flow: prose is passed on, frames are analysed, anything else is an error. */
    method ConcludeAnalysis(q: Question, n: nat, last: AnalysisKind, spent: nat, final: FinalReply)
      returns (r: AskResult)
      modifies this`log
      ensures Concluded(q, indonesian, n, last, spent, final, r)
      ensures log == old(log) + AnalysisEndLog(last, r, q.stream)
    {
      ghost var before := log;
      r := Fresh(q).(attempts := n, tokens := spent);
      match last {
        case Prose(reasoning) =>
          r := r.(status := NoData, insight := Trim(reasoning), reasoning := reasoning);
          Note(Say(q.stream, Insight(r.insight)));
        case Gathered(_, frames) =>
          Note([Analyze(frames)]);
          r := r.(tokens := spent + final.tokens);
          if final.insight == "" && final.recommendations == [] {
            r := r.(status := Error, error := Some(EMPTY_ANALYSIS));
          } else {
            r := r.(insight := AnalysisText(final, indonesian), status := Ok);
            Note(Say(q.stream, Insight(r.insight)));
            Regroup(before, [Analyze(frames)], Say(q.stream, Insight(r.insight)), [], [], []);
          }
        case _ =>
          r := r.(status := Error, error := Some(OrElse(AnalysisErrorOf(last), "Analysis queries failed")));
      }
    }

    /** The analysis flow up to its shared end. */
    method AskAnalysis(q: Question, rounds: seq<AnalysisRound>, final: FinalReply) returns (r: AskResult)
      requires |rounds| == MAX_ATTEMPTS && forall x | x in rounds :: |x.outcomes| == MAX_ANALYSIS_QUERIES
      modifies this`log
      ensures AnalysisOutcome(q, indonesian, AnalysisKinds(guard, rounds), rounds, final, r)
      ensures log == old(log) + AnalysisLog(q, AnalysisKinds(guard, rounds), r)
    {
      ghost var before := log;
      Note(Say(q.stream, Plan(q.model, q.analysis)));
      var n, last, tokens := RunAnalysisRounds(q, rounds);
      r := ConcludeAnalysis(q, n, last, tokens, final);
      Regroup(before, Say(q.stream, Plan(q.model, q.analysis)),
              AnalysisRoundsLog(AnalysisKinds(guard, rounds)[..n], q.stream),
              AnalysisEndLog(last, r, q.stream), [], []);
    }

    /** The shared end: latency, audit attempt, store if the answer qualifies, and `done` last. */
    method Finalize(q: Question, key: AskKey, r0: AskResult, w: World) returns (r: AskResult)
      requires cache.Valid()
      modifies this`log, cache
      ensures cache.Valid()
      ensures r == r0.(latency := w.latency)
      ensures log == old(log) + Closing(r, KeyText(key), RecordOf(q, mask, r), q.stream)
      ensures cache.history == if Storable(r.status, r.sql) && w.encodes
                               then old(cache.history) + [Stored(KeyText(key), PayloadOf(r), w.storedAt)]
                               else old(cache.history)
    {
      hide IsCacheable, KeyText, RecordOf, DoneOf, PayloadOf;
      ghost var before := log;
      r := r0.(latency := w.latency);
      ghost var audit := [Audit(RecordOf(q, mask, r))];
      Note(audit);
      ghost var stored: seq<Effect> := [];
      if Storable(r.status, r.sql) {
        cache.Set(KeyText(key), PayloadOf(r), w.storedAt, w.encodes);
        stored := [Store(KeyText(key), PayloadOf(r))];
        Note(stored);
      }
      ghost var done := Say(q.stream, DoneOf(r));
      Note(done);
      Regroup(before, audit, stored, done, [], []);
      Regroup(before, audit, done, [], [], []);
    }

    /**
     * A whole run. On first use the schema is loaded, or read and stored. A hit then streams `cached` and does
     * nothing else: the answer has the fields an earlier run stored. Otherwise one of the flows runs and the
     * shared end follows it, exactly once; the run joins the runs so far, under the version it started with.
     */
    method Ask(q: Question, w: World) returns (r: AskResult)
      requires Valid() && Complete(w)
      modifies this`schema, this`version, this`log, this`runs, db, cache
      ensures Valid()
      ensures
        var m := Opened(relational, dbKey, old(Remembers()), w.read, w.now);
        var opening := OpeningLog(relational, dbKey, old(Remembers()), w.now);
        var key := KeyText(KeyOf(q, m.version));
        var hit := Lookup(old(cache.history), cache.ttl, key, w.lookedUpAt);
        if hit.Some? then
          && r == FromPayload(q.text, hit.value, w.latency)
          && log == old(log) + opening + Say(q.stream, Cached(r.insight))
          && runs == old(runs) && cache.history == old(cache.history)
          && Remembers() == m
        else
          var run := Run(q, w, m.version, r);
          && runs == old(runs) + [run] && Genuine(guard, indonesian, run) && 1 <= r.attempts <= MAX_ATTEMPTS
          && log == old(log) + opening + RunLog(guard, mask, run)
          && Remembers() == FlowMemory(guard, relational, q, w, r, m)
    {
      hide Genuine, RunLog, FlowMemory, Lookup, KeyText, IsCacheable, Opened, OpeningLog, InStep, Stores, AllGenuine;
      ghost var memory := Remembers();
      var _ := GetSchema(w.read, w.now);
      OpenedInStep(relational, dbKey, memory, w.read, w.now);
      var hit := cache.Get(KeyText(KeyOf(q, version)), w.lookedUpAt);
      if hit.Some? {
        r := FromPayload(q.text, hit.value, w.latency);
        Note(Say(q.stream, Cached(r.insight)));
      } else {
        r := AskAnew(q, w);
      }
    }

    /** A run without the cache's help: one of the flows, then the shared end. */
    method AskAnew(q: Question, w: World) returns (r: AskResult)
      requires Valid() && Complete(w)
      modifies this`schema, this`version, this`log, this`runs, db, cache
      ensures Valid()
      ensures
        var run := Run(q, w, old(version), r);
        && runs == old(runs) + [run] && Genuine(guard, indonesian, run) && 1 <= r.attempts <= MAX_ATTEMPTS
        && log == old(log) + RunLog(guard, mask, run)
        && Remembers() == FlowMemory(guard, relational, q, w, r, old(Remembers()))
    {
      hide FlowOutcome, FlowLog, FlowMemory, Closing, KeyText, IsCacheable, InStep, Stores, Genuine, AllGenuine;
      ghost var before, memory, startVersion := log, Remembers(), version;
      var key := KeyOf(q, version);
      r := RunFlow(q, w);
      FlowIgnoresLatency(guard, q, indonesian, w, r, w.latency);
      FlowMemoryInStep(guard, relational, q, w, r, memory);
      r := Finalize(q, key, r, w);
      ghost var run := Run(q, w, startVersion, r);
      Regroup(before, FlowLog(guard, q, w, r), Closing(r, KeyText(key), RecordOf(q, mask, r), q.stream), [], [], []);
      StoresStep(runs, run);
      GenuineAfterLatency(guard, q, indonesian, w, startVersion, r);
      GenuineStep(guard, indonesian, runs, run);
      runs := runs + [run];
    }

    method RunFlow(q: Question, w: World) returns (r: AskResult)
      requires db.Valid() && Complete(w)
      modifies this`schema, this`version, this`log, db
      ensures db.Valid() && FlowOutcome(guard, q, indonesian, w, r) && 1 <= r.attempts <= MAX_ATTEMPTS
      ensures log == old(log) + FlowLog(guard, q, w, r)
      ensures Remembers() == FlowMemory(guard, relational, q, w, r, old(Remembers()))
    {
      hide SqlLog, AnalysisLog, MemoryAfter, Kinds, AnalysisKinds;
      if q.analysis {
        r := AskAnalysis(q, w.analysisRounds, w.final);
      } else {
        r := AskSql(q, w.rounds, w.explanation);
      }
    }
  }
}
