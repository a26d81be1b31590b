/** Which queries a run executes, how often it does what, and the shape of its log. */
module PipelineProofs {
  import opened Text
  import opened Schema
  import opened Sorting
  import opened SqlComments
  import MongoGuard
  import SqlGuard
  import opened SqlGuardProofs
  import opened QueryCaching
  import opened Answers
  import opened Pipeline

  // ---- Queries --------------------------------------------------------------------------------

  /** The text is something the guard let through. */
  ghost predicate FromGuard(guard: string -> GuardResult, sql: string) {
    exists text :: guard(text) == Passed(sql)
  }

  lemma ExecutedOfSay(stream: bool, e: Event)
    ensures Executed(Say(stream, e)) == []
  {
    assert [Emit(e)][..0] == [];
  }

  lemma ExecutedNone()
    ensures Executed([]) == []
  {
  }

  lemma ExecutedSnoc(log: seq<Effect>, e: Effect)
    ensures Executed(log + [e]) == if e.Execute? then Executed(log) + [e.sql] else Executed(log)
  {
    assert (log + [e])[..|log|] == log;
  }

  function QueryOf(kind: Kind): seq<string> { if SqlOf(kind).Some? then [SqlOf(kind).value] else [] }

  lemma ExecutedInRound(kind: Kind, n: nat, stream: bool)
    ensures Executed(RoundLog(kind, n, stream)) == QueryOf(kind)
  {
    hide Executed, Say;
    ExecutedNone();
    ExecutedSnoc([], Consult);
    assert [] + [Consult] == [Consult];
    forall e { ExecutedOfSay(stream, e); }
    match kind
    case BadReply(error) => ProjectionsOfConcat([Consult], Say(stream, Retry(n + 1, error)));
    case Advice(_) => assert RoundLog(kind, n, stream) == [Consult];
    case Flaky => ProjectionsOfConcat([Consult], Say(stream, Retry(n + 1, FLAKY)));
    case Rejected(error) => ProjectionsOfConcat([Consult], Say(stream, Retry(n + 1, error)));
    case Success(sql, _) =>
      ExecutedInQuery(sql, stream, []);
      assert RoundLog(kind, n, stream) == [Consult] + (Say(stream, SqlReady(sql)) + [Execute(sql)] + []);
    case Broken(sql, error) =>
      ExecutedInQuery(sql, stream, Say(stream, Retry(n + 1, error)));
    case Missing(sql, error) =>
      var refresh := Say(stream, SchemaRefresh(error));
      ExecutedSnoc(refresh, Introspect);
      ExecutedInQuery(sql, stream, refresh + [Introspect]);
      var query := Say(stream, SqlReady(sql)) + [Execute(sql)];
      assert query + (refresh + [Introspect]) == query + refresh + [Introspect];
  }

  lemma ExecutedInQuery(sql: string, stream: bool, rest: seq<Effect>)
    requires Executed(rest) == []
    ensures Executed([Consult] + (Say(stream, SqlReady(sql)) + [Execute(sql)] + rest)) == [sql]
  {
    hide Executed, Say;
    ExecutedNone();
    var ready := Say(stream, SqlReady(sql));
    ExecutedOfSay(stream, SqlReady(sql));
    ExecutedSnoc(ready, Execute(sql));
    ProjectionsOfConcat(ready + [Execute(sql)], rest);
    ProjectionsOfConcat([Consult], ready + [Execute(sql)] + rest);
    ExecutedSnoc([], Consult);
    assert [] + [Consult] == [Consult];
  }

  function Queries(kinds: seq<Kind>): seq<string> {
    if kinds == [] then [] else Queries(kinds[..|kinds| - 1]) + QueryOf(kinds[|kinds| - 1])
  }

  lemma {:induction false} ExecutedInRounds(kinds: seq<Kind>, stream: bool)
    ensures Executed(RoundsLog(kinds, stream)) == Queries(kinds)
  {
    if kinds == [] {
    } else {
      var n := |kinds| - 1;
      ExecutedInRounds(kinds[..n], stream);
      ProjectionsOfConcat(RoundsLog(kinds[..n], stream), RoundLog(kinds[n], n, stream));
      ExecutedInRound(kinds[n], n, stream);
    }
  }

  lemma NothingExecutedAtTheEnd(r: AskResult, columns: seq<string>, stream: bool)
    ensures Executed(EndingLog(r, columns, stream)) == []
  {
    hide Executed, Say;
    ExecutedNone();
    forall e { ExecutedOfSay(stream, e); }
    if r.status == Ok {
      var rows := Say(stream, ResultRows(columns, if r.rows.Some? then r.rows.value else [], r.rowCount));
      var told := Say(stream, Insight(r.insight));
      ProjectionsOfConcat(rows, told);
      if r.chart.Some? && r.chart.value != "" {
        ProjectionsOfConcat(rows + told, Say(stream, Chart(r.chart.value)));
      } else {
        assert EndingLog(r, columns, stream) == rows + told;
      }
    }
  }

  /** The backend sees exactly the queries the guard let through, in order; an `ok` answer is that of the last one. */
  lemma SqlRunExecutesGuardedQueries(
      guard: string -> GuardResult, q: Question, indonesian: bool, rounds: seq<Round>, e: Explanation, r: AskResult)
    requires |rounds| == MAX_ATTEMPTS
    requires SqlOutcome(q, indonesian, Kinds(guard, rounds), rounds, e, r)
    ensures
      var ran := Executed(SqlLog(q, Kinds(guard, rounds), r));
      && ran == Queries(Kinds(guard, rounds)[..r.attempts])
      && (forall sql | sql in ran :: FromGuard(guard, sql))
      && (r.status == Ok ==>
            ran != [] && ran[|ran| - 1] == r.sql
            && rounds[r.attempts - 1].outcome.Rows? && r.rows == Some(rounds[r.attempts - 1].outcome.frame.rows))
  {
    var kinds := Kinds(guard, rounds);
    ExecutedInSqlLog(q, kinds, r);
    QueriesAreGuarded(guard, rounds, r.attempts);
    if r.status == Ok {
      SuccessfulRound(guard, rounds, r.attempts - 1);
      PrefixStep(kinds, r.attempts - 1);
      QueriesStep(kinds, r.attempts - 1);
    }
  }

  lemma QueriesStep(kinds: seq<Kind>, n: nat)
    requires n < |kinds|
    ensures Queries(kinds[..n + 1]) == Queries(kinds[..n]) + QueryOf(kinds[n])
  {
    assert kinds[..n + 1][..n] == kinds[..n];
  }

  lemma SuccessfulRound(guard: string -> GuardResult, rounds: seq<Round>, n: nat)
    requires n < |rounds| && Kinds(guard, rounds)[n].Success?
    ensures rounds[n].outcome == Rows(Kinds(guard, rounds)[n].frame)
  {
  }

  lemma QueriesAreGuarded(guard: string -> GuardResult, rounds: seq<Round>, n: nat)
    requires n <= |rounds|
    ensures forall sql | sql in Queries(Kinds(guard, rounds)[..n]) :: FromGuard(guard, sql)
  {
    var made := Kinds(guard, rounds)[..n];
    forall i | 0 <= i < |made| && SqlOf(made[i]).Some? ensures FromGuard(guard, SqlOf(made[i]).value) {
      assert made[i] == KindOf(guard, rounds[i]);
    }
    QueriesOrigin(guard, made);
  }

  lemma ExecutedInSqlLog(q: Question, kinds: seq<Kind>, r: AskResult)
    requires r.attempts <= |kinds|
    ensures Executed(SqlLog(q, kinds, r)) == Queries(kinds[..r.attempts])
  {
    var plan, middle := Say(q.stream, Plan(q.model, q.analysis)), RoundsLog(kinds[..r.attempts], q.stream);
    var ending := EndingLog(r, ColumnsShown(kinds, r.attempts), q.stream);
    ProjectionsOfConcat(plan, middle);
    ProjectionsOfConcat(plan + middle, ending);
    ExecutedOfSay(q.stream, Plan(q.model, q.analysis));
    ExecutedInRounds(kinds[..r.attempts], q.stream);
    NothingExecutedAtTheEnd(r, ColumnsShown(kinds, r.attempts), q.stream);
  }

  lemma {:induction false} QueriesOrigin(guard: string -> GuardResult, kinds: seq<Kind>)
    requires forall i | 0 <= i < |kinds| && SqlOf(kinds[i]).Some? :: FromGuard(guard, SqlOf(kinds[i]).value)
    ensures forall sql | sql in Queries(kinds) :: FromGuard(guard, sql)
  {
    if kinds == [] {
    } else {
      QueriesOrigin(guard, kinds[..|kinds| - 1]);
    }
  }

  // ---- The analysis flow ----------------------------------------------------------------------

  lemma {:induction false} ExecutedOfAll(sqls: seq<string>)
    ensures Executed(ExecuteAll(sqls)) == sqls
  {
    if sqls == [] {
    } else {
      ExecutedOfAll(sqls[..|sqls| - 1]);
      ExecutedSnoc(ExecuteAll(sqls[..|sqls| - 1]), Execute(sqls[|sqls| - 1]));
    }
  }

  function QueriesOf(kind: AnalysisKind): seq<string> {
    match kind
    case Stopped(executed, _) => executed
    case Gathered(executed, _) => executed
    case _ => []
  }

  lemma ExecutedInAnalysisRound(kind: AnalysisKind, n: nat, stream: bool)
    ensures Executed(AnalysisRoundLog(kind, n, stream)) == QueriesOf(kind)
  {
    hide Executed, Say, ExecuteAll;
    ExecutedNone();
    ExecutedSnoc([], Consult);
    assert [] + [Consult] == [Consult];
    forall e { ExecutedOfSay(stream, e); }
    match kind
    case Garbled(error) => ProjectionsOfConcat([Consult], Say(stream, Retry(n + 1, error)));
    case Prose(_) => assert AnalysisRoundLog(kind, n, stream) == [Consult];
    case NoQueries => ProjectionsOfConcat([Consult], Say(stream, Retry(n + 1, "No analytical queries in response")));
    case Stopped(executed, error) => ExecutedInStoppedRound(executed, Retry(n + 1, error), stream);
    case Gathered(executed, _) =>
      ExecutedOfAll(executed);
      ProjectionsOfConcat([Consult], ExecuteAll(executed));
  }

  lemma ExecutedInStoppedRound(executed: seq<string>, again: Event, stream: bool)
    ensures Executed([Consult] + (ExecuteAll(executed) + Say(stream, again))) == executed
  {
    hide Executed, Say, ExecuteAll;
    ExecutedNone();
    ExecutedSnoc([], Consult);
    assert [] + [Consult] == [Consult];
    ExecutedOfSay(stream, again);
    ExecutedOfAll(executed);
    ProjectionsOfConcat(ExecuteAll(executed), Say(stream, again));
    ProjectionsOfConcat([Consult], ExecuteAll(executed) + Say(stream, again));
  }

  lemma {:induction false} GatherRunsGuarded(
      guard: string -> GuardResult, queries: seq<string>, outcomes: seq<DbOutcome>)
    requires |queries| <= |outcomes|
    ensures forall sql | sql in Gather(guard, queries, outcomes).executed :: FromGuard(guard, sql)
  {
    if queries == [] {
    } else {
      GatherRunsGuarded(guard, queries[..|queries| - 1], outcomes);
    }
  }

  lemma {:induction false} ExecutedInAnalysisRounds(
      guard: string -> GuardResult, kinds: seq<AnalysisKind>, stream: bool)
    requires forall i | 0 <= i < |kinds| :: forall sql | sql in QueriesOf(kinds[i]) :: FromGuard(guard, sql)
    ensures forall sql | sql in Executed(AnalysisRoundsLog(kinds, stream)) :: FromGuard(guard, sql)
  {
    if kinds == [] {
    } else {
      var n := |kinds| - 1;
      ExecutedInAnalysisRounds(guard, kinds[..n], stream);
      ProjectionsOfConcat(AnalysisRoundsLog(kinds[..n], stream), AnalysisRoundLog(kinds[n], n, stream));
      ExecutedInAnalysisRound(kinds[n], n, stream);
    }
  }

  /** The analysis flow, too, runs only what the guard lets through. */
  lemma AnalysisRunExecutesGuardedQueries(
      guard: string -> GuardResult, q: Question, indonesian: bool, rounds: seq<AnalysisRound>, final: FinalReply,
      r: AskResult)
    requires |rounds| == MAX_ATTEMPTS && forall x | x in rounds :: |x.outcomes| == MAX_ANALYSIS_QUERIES
    requires AnalysisOutcome(q, indonesian, AnalysisKinds(guard, rounds), rounds, final, r)
    ensures forall sql | sql in Executed(AnalysisLog(q, AnalysisKinds(guard, rounds), r)) :: FromGuard(guard, sql)
  {
    var kinds := AnalysisKinds(guard, rounds);
    var made, last := kinds[..r.attempts], kinds[r.attempts - 1];
    forall i | 0 <= i < |made| ensures forall sql | sql in QueriesOf(made[i]) :: FromGuard(guard, sql) {
      var round := rounds[i];
      assert round in rounds && made[i] == AnalysisKindOf(guard, round);
      if round.reply.Planned? {
        GatherRunsGuarded(guard, Take(round.reply.plan.queries, MAX_ANALYSIS_QUERIES), round.outcomes);
      }
    }
    ExecutedInAnalysisRounds(guard, made, q.stream);
    var plan, middle := Say(q.stream, Plan(q.model, q.analysis)), AnalysisRoundsLog(made, q.stream);
    ProjectionsOfConcat(plan, middle);
    ProjectionsOfConcat(plan + middle, AnalysisEndLog(last, r, q.stream));
    ExecutedOfSay(q.stream, Plan(q.model, q.analysis));
    NothingExecutedAfterGathering(last, r, q.stream);
  }

  lemma NothingExecutedAfterGathering(last: AnalysisKind, r: AskResult, stream: bool)
    ensures Executed(AnalysisEndLog(last, r, stream)) == []
  {
    hide Executed, Say;
    ExecutedNone();
    var head: seq<Effect> := if last.Gathered? then [Analyze(last.frames)] else [];
    var tail := if r.status == Error then [] else Say(stream, Insight(r.insight));
    ProjectionsOfConcat(head, tail);
    ExecutedOfSay(stream, Insight(r.insight));
    if last.Gathered? {
      ExecutedSnoc([], Analyze(last.frames));
      assert [] + [Analyze(last.frames)] == [Analyze(last.frames)];
    }
  }

  ghost predicate NoAnalysis(log: seq<Effect>) { forall e | e in log :: !e.Analyze? }

  lemma {:induction false} RoundsDoNotAnalyze(kinds: seq<AnalysisKind>, stream: bool)
    ensures NoAnalysis(AnalysisRoundsLog(kinds, stream))
  {
    if kinds == [] {
    } else {
      var n := |kinds| - 1;
      RoundsDoNotAnalyze(kinds[..n], stream);
      ExecutionsOnly(QueriesOf(kinds[n]));
    }
  }

  lemma {:induction false} ExecutionsOnly(sqls: seq<string>)
    ensures forall e | e in ExecuteAll(sqls) :: e.Execute?
  {
    if sqls == [] {
    } else {
      ExecutionsOnly(sqls[..|sqls| - 1]);
    }
  }

  /**
   * The final analysis sees the frames of one plan only: the last one, all of whose one to four queries were
   * let through, ran, and are represented in order. Without such a plan there is no final analysis at all.
   */
  lemma AnalysisUsesOnePlan(
      guard: string -> GuardResult, q: Question, indonesian: bool, rounds: seq<AnalysisRound>, final: FinalReply,
      r: AskResult, e: Effect)
    requires |rounds| == MAX_ATTEMPTS && forall x | x in rounds :: |x.outcomes| == MAX_ANALYSIS_QUERIES
    requires AnalysisOutcome(q, indonesian, AnalysisKinds(guard, rounds), rounds, final, r)
    requires e in AnalysisLog(q, AnalysisKinds(guard, rounds), r) && e.Analyze?
    ensures rounds[r.attempts - 1].reply.Planned?
    ensures
      var round := rounds[r.attempts - 1];
      var queries := Take(round.reply.plan.queries, MAX_ANALYSIS_QUERIES);
      && 1 <= |queries| <= MAX_ANALYSIS_QUERIES && |e.frames| == |queries| <= |round.outcomes|
      && forall i | 0 <= i < |queries| ::
           guard(queries[i]).Passed? && round.outcomes[i].Rows?
           && e.frames[i] == FrameOf(queries[i], round.outcomes[i].frame)
  {
    var kinds := AnalysisKinds(guard, rounds);
    RoundsDoNotAnalyze(kinds[..r.attempts], q.stream);
    var round, last := rounds[r.attempts - 1], kinds[r.attempts - 1];
    assert round in rounds && last == AnalysisKindOf(guard, round);
    assert last == Gathered(last.executed, e.frames);
    GatheredCompletely(guard, Take(round.reply.plan.queries, MAX_ANALYSIS_QUERIES), round.outcomes);
  }

  /** An `ok` analysis rests on such a plan. */
  lemma OkAnalysisIsGrounded(
      guard: string -> GuardResult, q: Question, indonesian: bool, rounds: seq<AnalysisRound>, final: FinalReply,
      r: AskResult)
    requires |rounds| == MAX_ATTEMPTS && forall x | x in rounds :: |x.outcomes| == MAX_ANALYSIS_QUERIES
    requires AnalysisOutcome(q, indonesian, AnalysisKinds(guard, rounds), rounds, final, r)
    ensures r.status == Ok ==> exists e :: e in AnalysisLog(q, AnalysisKinds(guard, rounds), r) && e.Analyze?
    ensures r.sql == "" && r.rows == None
  {
    var kinds := AnalysisKinds(guard, rounds);
    var last := kinds[r.attempts - 1];
    if r.status == Ok {
      assert last.Gathered?;
      assert Analyze(last.frames) in AnalysisEndLog(last, r, q.stream);
      assert Analyze(last.frames) in AnalysisLog(q, kinds, r);
    }
  }

  // ---- Either flow ----------------------------------------------------------------------------

  /** Every query that a run executes is one that the guard let through. */
  lemma RunExecutesGuardedQueries(guard: string -> GuardResult, indonesian: bool, mask: string -> string, run: Run)
    requires Genuine(guard, indonesian, run)
    ensures 1 <= run.answer.attempts <= MAX_ATTEMPTS
    ensures forall sql | sql in Executed(RunLog(guard, mask, run)) :: FromGuard(guard, sql)
  {
    hide Executed, SqlOutcome, AnalysisOutcome, SqlLog, AnalysisLog, Kinds, AnalysisKinds, KeyText, RecordOf, Closing;
    hide FromGuard;
    FlowIgnoresLatency(guard, run.q, indonesian, run.w, run.answer, run.answer.latency);
    if run.q.analysis {
      AnalysisRunExecutesGuardedQueries(
        guard, run.q, indonesian, run.w.analysisRounds, run.w.final, run.answer);
    } else {
      SqlRunExecutesGuardedQueries(guard, run.q, indonesian, run.w.rounds, run.w.explanation, run.answer);
    }
    var key, record := KeyText(KeyOf(run.q, run.version)), RecordOf(run.q, mask, run.answer);
    ProjectionsOfConcat(
      FlowLog(guard, run.q, run.w, run.answer), Closing(run.answer, key, record, run.q.stream));
    NothingExecutedAtTheClose(run.answer, key, record, run.q.stream);
  }

  lemma NothingExecutedAtTheClose(r: AskResult, key: string, record: AuditRecord, stream: bool)
    ensures Executed(Closing(r, key, record, stream)) == []
  {
    hide Executed, Say, IsCacheable;
    var audit, store := [Audit(record)], [Store(key, PayloadOf(r))];
    ExecutedNone();
    ExecutedSnoc([], Audit(record));
    ExecutedSnoc(audit, Store(key, PayloadOf(r)));
    ExecutedOfSay(stream, DoneOf(r));
    assert [] + audit == audit;
    var before := if Storable(r.status, r.sql) then audit + store else audit;
    ProjectionsOfConcat(before, Say(stream, DoneOf(r)));
    assert Closing(r, key, record, stream) == before + Say(stream, DoneOf(r)) by { SayIsEmission(stream, DoneOf(r)); }
  }

  lemma SayIsEmission(stream: bool, e: Event)
    ensures Say(stream, e) == if stream then [Emit(e)] else []
  {
  }

  // ---- With the SQL guard in place ------------------------------------------------------------

  function SqlGuardFor(limit: int, blacklist: seq<string>): string -> GuardResult {
    (text: string) =>
      match SqlGuard.Validate(text, limit, blacklist)
      case Accepted(sql) => Passed(sql)
      case Rejected(_) => Refused("rejected")
  }

  /** One statement without comments or forbidden words, naming no blacklisted table, with a final LIMIT in bounds. */
  ghost predicate Safe(sql: string, limit: int, blacklist: seq<string>) {
    && IsStatement(sql) && SqlGuard.FirstWord(sql) in SqlGuard.ALLOWED_STARTS
    && (forall k | k in SqlGuard.FORBIDDEN :: !SqlGuard.HasKeyword(Lower(sql), k))
    && (forall t | t in blacklist && SqlGuard.BlacklistName(t) !in {"", "limit"} ::
          !SqlGuard.Mentions(Lower(sql), SqlGuard.BlacklistName(t)))
    && exists p :: EndsInLimit(sql, p) && SqlGuard.LimitValue(sql, p) <= limit
  }

  lemma GuardedIsSafe(sql: string, limit: int, blacklist: seq<string>)
    requires FromGuard(SqlGuardFor(limit, blacklist), sql)
    ensures Safe(sql, limit, blacklist)
  {
    hide SqlGuard.Validate, IsStatement, SqlGuard.HasKeyword, SqlGuard.FirstWord, SqlGuard.Mentions;
    hide SqlGuard.BlacklistName, EndsInLimit, LacksFinalLimit;
    var text :| SqlGuardFor(limit, blacklist)(text) == Passed(sql);
    AcceptedShape(text, limit, blacklist, sql);
  }

  /** Every query either flow hands to a relational backend is safe. */
  lemma ExecutedQueriesAreSafe(
      limit: int, blacklist: seq<string>, indonesian: bool, mask: string -> string, run: Run)
    requires Genuine(SqlGuardFor(limit, blacklist), indonesian, run)
    ensures 1 <= run.answer.attempts <= MAX_ATTEMPTS
    ensures forall sql | sql in Executed(RunLog(SqlGuardFor(limit, blacklist), mask, run)) ::
              Safe(sql, limit, blacklist)
  {
    hide FlowOutcome, RunLog, FromGuard, Safe, Executed;
    RunExecutesGuardedQueries(SqlGuardFor(limit, blacklist), indonesian, mask, run);
    forall sql | sql in Executed(RunLog(SqlGuardFor(limit, blacklist), mask, run)) ensures Safe(sql, limit, blacklist) {
      GuardedIsSafe(sql, limit, blacklist);
    }
  }

  // ---- With the Mongo guard in place ----------------------------------------------------------

  /** The guard reads the payload, validates it and writes it out again. */
  ghost function MongoGuardFor(
      parse: string -> Option<MongoGuard.Json>, write: MongoGuard.Json -> string, limit: int): string -> GuardResult
  {
    (text: string) =>
      var payload := MongoGuard.Admitted(parse(text), limit);
      if payload.Some? then Passed(write(payload.value)) else Refused("rejected")
  }

  /** Everything handed to a MongoDB backend is a pipeline of safe stages, one of them a `$limit`. */
  lemma ExecutedPipelinesAreSafe(
      parse: string -> Option<MongoGuard.Json>, write: MongoGuard.Json -> string, limit: int,
      indonesian: bool, mask: string -> string, run: Run)
    requires forall j :: parse(write(j)) == Some(j)
    requires Genuine(MongoGuardFor(parse, write, limit), indonesian, run)
    ensures 1 <= run.answer.attempts <= MAX_ATTEMPTS
    ensures forall text | text in Executed(RunLog(MongoGuardFor(parse, write, limit), mask, run)) ::
              && parse(text).Some? && MongoGuard.WellShaped(parse(text).value)
              && (forall s | s in MongoGuard.Stages(parse(text).value) :: MongoGuard.SafeStage(s))
              && (limit > 0 ==> MongoGuard.HasLimit(MongoGuard.Stages(parse(text).value)))
  {
    hide FlowOutcome, RunLog, FromGuard, Executed;
    var guard := MongoGuardFor(parse, write, limit);
    RunExecutesGuardedQueries(guard, indonesian, mask, run);
    forall text | text in Executed(RunLog(guard, mask, run))
      ensures parse(text).Some? && MongoGuard.WellShaped(parse(text).value)
      ensures forall s | s in MongoGuard.Stages(parse(text).value) :: MongoGuard.SafeStage(s)
      ensures limit > 0 ==> MongoGuard.HasLimit(MongoGuard.Stages(parse(text).value))
    {
      var original := GuardedText(guard, text);
      assert MongoGuard.Admitted(parse(original), limit).Some?;
      MongoGuard.AcceptedAgain(parse(original).value, limit);
    }
  }

  lemma GuardedText(guard: string -> GuardResult, sql: string) returns (text: string)
    requires FromGuard(guard, sql)
    ensures guard(text) == Passed(sql)
  {
    text :| guard(text) == Passed(sql);
  }

  // ---- The shape that the event relay relies on -----------------------------------------------

  lemma {:induction false} RoundsWork(kinds: seq<Kind>, stream: bool)
    ensures forall e | e in RoundsLog(kinds, stream) :: Working(e)
  {
    hide KindLog;
    if kinds == [] {
    } else {
      var n := |kinds| - 1;
      RoundsWork(kinds[..n], stream);
      KindWorks(kinds[n], n, stream);
    }
  }

  lemma KindWorks(kind: Kind, n: nat, stream: bool)
    ensures forall e | e in KindLog(kind, n, stream) :: Working(e)
  {
  }

  lemma {:induction false} AnalysisRoundsWork(kinds: seq<AnalysisKind>, stream: bool)
    ensures forall e | e in AnalysisRoundsLog(kinds, stream) :: Working(e)
  {
    if kinds == [] {
    } else {
      var n := |kinds| - 1;
      AnalysisRoundsWork(kinds[..n], stream);
      ExecutionsOnly(QueriesOf(kinds[n]));
    }
  }

  /** The flows only work; the audit, the store and `done` belong to the shared end alone. */
  lemma FlowsOnlyWork(guard: string -> GuardResult, q: Question, indonesian: bool, w: World, r: AskResult)
    requires Complete(w) && FlowOutcome(guard, q, indonesian, w, r)
    ensures 1 <= r.attempts <= MAX_ATTEMPTS
    ensures forall e | e in FlowLog(guard, q, w, r) :: Working(e)
  {
    hide SqlOutcome, AnalysisOutcome, Kinds, AnalysisKinds, RoundsLog, AnalysisRoundsLog;
    FlowIgnoresLatency(guard, q, indonesian, w, r, r.latency);
    if q.analysis {
      AnalysisRoundsWork(AnalysisKinds(guard, w.analysisRounds)[..r.attempts], q.stream);
    } else {
      RoundsWork(Kinds(guard, w.rounds)[..r.attempts], q.stream);
    }
  }

  /** So the log of every streamed run, hit or miss, has the shape the relay is proved for. */
  lemma RunsHaveAskShape(
      guard: string -> GuardResult, indonesian: bool, mask: string -> string, run: Run,
      insight: string, relational: bool, dbKey: string, m: Memory, now: string)
    requires Genuine(guard, indonesian, run) && run.q.stream
    ensures 1 <= run.answer.attempts <= MAX_ATTEMPTS
    ensures AskShape(OpeningLog(relational, dbKey, m, now) + RunLog(guard, mask, run))
    ensures AskShape(OpeningLog(relational, dbKey, m, now) + Say(true, Cached(insight)))
  {
    hide FlowOutcome, FlowLog, KeyText, RecordOf, Closing, StoredSchema;
    FlowsOnlyWork(guard, run.q, indonesian, run.w, run.answer);
    var opening := OpeningLog(relational, dbKey, m, now);
    assert Opening(opening) && Say(true, Cached(insight)) == [Emit(Cached(insight))];
    var body := FlowLog(guard, run.q, run.w, run.answer);
    var key, record := KeyText(KeyOf(run.q, run.version)), RecordOf(run.q, mask, run.answer);
    assert opening + RunLog(guard, mask, run) == opening + body + Closing(run.answer, key, record, true);
    assert UncachedLog(opening + RunLog(guard, mask, run), opening + body, run.answer, key, record);
  }

  // ---- How often ------------------------------------------------------------------------------

  function Consults(log: seq<Effect>): nat {
    if log == [] then 0 else Consults(log[..|log| - 1]) + if log[|log| - 1].Consult? then 1 else 0
  }

  function Audits(log: seq<Effect>): nat {
    if log == [] then 0 else Audits(log[..|log| - 1]) + if log[|log| - 1].Audit? then 1 else 0
  }

  lemma {:induction false} CountsOfConcat(a: seq<Effect>, b: seq<Effect>)
    ensures Consults(a + b) == Consults(a) + Consults(b) && Audits(a + b) == Audits(a) + Audits(b)
  {
    if b == [] {
      assert a + b == a;
    } else {
      CountsOfConcat(a, b[..|b| - 1]);
      assert (a + b)[..|a + b| - 1] == a + b[..|b| - 1];
    }
  }

  lemma {:induction false} CountsWhenNone(log: seq<Effect>)
    ensures (forall e | e in log :: !e.Consult?) ==> Consults(log) == 0
    ensures (forall e | e in log :: !e.Audit?) ==> Audits(log) == 0
  {
    if log == [] {
    } else {
      CountsWhenNone(log[..|log| - 1]);
      assert log[|log| - 1] in log;
    }
  }

  lemma CountNone()
    ensures Consults([]) == 0 && Audits([]) == 0
  {
  }

  lemma OneConsult(rest: seq<Effect>)
    requires forall e | e in rest :: !e.Consult?
    ensures Consults([Consult] + rest) == 1
  {
    CountsOfConcat([Consult], rest);
    CountsWhenNone(rest);
    assert [Consult][..0] == [];
  }

  lemma {:induction false} ConsultsInRounds(kinds: seq<Kind>, stream: bool)
    ensures Consults(RoundsLog(kinds, stream)) == |kinds|
  {
    hide Consults, KindLog;
    CountNone();
    if kinds == [] {
    } else {
      var n := |kinds| - 1;
      ConsultsInRounds(kinds[..n], stream);
      CountsOfConcat(RoundsLog(kinds[..n], stream), RoundLog(kinds[n], n, stream));
      RoundsConsultOnce(kinds[n], n, stream);
      OneConsult(KindLog(kinds[n], n, stream));
    }
  }

  lemma RoundsConsultOnce(kind: Kind, n: nat, stream: bool)
    ensures forall e | e in KindLog(kind, n, stream) :: !e.Consult?
  {
  }

  lemma {:induction false} ConsultsInAnalysisRounds(kinds: seq<AnalysisKind>, stream: bool)
    ensures Consults(AnalysisRoundsLog(kinds, stream)) == |kinds|
  {
    hide Consults;
    CountNone();
    if kinds == [] {
    } else {
      var n := |kinds| - 1;
      ConsultsInAnalysisRounds(kinds[..n], stream);
      CountsOfConcat(AnalysisRoundsLog(kinds[..n], stream), AnalysisRoundLog(kinds[n], n, stream));
      var round := AnalysisRoundLog(kinds[n], n, stream);
      ExecutionsOnly(QueriesOf(kinds[n]));
      assert round == [Consult] + round[1..];
      OneConsult(round[1..]);
    }
  }

  lemma ConsultsInSqlLog(q: Question, kinds: seq<Kind>, r: AskResult)
    requires r.attempts <= |kinds|
    ensures Consults(SqlLog(q, kinds, r)) == r.attempts
  {
    hide Consults, Audits, RoundsLog;
    var plan, middle := Say(q.stream, Plan(q.model, q.analysis)), RoundsLog(kinds[..r.attempts], q.stream);
    var end := EndingLog(r, ColumnsShown(kinds, r.attempts), q.stream);
    CountsWhenNone(plan);
    ConsultsInRounds(kinds[..r.attempts], q.stream);
    CountsOfConcat(plan, middle);
    CountsOfConcat(plan + middle, end);
    CountsWhenNone(end);
  }

  lemma ConsultsInAnalysisLog(q: Question, kinds: seq<AnalysisKind>, r: AskResult)
    requires 1 <= r.attempts <= |kinds|
    ensures Consults(AnalysisLog(q, kinds, r)) == r.attempts
  {
    hide Consults, Audits, AnalysisRoundsLog;
    var plan, middle := Say(q.stream, Plan(q.model, q.analysis)), AnalysisRoundsLog(kinds[..r.attempts], q.stream);
    var end := AnalysisEndLog(kinds[r.attempts - 1], r, q.stream);
    CountsWhenNone(plan);
    ConsultsInAnalysisRounds(kinds[..r.attempts], q.stream);
    CountsOfConcat(plan, middle);
    CountsOfConcat(plan + middle, end);
    CountsWhenNone(end);
  }

  /** A run asks the model for a plan once per attempt, three times at most, and attempts its audit record once. */
  lemma ConsultsAndAudits(guard: string -> GuardResult, indonesian: bool, mask: string -> string, run: Run)
    requires Genuine(guard, indonesian, run)
    ensures 1 <= run.answer.attempts <= 3
    ensures Consults(RunLog(guard, mask, run)) == run.answer.attempts
    ensures Audits(RunLog(guard, mask, run)) == 1
  {
    hide FlowLog, FlowOutcome, Complete, IsCacheable, KeyText, RecordOf;
    FlowsOnlyWork(guard, run.q, indonesian, run.w, run.answer);
    var key, record := KeyText(KeyOf(run.q, run.version)), RecordOf(run.q, mask, run.answer);
    var body := FlowLog(guard, run.q, run.w, run.answer);
    var closing := Closing(run.answer, key, record, run.q.stream);
    ConsultsInFlow(guard, run.q, indonesian, run.w, run.answer);
    CountsWhenNone(body);
    CountsOfConcat(body, closing);
    CountsOfConcat([Audit(record)], closing[1..]);
    assert closing == [Audit(record)] + closing[1..];
    CountsWhenNone(closing[1..]);
    assert [Audit(record)][..0] == [];
  }

  lemma ConsultsInFlow(guard: string -> GuardResult, q: Question, indonesian: bool, w: World, r: AskResult)
    requires Complete(w) && FlowOutcome(guard, q, indonesian, w, r)
    ensures 1 <= r.attempts <= MAX_ATTEMPTS && Consults(FlowLog(guard, q, w, r)) == r.attempts
  {
    hide Consults, SqlLog, AnalysisLog, SqlOutcome, AnalysisOutcome;
    FlowIgnoresLatency(guard, q, indonesian, w, r, r.latency);
    if q.analysis {
      ConsultsInAnalysisLog(q, AnalysisKinds(guard, w.analysisRounds), r);
    } else {
      ConsultsInSqlLog(q, Kinds(guard, w.rounds), r);
    }
  }
}
