/** The grammar of the events that a run streams. */
module EventGrammar {
  import opened Text
  import opened QueryCaching
  import opened Answers
  import opened Pipeline

  datatype Phase =
    | Begin
    | Idle(failed: nat)     // between rounds
    | Pending(failed: nat)  // a query has been announced
    | Showing | Answered | Charted | Told
    | Planning(failed: nat) // between the rounds of an analysis
    | Advised
    | Final(status: Status)
    | Wrong

  function Next(p: Phase, e: Event): Phase {
    match (p, e)
    case (Begin, Plan(_, analysis)) => if analysis then Planning(0) else Idle(0)
    case (Idle(k), Retry(n, _)) => if n == k + 1 <= MAX_ATTEMPTS then Idle(k + 1) else Wrong
    case (Idle(k), SqlReady(_)) => if k < MAX_ATTEMPTS then Pending(k) else Wrong
    case (Idle(_), Insight(_)) => Told
    case (Idle(k), Done(status, _, _, cached, _, error)) =>
      if k == MAX_ATTEMPTS && status == Error && error.Some? && !cached then Final(Error) else Wrong
    case (Pending(k), Retry(n, _)) => if n == k + 1 then Idle(k + 1) else Wrong
    case (Pending(k), SchemaRefresh(_)) => Idle(k + 1)
    case (Pending(_), ResultRows(_, _, _)) => Showing
    case (Showing, Insight(_)) => Answered
    case (Answered, Chart(_)) => Charted
    case (Told, Done(status, _, _, cached, _, error)) =>
      if status == NoData && error.None? && !cached then Final(NoData) else Wrong
    case (Answered, Done(status, _, _, cached, _, error)) =>
      if status == Ok && error.None? && !cached then Final(Ok) else Wrong
    case (Charted, Done(status, _, _, cached, _, error)) =>
      if status == Ok && error.None? && !cached then Final(Ok) else Wrong
    case (Planning(k), Retry(n, _)) => if n == k + 1 <= MAX_ATTEMPTS then Planning(k + 1) else Wrong
    case (Planning(_), Insight(_)) => Advised
    case (Planning(k), Done(status, _, _, cached, _, error)) =>
      if status == Error && !cached && error.Some? && (k == MAX_ATTEMPTS || error == Some(EMPTY_ANALYSIS)) then
        Final(Error)
      else Wrong
    case (Advised, Done(status, _, _, cached, _, error)) =>
      if status != Error && error.None? && !cached then Final(status) else Wrong
    case _ => Wrong
  }

  /** Reads events in order; nothing may follow a final one. */
  function Read(p: Phase, events: seq<Event>): Phase {
    if events == [] then p else Next(Read(p, events[..|events| - 1]), events[|events| - 1])
  }

  lemma {:induction false} ReadConcat(p: Phase, a: seq<Event>, b: seq<Event>)
    ensures Read(p, a + b) == Read(Read(p, a), b)
  {
    if b == [] {
      assert a + b == a;
    } else {
      ReadConcat(p, a, b[..|b| - 1]);
      assert (a + b)[..|a + b| - 1] == a + b[..|b| - 1];
    }
  }

  /** The phase reached by streaming a log. */
  function After(p: Phase, log: seq<Effect>): Phase { Read(p, Emitted(log)) }

  lemma AfterConcat(p: Phase, a: seq<Effect>, b: seq<Effect>)
    ensures After(p, a + b) == After(After(p, a), b)
  {
    ProjectionsOfConcat(a, b);
    ReadConcat(p, Emitted(a), Emitted(b));
  }

  /** Only streamed effects are read. */
  function Step(p: Phase, e: Effect): Phase { if e.Emit? then Next(p, e.event) else p }

  lemma AfterSnoc(p: Phase, log: seq<Effect>, e: Effect)
    ensures After(p, log + [e]) == Step(After(p, log), e)
  {
    assert (log + [e])[..|log|] == log;
    var init := Emitted(log);
    if e.Emit? {
      assert (init + [e.event])[..|init|] == init;
    }
  }

  lemma AfterNone(p: Phase)
    ensures After(p, []) == p
  {
  }

  lemma AfterFew(p: Phase, a: Effect, b: Effect, c: Effect, d: Effect, e: Effect)
    ensures After(p, []) == p && After(p, [a]) == Step(p, a) && After(p, [a, b]) == Step(Step(p, a), b)
    ensures After(p, [a, b, c]) == Step(Step(Step(p, a), b), c)
    ensures After(p, [a, b, c, d]) == Step(Step(Step(Step(p, a), b), c), d)
    ensures After(p, [a, b, c, d, e]) == Step(Step(Step(Step(Step(p, a), b), c), d), e)
  {
    hide After, Step;
    AfterNone(p);
    AfterSnoc(p, [], a);
    AfterSnoc(p, [a], b);
    AfterSnoc(p, [a, b], c);
    AfterSnoc(p, [a, b, c], d);
    AfterSnoc(p, [a, b, c, d], e);
    assert [] + [a] == [a] && [a] + [b] == [a, b] && [a, b] + [c] == [a, b, c];
    assert [a, b, c] + [d] == [a, b, c, d] && [a, b, c, d] + [e] == [a, b, c, d, e];
  }

  lemma AfterSay(p: Phase, e: Event)
    ensures After(p, Say(true, e)) == Next(p, e)
  {
    AfterFew(p, Emit(e), Emit(e), Emit(e), Emit(e), Emit(e));
  }

  /** The phase after a round without a query, and after one with a query. */
  lemma AfterPlainRound(kind: Kind, n: nat)
    requires n < MAX_ATTEMPTS && SqlOf(kind).None?
    ensures After(Idle(n), RoundLog(kind, n, true)) == if kind.Advice? then Idle(n) else Idle(n + 1)
  {
    hide After;
    if kind.Advice? {
      assert RoundLog(kind, n, true) == [Consult];
      AfterFew(Idle(n), Consult, Consult, Consult, Consult, Consult);
    } else {
      var again := Emit(Retry(n + 1, ErrorOf(kind).value));
      assert RoundLog(kind, n, true) == [Consult, again];
      AfterFew(Idle(n), Consult, again, Consult, Consult, Consult);
    }
  }

  lemma AfterQueryRound(kind: Kind, n: nat)
    requires n < MAX_ATTEMPTS && SqlOf(kind).Some?
    ensures After(Idle(n), RoundLog(kind, n, true)) == if kind.Success? then Pending(n) else Idle(n + 1)
  {
    hide After;
    var ready, execute := Emit(SqlReady(kind.sql)), Execute(kind.sql);
    if kind.Success? {
      assert RoundLog(kind, n, true) == [Consult, ready, execute];
      AfterFew(Idle(n), Consult, ready, execute, Consult, Consult);
    } else if kind.Broken? {
      var again := Emit(Retry(n + 1, kind.error));
      assert RoundLog(kind, n, true) == [Consult, ready, execute, again];
      AfterFew(Idle(n), Consult, ready, execute, again, Consult);
    } else {
      var refresh := Emit(SchemaRefresh(kind.error));
      assert RoundLog(kind, n, true) == [Consult, ready, execute, refresh, Introspect];
      AfterFew(Idle(n), Consult, ready, execute, refresh, Introspect);
    }
  }

  lemma AfterRound(kind: Kind, n: nat)
    requires n < MAX_ATTEMPTS
    ensures After(Idle(n), RoundLog(kind, n, true))
            == if kind.Success? then Pending(n) else if kind.Advice? then Idle(n) else Idle(n + 1)
  {
    if SqlOf(kind).None? {
      AfterPlainRound(kind, n);
    } else {
      AfterQueryRound(kind, n);
    }
  }

  /** Rounds that do not end the loop each count as one failed attempt. */
  lemma {:induction false} AfterFailedRounds(kinds: seq<Kind>)
    requires |kinds| <= MAX_ATTEMPTS && forall i | 0 <= i < |kinds| :: !kinds[i].Success? && !kinds[i].Advice?
    ensures After(Idle(0), RoundsLog(kinds, true)) == Idle(|kinds|)
  {
    if kinds == [] {
    } else {
      hide After, RoundLog;
      var n := |kinds| - 1;
      AfterFailedRounds(kinds[..n]);
      AfterConcat(Idle(0), RoundsLog(kinds[..n], true), RoundLog(kinds[n], n, true));
      AfterRound(kinds[n], n);
    }
  }

  lemma RoundsLogStep(kinds: seq<Kind>, n: nat)
    requires n < |kinds|
    ensures RoundsLog(kinds[..n + 1], true) == RoundsLog(kinds[..n], true) + RoundLog(kinds[n], n, true)
  {
    hide RoundLog;
    assert kinds[..n + 1][..n] == kinds[..n];
  }

  lemma AfterRounds(kinds: seq<Kind>, attempts: nat)
    requires |kinds| == MAX_ATTEMPTS && 1 <= attempts <= MAX_ATTEMPTS
    requires forall i | 0 <= i < attempts - 1 :: !Ends(kinds, i)
    ensures After(Idle(0), RoundsLog(kinds[..attempts], true))
            == var last := kinds[attempts - 1];
               if last.Success? then Pending(attempts - 1)
               else if last.Advice? then Idle(attempts - 1)
               else Idle(attempts)
  {
    hide After, RoundLog, RoundsLog;
    var n := attempts - 1;
    RoundsLogStep(kinds, n);
    forall i | 0 <= i < n ensures !kinds[..n][i].Success? && !kinds[..n][i].Advice? {
      assert !Ends(kinds, i);
    }
    AfterFailedRounds(kinds[..n]);
    AfterConcat(Idle(0), RoundsLog(kinds[..n], true), RoundLog(kinds[n], n, true));
    AfterRound(kinds[n], n);
  }

  lemma AfterRowsEnding(p: Phase, r: AskResult, columns: seq<string>)
    requires p.Pending? && r.status == Ok && r.error.None? && !r.cached
    ensures After(p, EndingLog(r, columns, true) + [Emit(DoneOf(r))]) == Final(Ok)
  {
    hide After;
    var done := Emit(DoneOf(r));
    var shown := Emit(ResultRows(columns, if r.rows.Some? then r.rows.value else [], r.rowCount));
    var told := Emit(Insight(r.insight));
    if r.chart.Some? && r.chart.value != "" {
      var drawn := Emit(Chart(r.chart.value));
      assert EndingLog(r, columns, true) + [done] == [shown, told, drawn, done];
      AfterFew(p, shown, told, drawn, done, done);
    } else {
      assert EndingLog(r, columns, true) + [done] == [shown, told, done];
      AfterFew(p, shown, told, done, done, done);
    }
  }

  lemma AfterInsightEnding(p: Phase, r: AskResult, columns: seq<string>)
    requires r.status == NoData && p.Idle? && r.insight != "" && r.error.None? && !r.cached
    ensures After(p, EndingLog(r, columns, true) + [Emit(DoneOf(r))]) == Final(NoData)
  {
    hide After;
    var told, done := Emit(Insight(r.insight)), Emit(DoneOf(r));
    assert EndingLog(r, columns, true) == [told];
    assert [told] + [done] == [told, done];
    AfterFew(p, told, done, done, done, done);
  }

  lemma AfterErrorEnding(p: Phase, r: AskResult, columns: seq<string>)
    requires r.status == Error && p == Idle(MAX_ATTEMPTS) && r.error.Some? && !r.cached
    ensures After(p, EndingLog(r, columns, true) + [Emit(DoneOf(r))]) == Final(Error)
  {
    hide After;
    assert EndingLog(r, columns, true) == [];
    AfterNone(p);
    AfterSnoc(p, [], Emit(DoneOf(r)));
  }

  /** Audit and store stream nothing. */
  lemma ClosingStreamsDone(p: Phase, r: AskResult, key: string, record: AuditRecord)
    ensures After(p, Closing(r, key, record, true)) == After(p, [Emit(DoneOf(r))])
  {
    hide After, IsCacheable;
    var audit, done := Audit(record), Emit(DoneOf(r));
    if Storable(r.status, r.sql) {
      var store := Store(key, PayloadOf(r));
      assert Closing(r, key, record, true) == [audit, store, done];
      AfterFew(p, audit, store, done, done, done);
    } else {
      assert Closing(r, key, record, true) == [audit, done];
      AfterFew(p, audit, done, done, done, done);
    }
    AfterFew(p, done, done, done, done, done);
  }

  lemma KindsAreInGrammar(
      q: Question, indonesian: bool, kinds: seq<Kind>, rounds: seq<Round>, e: Explanation, r: AskResult,
      key: string, record: AuditRecord)
    requires |kinds| == |rounds| == MAX_ATTEMPTS && q.stream && !q.analysis
    requires forall i | 0 <= i < |kinds| :: kinds[i].Advice? ==> kinds[i].text != ""
    requires SqlOutcome(q, indonesian, kinds, rounds, e, r)
    ensures After(Begin, SqlLog(q, kinds, r) + Closing(r, key, record, true)) == Final(r.status)
  {
    hide After, RoundsLog, EndingLog, Closing, LastSql, LastError, LastReasoning, TokensOf;
    var plan, middle := Say(true, Plan(q.model, false)), RoundsLog(kinds[..r.attempts], true);
    var ending, closing := EndingLog(r, ColumnsShown(kinds, r.attempts), true), Closing(r, key, record, true);
    AfterSay(Begin, Plan(q.model, false));
    AfterConcat(Begin, plan, middle);
    AfterConcat(Begin, plan + middle, ending);
    AfterConcat(Begin, plan + middle + ending, closing);
    AfterRounds(kinds, r.attempts);
    var p := After(Idle(0), middle);
    AfterConcat(p, ending, [Emit(DoneOf(r))]);
    ClosingStreamsDone(After(p, ending), r, key, record);
    StatusFitsPhase(q, indonesian, kinds, rounds, e, r);
    if r.status == Ok {
      AfterRowsEnding(p, r, ColumnsShown(kinds, r.attempts));
    } else if r.status == NoData {
      AfterInsightEnding(p, r, ColumnsShown(kinds, r.attempts));
    } else {
      AfterErrorEnding(p, r, ColumnsShown(kinds, r.attempts));
    }
  }

  lemma AdviceIsSubstantive(guard: string -> GuardResult, rounds: seq<Round>)
    ensures forall i | 0 <= i < |rounds| && Kinds(guard, rounds)[i].Advice? :: Kinds(guard, rounds)[i].text != ""
  {
  }

  lemma StatusFitsPhase(
      q: Question, indonesian: bool, kinds: seq<Kind>, rounds: seq<Round>, e: Explanation, r: AskResult)
    requires |kinds| == |rounds| == MAX_ATTEMPTS && SqlOutcome(q, indonesian, kinds, rounds, e, r)
    requires forall i | 0 <= i < |kinds| :: kinds[i].Advice? ==> kinds[i].text != ""
    ensures r.status == Ok ==> kinds[r.attempts - 1].Success?
    ensures r.status == NoData ==> !kinds[r.attempts - 1].Success? && r.insight != ""
    ensures r.status == Error ==> r.attempts == MAX_ATTEMPTS && !kinds[2].Success? && !kinds[2].Advice?
  {
    if r.status == Error {
      assert !Ends(kinds, 2);
    }
  }

  lemma SqlRunIsInGrammar(
      guard: string -> GuardResult, q: Question, indonesian: bool, rounds: seq<Round>, e: Explanation, r: AskResult,
      key: string, record: AuditRecord)
    requires |rounds| == MAX_ATTEMPTS && q.stream && !q.analysis
    requires SqlOutcome(q, indonesian, Kinds(guard, rounds), rounds, e, r)
    ensures After(Begin, SqlLog(q, Kinds(guard, rounds), r) + Closing(r, key, record, true)) == Final(r.status)
    ensures r.error.Some? <==> r.status == Error
  {
    AdviceIsSubstantive(guard, rounds);
    KindsAreInGrammar(q, indonesian, Kinds(guard, rounds), rounds, e, r, key, record);
  }

  // ---- The analysis flow ----------------------------------------------------------------------

  lemma {:induction false} ExecutionsStreamNothing(p: Phase, sqls: seq<string>)
    ensures After(p, ExecuteAll(sqls)) == p
  {
    hide After;
    if sqls == [] {
      AfterNone(p);
    } else {
      var n := |sqls| - 1;
      ExecutionsStreamNothing(p, sqls[..n]);
      AfterSnoc(p, ExecuteAll(sqls[..n]), Execute(sqls[n]));
    }
  }

  lemma AfterConsult(p: Phase)
    ensures After(p, [Consult]) == p
  {
    AfterFew(p, Consult, Consult, Consult, Consult, Consult);
  }

  lemma AfterAnalysisRound(kind: AnalysisKind, n: nat)
    requires n < MAX_ATTEMPTS
    ensures After(Planning(n), AnalysisRoundLog(kind, n, true))
            == if AnalysisEnds(kind) then Planning(n) else Planning(n + 1)
  {
    hide After, ExecuteAll;
    var p := Planning(n);
    AfterConsult(p);
    match kind
    case Prose(_) => assert AnalysisRoundLog(kind, n, true) == [Consult];
    case Gathered(executed, _) =>
      AfterConcat(p, [Consult], ExecuteAll(executed));
      ExecutionsStreamNothing(p, executed);
    case Garbled(error) =>
      AfterConcat(p, [Consult], Say(true, Retry(n + 1, error)));
      AfterSay(p, Retry(n + 1, error));
    case NoQueries =>
      AfterConcat(p, [Consult], Say(true, Retry(n + 1, "No analytical queries in response")));
      AfterSay(p, Retry(n + 1, "No analytical queries in response"));
    case Stopped(executed, error) =>
      var again := Say(true, Retry(n + 1, error));
      AfterConcat(p, [Consult], ExecuteAll(executed) + again);
      AfterConcat(p, ExecuteAll(executed), again);
      ExecutionsStreamNothing(p, executed);
      AfterSay(p, Retry(n + 1, error));
  }

  lemma {:induction false} AfterFailedPlans(kinds: seq<AnalysisKind>)
    requires |kinds| <= MAX_ATTEMPTS && forall i | 0 <= i < |kinds| :: !AnalysisEnds(kinds[i])
    ensures After(Planning(0), AnalysisRoundsLog(kinds, true)) == Planning(|kinds|)
  {
    hide After, AnalysisRoundLog;
    if kinds == [] {
      AfterNone(Planning(0));
    } else {
      var n := |kinds| - 1;
      AfterFailedPlans(kinds[..n]);
      AfterConcat(Planning(0), AnalysisRoundsLog(kinds[..n], true), AnalysisRoundLog(kinds[n], n, true));
      AfterAnalysisRound(kinds[n], n);
    }
  }

  lemma AfterPlans(kinds: seq<AnalysisKind>, attempts: nat)
    requires |kinds| == MAX_ATTEMPTS && 1 <= attempts <= MAX_ATTEMPTS
    requires forall i | 0 <= i < attempts - 1 :: !AnalysisEnds(kinds[i])
    ensures After(Planning(0), AnalysisRoundsLog(kinds[..attempts], true))
            == Planning(if AnalysisEnds(kinds[attempts - 1]) then attempts - 1 else attempts)
  {
    hide After, AnalysisRoundLog;
    var n := attempts - 1;
    assert kinds[..attempts][..n] == kinds[..n] && kinds[..attempts][n] == kinds[n];
    AfterFailedPlans(kinds[..n]);
    AfterConcat(Planning(0), AnalysisRoundsLog(kinds[..n], true), AnalysisRoundLog(kinds[n], n, true));
    AfterAnalysisRound(kinds[n], n);
  }

  lemma AfterAnalysisEnding(p: Phase, last: AnalysisKind, r: AskResult)
    requires p.Planning? && !r.cached && (r.error.Some? <==> r.status == Error)
    requires r.status == Error ==> p == Planning(MAX_ATTEMPTS) || r.error == Some(EMPTY_ANALYSIS)
    ensures After(p, AnalysisEndLog(last, r, true) + [Emit(DoneOf(r))]) == Final(r.status)
  {
    hide After;
    var told, done := Emit(Insight(r.insight)), Emit(DoneOf(r));
    var end := AnalysisEndLog(last, r, true) + [done];
    if last.Gathered? {
      var analyze := Analyze(last.frames);
      assert end == if r.status == Error then [analyze, done] else [analyze, told, done];
      AfterFew(p, analyze, if r.status == Error then done else told, done, done, done);
    } else {
      assert end == if r.status == Error then [done] else [told, done];
      AfterFew(p, if r.status == Error then done else told, done, done, done, done);
    }
  }

  lemma AnalysisRunIsInGrammar(
      guard: string -> GuardResult, q: Question, indonesian: bool, rounds: seq<AnalysisRound>, final: FinalReply,
      r: AskResult, key: string, record: AuditRecord)
    requires |rounds| == MAX_ATTEMPTS && forall x | x in rounds :: |x.outcomes| == MAX_ANALYSIS_QUERIES
    requires q.stream && q.analysis
    requires AnalysisOutcome(q, indonesian, AnalysisKinds(guard, rounds), rounds, final, r)
    ensures
      After(Begin, AnalysisLog(q, AnalysisKinds(guard, rounds), r) + Closing(r, key, record, true)) == Final(r.status)
    ensures r.error.Some? <==> r.status == Error
  {
    hide After, AnalysisRoundsLog, AnalysisEndLog, Closing, AnalysisTokens, AnalysisKinds;
    var kinds := AnalysisKinds(guard, rounds);
    var last := kinds[r.attempts - 1];
    var plan, middle := Say(true, Plan(q.model, true)), AnalysisRoundsLog(kinds[..r.attempts], true);
    var ending, closing := AnalysisEndLog(last, r, true), Closing(r, key, record, true);
    AfterSay(Begin, Plan(q.model, true));
    AfterConcat(Begin, plan, middle);
    AfterConcat(Begin, plan + middle, ending);
    AfterConcat(Begin, plan + middle + ending, closing);
    AfterPlans(kinds, r.attempts);
    var p := After(Planning(0), middle);
    AfterConcat(p, ending, [Emit(DoneOf(r))]);
    ClosingStreamsDone(After(p, ending), r, key, record);
    AfterAnalysisEnding(p, last, r);
  }

  // ---- Either flow ----------------------------------------------------------------------------

  /**
   * What an uncached run streams is a sentence of the grammar. Without analysis: `plan`, at most three failed
   * rounds, then rows with their insight and perhaps a chart, or an insight alone, or nothing, and one final
   * `done`. With analysis: `plan`, at most three failed plans, at most one insight, and one final `done`. The
   * status of `done` says which it was, and an error is carried exactly by an `error`.
   */
  lemma RunIsInGrammar(guard: string -> GuardResult, indonesian: bool, mask: string -> string, run: Run)
    requires Genuine(guard, indonesian, run) && run.q.stream
    ensures 1 <= run.answer.attempts <= MAX_ATTEMPTS
    ensures After(Begin, RunLog(guard, mask, run)) == Final(run.answer.status)
    ensures run.answer.error.Some? <==> run.answer.status == Error
  {
    hide After, SqlOutcome, AnalysisOutcome, SqlLog, AnalysisLog, Closing, Kinds, AnalysisKinds, KeyText, RecordOf;
    FlowIgnoresLatency(guard, run.q, indonesian, run.w, run.answer, run.answer.latency);
    var key, record := KeyText(KeyOf(run.q, run.version)), RecordOf(run.q, mask, run.answer);
    if run.q.analysis {
      AnalysisRunIsInGrammar(
        guard, run.q, indonesian, run.w.analysisRounds, run.w.final, run.answer, key, record);
    } else {
      SqlRunIsInGrammar(guard, run.q, indonesian, run.w.rounds, run.w.explanation, run.answer, key, record);
    }
  }
}
