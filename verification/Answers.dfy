/** What one question produces: its result, the events it streams and every other effect it has. */
module Answers {
  import opened Text
  import opened QueryCaching

  datatype AskResult = AskResult(
    question: string, sql: string, reasoning: string, insight: string, chart: Option<string>, rowCount: nat,
    latency: nat, tokens: nat, model: string, status: Status, error: Option<string>, cached: bool,
    attempts: nat, rows: Option<seq<string>>)

  function PayloadOf(r: AskResult): Payload {
    Payload(r.sql, r.reasoning, r.insight, r.chart, r.rowCount, r.rows, r.tokens, r.model, r.status, r.attempts)
  }

  /** An answer rebuilt from the cache. */
  function FromPayload(question: string, p: Payload, latency: nat): AskResult {
    AskResult(question, p.sql, p.reasoning, p.insight, p.chart, p.rowCount, latency, p.tokens, p.model, p.status,
              None, true, p.attempts, p.rows)
  }

  /** Only these answers are stored. */
  predicate Storable(status: Status, sql: string) {
    status in {Ok, NoData} && (sql == "" || IsCacheable(sql))
  }

  datatype Event =
    | Cached(insight: string)
    | Plan(model: string, analysis: bool)
    | Retry(attempt: nat, reason: string)
    | SqlReady(sql: string)
    | SchemaRefresh(reason: string)
    | ResultRows(columns: seq<string>, rows: seq<string>, rowCount: nat)
    | Insight(text: string)
    | Chart(figure: string)
    | Done(status: Status, latency: nat, tokens: nat, cached: bool, rowCount: nat, error: Option<string>)

  /** The results an analysis is grounded in: each query of the plan with its rows. */
  datatype QueryFrame = QueryFrame(query: string, columns: seq<string>, rows: seq<string>)

  datatype AuditRecord = AuditRecord(
    user: string, role: string, question: string, sql: Option<string>, summary: Option<string>,
    latency: nat, tokens: nat, model: string, status: Status, error: Option<string>)

  datatype Effect =
    | Emit(event: Event)
    | Consult                          // ask the model for a plan
    | Execute(sql: string)             // hand a query to the backend
    | Introspect                       // read the schema from the database
    | Analyze(frames: seq<QueryFrame>) // ask the model for the final analysis
    | Audit(record: AuditRecord)       // attempt to write the audit record; a failure is swallowed
    | Store(key: string, payload: Payload)

  function Emitted(log: seq<Effect>): seq<Event> {
    if log == [] then []
    else
      var init := Emitted(log[..|log| - 1]);
      if log[|log| - 1].Emit? then init + [log[|log| - 1].event] else init
  }

  function Executed(log: seq<Effect>): seq<string> {
    if log == [] then []
    else
      var init := Executed(log[..|log| - 1]);
      if log[|log| - 1].Execute? then init + [log[|log| - 1].sql] else init
  }

  lemma {:induction false} ProjectionsOfConcat(a: seq<Effect>, b: seq<Effect>)
    ensures Emitted(a + b) == Emitted(a) + Emitted(b)
    ensures Executed(a + b) == Executed(a) + Executed(b)
  {
    if b == [] {
      assert a + b == a;
    } else {
      ProjectionsOfConcat(a, b[..|b| - 1]);
      assert (a + b)[..|a + b| - 1] == a + b[..|b| - 1];
    }
  }

  function DoneOf(r: AskResult): Event {
    Done(r.status, r.latency, r.tokens, r.cached, r.rowCount, r.error)
  }

  /** Effects of the body of a run: no record, nothing stored, not done yet. */
  predicate Working(e: Effect) {
    !e.Audit? && !e.Store? && (e.Emit? ==> !e.event.Done? && !e.event.Cached?)
  }

  /** The shared end of an uncached run: the audit attempt, the store if any, and only then `done`. */
  function Closing(r: AskResult, key: string, record: AuditRecord, stream: bool): seq<Effect> {
    [Audit(record)]
    + (if Storable(r.status, r.sql) then [Store(key, PayloadOf(r))] else [])
    + (if stream then [Emit(DoneOf(r))] else [])
  }

  ghost predicate UncachedLog(log: seq<Effect>, body: seq<Effect>, r: AskResult, key: string, record: AuditRecord) {
    log == body + Closing(r, key, record, true) && forall e | e in body :: Working(e)
  }

  /** Before anything is streamed, the schema may be read. */
  predicate Opening(log: seq<Effect>) { log == [] || log == [Introspect] }

  /** A streamed run is either a cache hit, or working effects followed by the closing ones. */
  ghost predicate AskShape(log: seq<Effect>) {
    || (exists opening, insight :: Opening(opening) && log == opening + [Emit(Cached(insight))])
    || (exists body, r, key, record :: UncachedLog(log, body, r, key, record))
  }
}
