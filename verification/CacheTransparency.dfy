/** Cached answers and restarted kits: what one run leaves behind for a later one. */
module CacheTransparency {
  import opened Text
  import opened Schema
  import SchemaCache
  import opened SchemaCacheProofs
  import opened QueryCaching
  import opened Answers
  import opened Pipeline

  /** Every store was made by some run, and what came before it by the runs before that. */
  lemma {:induction false} StoreHasARun(runs: seq<Run>, i: nat) returns (j: nat)
    requires i < |Stores(runs)|
    ensures j < |runs| && IsStored(runs[j]) && Stores(runs)[i] == StoreOf(runs[j])
    ensures Stores(runs[..j]) == Stores(runs)[..i]
  {
    var n := |runs| - 1;
    var init := Stores(runs[..n]);
    if i < |init| {
      j := StoreHasARun(runs[..n], i);
      assert runs[..n][..j] == runs[..j] && Stores(runs)[..i] == init[..i];
    } else {
      j := n;
      assert Stores(runs)[..i] == init;
    }
  }

  lemma {:induction false} RunHasAStore(runs: seq<Run>, j: nat)
    requires j < |runs| && IsStored(runs[j])
    ensures |Stores(runs[..j])| < |Stores(runs)| && Stores(runs)[|Stores(runs[..j])|] == StoreOf(runs[j])
  {
    var n := |runs| - 1;
    if j == n {
    } else {
      RunHasAStore(runs[..n], j);
      assert runs[..n][..j] == runs[..j];
    }
  }

  lemma {:induction false} StoresGrow(runs: seq<Run>, j: nat, k: nat)
    requires j <= k <= |runs|
    ensures |Stores(runs[..j])| <= |Stores(runs[..k])|
  {
    if j == k {
    } else {
      StoresGrow(runs, j, k - 1);
      StoresStep(runs[..k - 1], runs[k - 1]);
      assert runs[..k] == runs[..k - 1] + [runs[k - 1]];
    }
  }

  lemma LaterRunStoresLater(runs: seq<Run>, j: nat, k: nat)
    requires j < k < |runs| && IsStored(runs[j]) && IsStored(runs[k])
    ensures
      var i := |Stores(runs[..k])|;
      |Stores(runs[..j])| < i < |Stores(runs)| && Stores(runs)[i] == StoreOf(runs[k])
  {
    hide IsStored, StoreOf;
    RunHasAStore(runs, k);
    StoresGrow(runs, j + 1, k);
    StoresStep(runs[..j], runs[j]);
    assert runs[..j + 1] == runs[..j] + [runs[j]];
  }

  /**
   * The run behind a hit: a genuine uncached run, the last whose answer was stored under the key. It finished with
   * `ok` or `no_data` and a query that is empty or not volatile, at most the time to live ago. With delimiter-free
   * fields it had the same role, model and question, and started from the same schema version.
   */
  ghost predicate OriginOf(
      guard: string -> GuardResult, indonesian: bool, runs: seq<Run>, ttl: int, q: Question, version: string, now: int,
      payload: Payload, j: nat)
  {
    var key := KeyOf(q, version);
    && j < |runs|
    && var run := runs[j];
       && Genuine(guard, indonesian, run) && !run.answer.cached
       && payload == PayloadOf(run.answer) && IsStored(run)
       && now <= run.w.storedAt + ttl
       && KeyText(KeyOf(run.q, run.version)) == KeyText(key)
       && (forall k | j < k < |runs| && IsStored(runs[k]) ::
             KeyText(KeyOf(runs[k].q, runs[k].version)) != KeyText(key))
       && (Canonical(KeyOf(run.q, run.version)) && Canonical(key) ==>
             run.q.role == q.role && run.q.model == q.model && run.q.text == q.text && run.version == version)
  }

  lemma HitHasAnOrigin(
      guard: string -> GuardResult, indonesian: bool, runs: seq<Run>, ttl: int, q: Question, version: string, now: int)
    returns (j: nat)
    requires AllGenuine(guard, indonesian, runs)
    requires Lookup(Stores(runs), ttl, KeyText(KeyOf(q, version)), now).Some?
    ensures j < |runs|
    ensures OriginOf(guard, indonesian, runs, ttl, q, version, now,
                     Lookup(Stores(runs), ttl, KeyText(KeyOf(q, version)), now).value, j)
  {
    hide Lookup, KeyText, FlowOutcome, Stores, IsStored;
    var key := KeyOf(q, version);
    var i := HitHasASource(Stores(runs), ttl, KeyText(key), now);
    j := StoreHasARun(runs, i);
    var run := runs[j];
    FlowIgnoresLatency(guard, run.q, indonesian, run.w, run.answer, run.answer.latency);
    forall k | j < k < |runs| && IsStored(runs[k])
      ensures KeyText(KeyOf(runs[k].q, runs[k].version)) != KeyText(key)
    {
      LaterRunStoresLater(runs, j, k);
    }
    if Canonical(KeyOf(run.q, run.version)) && Canonical(key) {
      KeysAreInjective(KeyOf(run.q, run.version), key);
    }
  }

  /** A hit has the stored fields of the answer of such a run, this kit's or that of an earlier one. */
  lemma CachedAnswerHasAnOrigin(kit: InsightKit, q: Question, version: string, now: int, latency: nat) returns (j: nat)
    requires kit.Valid()
    requires Lookup(kit.cache.history, kit.cache.ttl, KeyText(KeyOf(q, version)), now).Some?
    ensures
      var payload := Lookup(kit.cache.history, kit.cache.ttl, KeyText(KeyOf(q, version)), now).value;
      var answer := FromPayload(q.text, payload, latency);
      && OriginOf(kit.guard, kit.indonesian, kit.runs, kit.cache.ttl, q, version, now, payload, j)
      && answer.cached && PayloadOf(answer) == PayloadOf(kit.runs[j].answer) && Storable(answer.status, answer.sql)
  {
    hide Lookup, KeyText, Genuine, AllGenuine, Stores, IsCacheable;
    j := HitHasAnOrigin(kit.guard, kit.indonesian, kit.runs, kit.cache.ttl, q, version, now);
  }

  /**
   * A client that asks twice. If the first answer was stored, the second question comes in time and the schema
   * version is then what it was at the start, the second answer has the fields of the first, and no run is made
   * for it.
   */
  method AskAgain(kit: InsightKit, q: Question, w: World, again: World)
    returns (first: AskResult, second: AskResult, ghost start: string, ghost between: string)
    requires kit.Valid() && Complete(w) && Complete(again)
    modifies kit, kit.db, kit.cache
    ensures kit.Valid() && start == Opened(kit.relational, kit.dbKey, old(kit.Remembers()), w.read, w.now).version
    ensures !first.cached && Storable(first.status, first.sql) && w.encodes
            && between == start && again.lookedUpAt <= w.storedAt + kit.cache.ttl
            ==> second == FromPayload(q.text, PayloadOf(first), again.latency)
                && kit.runs == old(kit.runs) + [Run(q, w, start, first)]
  {
    hide FlowOutcome, KeyText, IsCacheable, FlowLog, FlowMemory, RunLog, RecordOf, Stores, Lookup, AllGenuine, Opened;
    ghost var m := Opened(kit.relational, kit.dbKey, kit.Remembers(), w.read, w.now);
    start := m.version;
    first := kit.Ask(q, w);
    between := kit.version;
    if !first.cached {
      ghost var run := Run(q, w, start, first);
      FlowMemoryInStep(kit.guard, kit.relational, q, w, first, m);
      StoresStep(old(kit.runs), run);
      LookupAfterStore(Stores(old(kit.runs)), StoreOf(run), kit.cache.ttl, again.lookedUpAt);
      OpenedAlready(kit.relational, kit.dbKey, kit.Remembers(), again.read, again.now);
    }
    second := kit.Ask(q, again);
  }

  lemma OpenedAlready(relational: bool, dbKey: string, m: Memory, read: SchemaMetadata, now: string)
    requires m.schema.Some?
    ensures Opened(relational, dbKey, m, read, now) == m
  {
  }

  /** A run leaves the memory alone until a table is missing; the schema read last is then the one that stays. */
  lemma {:induction false} LastReadingStays(
      relational: bool, m: Memory, kinds: seq<Kind>, rounds: seq<Round>, i: nat)
    requires i <= |kinds| <= |rounds| && forall j | i < j < |kinds| :: !kinds[j].Missing?
    ensures i < |kinds| && kinds[i].Missing? ==>
              MemoryAfter(relational, m, kinds, rounds)
              == Refreshed(relational, MemoryAfter(relational, m, kinds[..i], rounds), rounds[i].reread)
    ensures (forall j | 0 <= j < |kinds| :: !kinds[j].Missing?) ==> MemoryAfter(relational, m, kinds, rounds) == m
  {
    if kinds == [] {
    } else {
      var n := |kinds| - 1;
      LastReadingStays(relational, m, kinds[..n], rounds, if i < n then i else n);
      if i < n {
        assert kinds[..n][..i] == kinds[..i];
      }
    }
  }

  // ---- Starting afresh on the same store ------------------------------------------------------

  /** A reading as introspection makes it: of this database, with no name twice, and with some column. */
  predicate Readable(dbKey: string, read: SchemaMetadata) {
    read.dbKey == dbKey && Unique(read.tables) && NormalForm(read.tables) != []
  }

  predicate ReadableWorld(dbKey: string, w: World) {
    Readable(dbKey, w.read) && forall round | round in w.rounds :: Readable(dbKey, round.reread)
  }

  /** The store holds a schema of the version in memory. */
  ghost predicate Restartable(dbKey: string, m: Memory) {
    && (m.rows != [] ==> m.extractedAt.Some?)
    && (m.schema.Some? ==>
          m.extractedAt == Some(m.version) && SchemaCache.Loaded(m.rows, m.version, dbKey).Some?)
  }

  /** The memory of a kit that is started on what another one has left. */
  function Restarted(m: Memory): Memory { m.(schema := None, version := "0") }

  /** What it finds is the schema read last, in its normal form and under the same version, without reading anew. */
  lemma RestartFindsTheSchema(dbKey: string, m: Memory, read: SchemaMetadata, other: SchemaMetadata, now: string)
    requires Readable(dbKey, read)
    ensures
      var left := Refreshed(true, m, read);
      var found := Opened(true, dbKey, Restarted(left), other, now);
      && found.schema == Some(SchemaMetadata(dbKey, "", NormalForm(read.tables), read.extractedAt))
      && found.version == left.version && found.rows == left.rows
      && OpeningLog(true, dbKey, Restarted(left), now) == []
      && Restartable(dbKey, left)
  {
    hide Unique, NormalForm, SchemaCache.Loaded, SchemaCache.SavedRows;
    LoadAfterSave(m.rows, read, read.extractedAt);
    SavedRowsExist(dbKey, m.rows, read);
  }

  lemma SavedRowsExist(dbKey: string, rows: seq<SchemaCache.Row>, read: SchemaMetadata)
    requires Readable(dbKey, read)
    ensures SchemaCache.SavedRows(rows, read) != []
  {
    LoadAfterSave(rows, read, read.extractedAt);
    assert SchemaCache.Of([], dbKey) == [];
  }

  /** Opening and running keep the store abreast of the memory. */
  lemma OpenedIsRestartable(dbKey: string, m: Memory, read: SchemaMetadata, now: string)
    requires Restartable(dbKey, m) && Readable(dbKey, read)
    ensures Restartable(dbKey, Opened(true, dbKey, m, read, now))
  {
    hide Readable, SchemaCache.SavedRows;
    if m.schema.None? {
      if StoredSchema(true, dbKey, m, now).Some? {
        StoredRowsExist(dbKey, m, now);
      } else {
        RestartFindsTheSchema(dbKey, m, read, read, now);
      }
    }
  }

  lemma StoredRowsExist(dbKey: string, m: Memory, now: string)
    requires StoredSchema(true, dbKey, m, now).Some?
    ensures m.rows != []
  {
    assert SchemaCache.Of([], dbKey) == [];
  }

  lemma {:induction false} RoundsKeepRestartable(dbKey: string, m: Memory, kinds: seq<Kind>, rounds: seq<Round>)
    requires |kinds| <= |rounds| && Restartable(dbKey, m)
    requires forall round | round in rounds :: Readable(dbKey, round.reread)
    ensures Restartable(dbKey, MemoryAfter(true, m, kinds, rounds))
  {
    hide Readable, Restartable, Refreshed;
    if kinds == [] {
    } else {
      var n := |kinds| - 1;
      RoundsKeepRestartable(dbKey, m, kinds[..n], rounds);
      assert rounds[n] in rounds;
      RestartFindsTheSchema(
        dbKey, MemoryAfter(true, m, kinds[..n], rounds), rounds[n].reread, rounds[n].reread, "");
    }
  }

  /** A restart finds the version that the memory had. */
  lemma RestartKeepsTheVersion(dbKey: string, m: Memory, other: SchemaMetadata, now: string)
    requires Restartable(dbKey, m) && m.schema.Some?
    ensures Opened(true, dbKey, Restarted(m), other, now).version == m.version
    ensures OpeningLog(true, dbKey, Restarted(m), now) == []
  {
  }

  lemma FlowKeepsRestartable(
      guard: string -> GuardResult, dbKey: string, q: Question, w: World, r: AskResult, m: Memory)
    requires Complete(w) && 1 <= r.attempts <= MAX_ATTEMPTS && ReadableWorld(dbKey, w) && Restartable(dbKey, m)
    ensures Restartable(dbKey, FlowMemory(guard, true, q, w, r, m))
  {
    hide Readable, Restartable, MemoryAfter;
    if !q.analysis {
      RoundsKeepRestartable(dbKey, m, Kinds(guard, w.rounds)[..r.attempts], w.rounds);
    }
  }

  /**
   * A client that asks, starts a second kit on the same store, and asks there. What the first kit cached is found:
   * the second answer has the fields of the first, no run is made for it, and nothing is read anew.
   */
  method AskAfterRestart(kit: InsightKit, q: Question, w: World, again: World)
    returns (first: AskResult, restarted: InsightKit, second: AskResult, ghost start: string, ghost between: string)
    requires kit.Valid() && Complete(w) && Complete(again)
    requires kit.relational && Restartable(kit.dbKey, kit.Remembers()) && ReadableWorld(kit.dbKey, w)
    modifies kit, kit.db, kit.cache
    ensures start == Opened(true, kit.dbKey, old(kit.Remembers()), w.read, w.now).version
    ensures restarted.Valid() && fresh(restarted) && restarted.db == kit.db && restarted.cache == kit.cache
    ensures !first.cached && Storable(first.status, first.sql) && w.encodes
            && between == start && again.lookedUpAt <= w.storedAt + kit.cache.ttl
            ==> second == FromPayload(q.text, PayloadOf(first), again.latency)
                && restarted.runs == kit.runs == old(kit.runs) + [Run(q, w, start, first)]
                && restarted.version == kit.version == start
                && restarted.log == Say(q.stream, Cached(second.insight))
  {
    hide FlowOutcome, KeyText, IsCacheable, FlowLog, FlowMemory, RunLog, RecordOf, Stores, Lookup, AllGenuine, Opened;
    hide Restartable, OpeningLog, Readable, InStep;
    ghost var m := Opened(true, kit.dbKey, kit.Remembers(), w.read, w.now);
    start := m.version;
    OpenedIsRestartable(kit.dbKey, kit.Remembers(), w.read, w.now);
    first := kit.Ask(q, w);
    between := kit.version;
    ghost var left := kit.Remembers();
    if !first.cached {
      FlowMemoryInStep(kit.guard, true, q, w, first, m);
      FlowKeepsRestartable(kit.guard, kit.dbKey, q, w, first, m);
      StoresStep(old(kit.runs), Run(q, w, start, first));
      LookupAfterStore(Stores(old(kit.runs)), StoreOf(Run(q, w, start, first)), kit.cache.ttl, again.lookedUpAt);
      RestartKeepsTheVersion(kit.dbKey, left, again.read, again.now);
    }
    restarted := new InsightKit(
      kit.guard, kit.mask, kit.relational, kit.indonesian, kit.dbKey, kit.db, kit.cache, kit.runs);
    assert restarted.Remembers() == Restarted(left);
    second := restarted.Ask(q, again);
  }
}
