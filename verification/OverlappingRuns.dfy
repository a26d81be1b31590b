/** Questions that overlap on one kit, as the HTTP API serves them: one memory, one cache, any interleaving. */
module OverlappingRuns {
  import opened Text
  import opened QueryCaching
  import opened Answers
  import opened Pipeline
  import opened CacheTransparency

  /** A question under way, with the version its key was made from; `missed` once the cache had nothing for it. */
  datatype Pending = Pending(q: Question, version: string, missed: bool)

  /** A question answered from the cache, when `seen` runs had ended. */
  datatype Hit = Hit(q: Question, version: string, at: int, payload: Payload, seen: nat)

  datatype Shared = Shared(version: string, pending: map<nat, Pending>, runs: seq<Run>, hits: seq<Hit>)

  /** What happens without interruption; between any two of these, other questions may take their turn. */
  datatype Action =
    | Reread(read: string)                         // a run, or the refresh endpoint, reads the schema anew
    | Begin(id: nat, q: Question)                  // a question makes its key
    | LookUp(id: nat, now: int)                    // and looks it up
    | End(id: nat, world: World, answer: AskResult) // a run comes to its end and stores its answer

  /** The kit's settings, as far as they matter here. */
  datatype Settings = Settings(guard: string -> GuardResult, indonesian: bool, ttl: int)

  function RunOf(p: Pending, w: World, answer: AskResult): Run { Run(p.q, w, p.version, answer) }

  /** An ended run has done what some flow does with its question, whatever the others did meanwhile. */
  ghost predicate Enabled(k: Settings, s: Shared, a: Action) {
    match a
    case Reread(_) => true
    case Begin(id, _) => id !in s.pending
    case LookUp(id, _) => id in s.pending && !s.pending[id].missed
    case End(id, w, answer) =>
      id in s.pending && s.pending[id].missed && Genuine(k.guard, k.indonesian, RunOf(s.pending[id], w, answer))
  }

  ghost function Apply(k: Settings, s: Shared, a: Action): Shared
    requires Enabled(k, s, a)
  {
    match a
    case Reread(read) => s.(version := read)
    case Begin(id, q) => s.(pending := s.pending[id := Pending(q, s.version, false)])
    case LookUp(id, now) =>
      var p := s.pending[id];
      var found := Lookup(Stores(s.runs), k.ttl, KeyText(KeyOf(p.q, p.version)), now);
      if found.Some? then
        s.(pending := s.pending - {id}, hits := s.hits + [Hit(p.q, p.version, now, found.value, |s.runs|)])
      else s.(pending := s.pending[id := p.(missed := true)])
    case End(id, w, answer) =>
      s.(pending := s.pending - {id}, runs := s.runs + [RunOf(s.pending[id], w, answer)])
  }

  ghost function Exec(k: Settings, s: Shared, actions: seq<Action>): Option<Shared> {
    if actions == [] then Some(s)
    else
      var before := Exec(k, s, actions[..|actions| - 1]);
      var a := actions[|actions| - 1];
      if before.Some? && Enabled(k, before.value, a) then Some(Apply(k, before.value, a)) else None
  }

  /** Every hit is what the runs that had ended by then have left under its key. */
  ghost predicate Recalled(k: Settings, runs: seq<Run>, h: Hit) {
    && h.seen <= |runs|
    && Lookup(Stores(runs[..h.seen]), k.ttl, KeyText(KeyOf(h.q, h.version)), h.at) == Some(h.payload)
  }

  ghost predicate Inv(k: Settings, s: Shared) {
    AllGenuine(k.guard, k.indonesian, s.runs) && forall h | h in s.hits :: Recalled(k, s.runs, h)
  }

  lemma RecalledStays(k: Settings, runs: seq<Run>, run: Run, h: Hit)
    requires Recalled(k, runs, h)
    ensures Recalled(k, runs + [run], h)
  {
    hide Lookup, Stores, KeyText;
    assert (runs + [run])[..h.seen] == runs[..h.seen];
  }

  lemma StepInv(k: Settings, s: Shared, a: Action)
    requires Inv(k, s) && Enabled(k, s, a)
    ensures Inv(k, Apply(k, s, a))
  {
    hide Genuine, AllGenuine, Lookup, Stores, KeyText;
    match a
    case End(id, w, answer) =>
      var run := RunOf(s.pending[id], w, answer);
      GenuineStep(k.guard, k.indonesian, s.runs, run);
      hide Recalled;
      forall h | h in s.hits ensures Recalled(k, s.runs + [run], h) { RecalledStays(k, s.runs, run, h); }
    case _ => assert s.runs[..|s.runs|] == s.runs;
  }

  lemma {:induction false} ReachableInv(k: Settings, s: Shared, actions: seq<Action>)
    requires Inv(k, s) && Exec(k, s, actions).Some?
    ensures Inv(k, Exec(k, s, actions).value)
  {
    hide Inv, Enabled, Apply;
    if actions == [] {
    } else {
      ReachableInv(k, s, actions[..|actions| - 1]);
      StepInv(k, Exec(k, s, actions[..|actions| - 1]).value, actions[|actions| - 1]);
    }
  }

  /**
   * However questions overlap, a hit has the stored fields of a run that had ended before: the last to store under
   * the key. With delimiter-free fields that run had the same role, model and question, and made its key from the
   * same schema version, even if the schema was read anew before or after it ended.
   */
  lemma OverlappingHitsHaveOrigins(k: Settings, version: string, past: seq<Run>, actions: seq<Action>, n: nat)
    returns (j: nat)
    requires AllGenuine(k.guard, k.indonesian, past)
    requires Exec(k, Shared(version, map[], past, []), actions).Some?
    requires n < |Exec(k, Shared(version, map[], past, []), actions).value.hits|
    ensures
      var s := Exec(k, Shared(version, map[], past, []), actions).value;
      var h := s.hits[n];
      && j < h.seen <= |s.runs|
      && OriginOf(k.guard, k.indonesian, s.runs[..h.seen], k.ttl, h.q, h.version, h.at, h.payload, j)
  {
    hide Genuine, AllGenuine, OriginOf, Lookup, Stores, KeyText, Enabled, Apply, Exec;
    var start := Shared(version, map[], past, []);
    ReachableInv(k, start, actions);
    var s := Exec(k, start, actions).value;
    var h := s.hits[n];
    assert h in s.hits && Recalled(k, s.runs, h);
    GenuinePrefix(k.guard, k.indonesian, s.runs, h.seen);
    j := HitHasAnOrigin(k.guard, k.indonesian, s.runs[..h.seen], k.ttl, h.q, h.version, h.at);
  }

  lemma GenuinePrefix(guard: string -> GuardResult, indonesian: bool, runs: seq<Run>, n: nat)
    requires AllGenuine(guard, indonesian, runs) && n <= |runs|
    ensures AllGenuine(guard, indonesian, runs[..n])
  {
    hide Genuine;
  }
}
