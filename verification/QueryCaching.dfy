/** The result cache: a key joined from four fields, a volatility check, and entries with a time to live. */
module QueryCaching {
  import opened Text

  // ---- The key --------------------------------------------------------------------------------

  datatype AskKey = AskKey(role: string, version: string, model: string, question: string)

  /** The text that is hashed; the hash itself is taken to be injective. */
  function KeyText(k: AskKey): string {
    k.role + "|" + k.version + "|" + k.model + "|" + k.question
  }

  /** Every field but the last is free of the delimiter. */
  predicate Canonical(k: AskKey) {
    '|' !in k.role && '|' !in k.version && '|' !in k.model
  }

  lemma SplitAtDelimiter(a: string, rest: string, b: string, tail: string)
    requires '|' !in a && '|' !in b && a + "|" + rest == b + "|" + tail
    ensures a == b && rest == tail
  {
    var s := a + "|" + rest;
    assert s[|a|] == '|' && s[|b|] == '|';
    assert forall i | 0 <= i < |a| :: s[i] in a;
    assert forall i | 0 <= i < |b| :: s[i] in b;
    assert |a| == |b|;
    assert s[..|a|] == a && s[..|b|] == b;
    assert s[|a| + 1..] == rest && s[|b| + 1..] == tail;
  }

  lemma KeyTextNests(k: AskKey)
    ensures KeyText(k) == k.role + "|" + (k.version + "|" + (k.model + "|" + k.question))
  {
  }

  lemma KeysAreInjective(a: AskKey, b: AskKey)
    requires Canonical(a) && Canonical(b) && KeyText(a) == KeyText(b)
    ensures a == b
  {
    KeyTextNests(a);
    KeyTextNests(b);
    SplitAtDelimiter(a.role, a.version + "|" + (a.model + "|" + a.question),
                     b.role, b.version + "|" + (b.model + "|" + b.question));
    SplitAtDelimiter(a.version, a.model + "|" + a.question, b.version, b.model + "|" + b.question);
    SplitAtDelimiter(a.model, a.question, b.model, b.question);
  }

  /** Splits off the part before the first delimiter. */
  function Head(s: string): (r: string)
    requires '|' in s
    ensures '|' !in r && |r| < |s| && s == r + "|" + s[|r| + 1..]
  {
    s[..IndexOf(s, 0, '|')]
  }

  function Rest(s: string): string
    requires '|' in s
  {
    s[|Head(s)| + 1..]
  }

  /** Two delimiters deep, a delimiter is still left: the head takes only the first. */
  lemma RestKeepsDelimiters(a: string, b: string)
    requires '|' in b
    ensures '|' in a + "|" + b && '|' in Rest(a + "|" + b)
  {
    var s := a + "|" + b;
    assert s[|a|] == '|';
    var i :| 0 <= i < |b| && b[i] == '|';
    assert s[|a| + 1 + i] == '|' && |Head(s)| <= |a|;
    assert Rest(s)[|a| + i - |Head(s)|] == '|';
  }

  /** A key text can be read as exactly one canonical key; a key with a stray delimiter shares another's text. */
  lemma CollidesUnlessCanonical(k: AskKey)
    ensures (exists c :: Canonical(c) && c != k && KeyText(c) == KeyText(k)) <==> !Canonical(k)
  {
    if Canonical(k) {
      forall c | Canonical(c) && KeyText(c) == KeyText(k) ensures c == k { KeysAreInjective(c, k); }
    } else {
      var c := CanonicalReading(k);
      assert Canonical(c) && c != k && KeyText(c) == KeyText(k);
    }
  }

  lemma CanonicalReading(k: AskKey) returns (c: AskKey)
    ensures Canonical(c) && KeyText(c) == KeyText(k)
  {
    KeyTextNests(k);
    var s := KeyText(k);
    var tail := k.model + "|" + k.question;
    assert tail[|k.model|] == '|';
    var middle := k.version + "|" + tail;
    RestKeepsDelimiters(k.version, tail);
    RestKeepsDelimiters(k.role, middle);
    assert '|' in Rest(Rest(s)) by { DelimitersLeft(k.role, k.version, tail); }
    c := AskKey(Head(s), Head(Rest(s)), Head(Rest(Rest(s))), Rest(Rest(Rest(s))));
    KeyTextNests(c);
  }

  lemma DelimitersLeft(a: string, b: string, tail: string)
    requires '|' in tail
    ensures '|' in a + "|" + (b + "|" + tail)
    ensures '|' in Rest(a + "|" + (b + "|" + tail))
    ensures '|' in Rest(Rest(a + "|" + (b + "|" + tail)))
  {
    var s := a + "|" + (b + "|" + tail);
    RestKeepsDelimiters(b, tail);
    RestKeepsDelimiters(a, b + "|" + tail);
    var cut := |Head(s)|;
    assert cut <= |a| by { assert s[|a|] == '|'; }
    if cut == |a| {
      assert Rest(s) == b + "|" + tail;
    } else {
      var x := a[cut + 1..];
      assert Rest(s) == x + "|" + (b + "|" + tail);
      RestKeepsDelimiters(x, b + "|" + tail);
    }
  }

  // ---- Volatility -----------------------------------------------------------------------------

  const VOLATILE: seq<string> :=
    ["now", "current_timestamp", "current_date", "current_time", "random", "uuid", "newid", "getdate", "rand"]

  /** The name of a volatile function, at the start of a word, then an opening parenthesis. */
  predicate CallAt(lowered: string, name: string, i: int) {
    && MatchesAt(lowered, name, i)
    && (i == 0 || !IsWord(lowered[i - 1]))
    && var open := SpacesEnd(lowered, i + |name|);
       open < |lowered| && lowered[open] == '('
  }

  predicate IsCacheable(sql: string) {
    forall k, i | 0 <= k < |VOLATILE| && 0 <= i <= |Lower(sql)| - |VOLATILE[k]| :: !CallAt(Lower(sql), VOLATILE[k], i)
  }

  // ---- The store ------------------------------------------------------------------------------

  datatype Status = Ok | NoData | Error

  /** The fields of an answer that are stored. */
  datatype Payload = Payload(
    sql: string, reasoning: string, insight: string, chart: Option<string>, rowCount: nat,
    rows: Option<seq<string>>, tokens: nat, model: string, status: Status, attempts: nat)

  datatype Entry = Entry(payload: Payload, expires: int)

  datatype Stored = Stored(key: string, payload: Payload, at: int)

  /** What a lookup is to return: the latest value stored under the key, unless it has expired. */
  function Lookup(history: seq<Stored>, ttl: int, key: string, now: int): Option<Payload> {
    if history == [] then None
    else
      var last := history[|history| - 1];
      if last.key != key then Lookup(history[..|history| - 1], ttl, key, now)
      else if last.at + ttl < now then None
      else Some(last.payload)
  }

  lemma LookupAfterStore(history: seq<Stored>, s: Stored, ttl: int, now: int)
    ensures Lookup(history + [s], ttl, s.key, now) == if s.at + ttl < now then None else Some(s.payload)
  {
  }

  /** A hit is the most recent store under that very key, made at most `ttl` ago. */
  lemma {:induction false} HitHasASource(history: seq<Stored>, ttl: int, key: string, now: int) returns (i: nat)
    requires Lookup(history, ttl, key, now).Some?
    ensures i < |history| && history[i].key == key && now <= history[i].at + ttl
    ensures Lookup(history, ttl, key, now) == Some(history[i].payload)
    ensures forall j | i < j < |history| :: history[j].key != key
  {
    var n := |history| - 1;
    if history[n].key == key {
      i := n;
    } else {
      i := HitHasASource(history[..n], ttl, key, now);
    }
  }

  function Entries(history: seq<Stored>, ttl: int): map<string, Entry> {
    if history == [] then map[]
    else
      var last := history[|history| - 1];
      Entries(history[..|history| - 1], ttl)[last.key := Entry(last.payload, last.at + ttl)]
  }

  lemma {:induction false} EntriesAnswerLookups(history: seq<Stored>, ttl: int, key: string, now: int)
    ensures
      var entries := Entries(history, ttl);
      Lookup(history, ttl, key, now)
      == if key in entries && entries[key].expires >= now then Some(entries[key].payload) else None
  {
    if history == [] {
    } else {
      EntriesAnswerLookups(history[..|history| - 1], ttl, key, now);
    }
  }

  class QueryCache {
    const ttl: int
    var store: map<string, Entry>
    ghost var history: seq<Stored>

    ghost predicate Valid()
      reads this
    {
      store == Entries(history, ttl)
    }

    constructor (ttlSeconds: int)
      ensures Valid() && ttl == ttlSeconds && history == []
    {
      ttl := ttlSeconds;
      store := map[];
      history := [];
    }

    method Get(key: string, now: int) returns (r: Option<Payload>)
      requires Valid()
      ensures r == Lookup(history, ttl, key, now)
    {
      EntriesAnswerLookups(history, ttl, key, now);
      if key !in store {
        return None;
      }
      var entry := store[key];
      if entry.expires < now {
        return None;
      }
      return Some(entry.payload);
    }

    /** Stores or replaces the entry; a payload that cannot be encoded is dropped silently. */
    method Set(key: string, payload: Payload, now: int, encodes: bool)
      requires Valid()
      modifies this
      ensures Valid()
      ensures history == if encodes then old(history) + [Stored(key, payload, now)] else old(history)
    {
      if !encodes {
        return;
      }
      store := store[key := Entry(payload, now + ttl)];
      assert (history + [Stored(key, payload, now)])[..|history|] == history;
      history := history + [Stored(key, payload, now)];
    }
  }
}
