/** The guard for MongoDB aggregation pipelines, over parsed JSON trees of any depth. */
module MongoGuard {
  import opened Text

  datatype Json =
    | Null
    | Bool(b: bool)
    | Number(n: int)
    | Str(s: string)
    | List(items: seq<Json>)
    | Object(fields: seq<Field>)

  datatype Field = Field(key: string, value: Json)

  datatype MongoError =
    | InvalidJson
    | BadShape
    | InvalidStage
    | ForbiddenStage(key: string)
    | ForbiddenOperator(key: string)

  datatype MongoVerdict = Accepted(payload: Json) | Rejected(error: MongoError)

  const WRITE_STAGES: set<string> := {"$out", "$merge", "$delete", "$sql"}
  const FORBIDDEN_OPERATORS: set<string> := {"$where", "$function", "$accumulator"}

  predicate Banned(key: string) { key in WRITE_STAGES || key in FORBIDDEN_OPERATORS }

  /** The first banned key in a depth-first walk. */
  function FindBanned(value: Json): Option<string>
    decreases value, 1
  {
    match value
    case Object(fields) => FindInFields(fields)
    case List(items) => FindInItems(items)
    case _ => None
  }

  function FindInFields(fields: seq<Field>): Option<string>
    decreases fields, 0
  {
    if fields == [] then None
    else if Banned(fields[0].key) then Some(fields[0].key)
    else
      var inside := FindBanned(fields[0].value);
      if inside.Some? then inside else FindInFields(fields[1..])
  }

  function FindInItems(items: seq<Json>): Option<string>
    decreases items, 0
  {
    if items == [] then None
    else
      var inside := FindBanned(items[0]);
      if inside.Some? then inside else FindInItems(items[1..])
  }

  // ---- An independent reading: what stands at the end of a path of positions ------------------

  function Children(value: Json): seq<Json> {
    match value
    case Object(fields) => seq(|fields|, i requires 0 <= i < |fields| => fields[i].value)
    case List(items) => items
    case _ => []
  }

  function At(value: Json, path: seq<nat>): Option<Json>
    decreases |path|
  {
    if path == [] then Some(value)
    else if path[0] >= |Children(value)| then None
    else At(Children(value)[path[0]], path[1..])
  }

  predicate NamesBanned(value: Json) {
    value.Object? && exists i :: 0 <= i < |value.fields| && Banned(value.fields[i].key)
  }

  /** Some object, at whatever depth, has a banned key. */
  ghost predicate BannedSomewhere(value: Json) {
    exists path: seq<nat> :: At(value, path).Some? && NamesBanned(At(value, path).value)
  }

  lemma BannedHereOrBelow(value: Json)
    ensures BannedSomewhere(value)
            <==> NamesBanned(value) || exists k :: 0 <= k < |Children(value)| && BannedSomewhere(Children(value)[k])
  {
    if path: seq<nat> :| At(value, path).Some? && NamesBanned(At(value, path).value) {
      if path != [] {
        assert At(Children(value)[path[0]], path[1..]).Some?;
      }
    }
    if NamesBanned(value) {
      assert At(value, []) == Some(value);
    }
    if k :| 0 <= k < |Children(value)| && BannedSomewhere(Children(value)[k]) {
      var child := Children(value)[k];
      var path: seq<nat> :| At(child, path).Some? && NamesBanned(At(child, path).value);
      assert ([k] + path)[1..] == path;
      assert At(value, [k] + path) == At(child, path);
    }
  }

  /** The walk reports a key exactly when a banned one occurs at some depth. */
  lemma {:induction false} FindBannedIsExact(value: Json)
    ensures FindBanned(value).Some? <==> BannedSomewhere(value)
    decreases value, 1
  {
    BannedHereOrBelow(value);
    match value
    case Object(fields) =>
      FieldsExact(fields);
      assert forall i | 0 <= i < |fields| :: Children(value)[i] == fields[i].value;
    case List(items) =>
      ItemsExact(items);
      assert Children(value) == items;
    case _ =>
  }

  lemma {:induction false} FieldsExact(fields: seq<Field>)
    ensures FindInFields(fields).Some?
            <==> exists i :: 0 <= i < |fields| && (Banned(fields[i].key) || BannedSomewhere(fields[i].value))
    decreases fields, 0
  {
    if fields == [] {
    } else {
      FindBannedIsExact(fields[0].value);
      FieldsExact(fields[1..]);
      var rest := fields[1..];
      assert forall i | 0 < i < |fields| :: fields[i] == rest[i - 1];
    }
  }

  lemma {:induction false} ItemsExact(items: seq<Json>)
    ensures FindInItems(items).Some? <==> exists i :: 0 <= i < |items| && BannedSomewhere(items[i])
    decreases items, 0
  {
    if items == [] {
    } else {
      FindBannedIsExact(items[0]);
      ItemsExact(items[1..]);
      var rest := items[1..];
      assert forall i | 0 < i < |items| :: items[i] == rest[i - 1];
    }
  }

  // ---- Payloads -------------------------------------------------------------------------------

  /** Where the key first occurs, or the number of fields. */
  function Position(fields: seq<Field>, key: string): (r: nat)
    ensures r <= |fields| && (r < |fields| ==> fields[r].key == key)
    ensures forall i | 0 <= i < r :: fields[i].key != key
  {
    if fields == [] || fields[0].key == key then 0 else 1 + Position(fields[1..], key)
  }

  predicate HasKey(value: Json, key: string) {
    value.Object? && Position(value.fields, key) < |value.fields|
  }

  function Get(value: Json, key: string): Json
    requires HasKey(value, key)
  {
    value.fields[Position(value.fields, key)].value
  }

  function With(value: Json, key: string, item: Json): Json
    requires HasKey(value, key)
  {
    Object(value.fields[Position(value.fields, key) := Field(key, item)])
  }

  /** `{"collection": <non-empty string>, "pipeline": [...]}`, with any further fields. */
  predicate WellShaped(payload: Json) {
    && HasKey(payload, "collection") && Get(payload, "collection").Str? && Get(payload, "collection").s != ""
    && HasKey(payload, "pipeline") && Get(payload, "pipeline").List?
  }

  function Stages(payload: Json): seq<Json>
    requires WellShaped(payload)
  {
    Get(payload, "pipeline").items
  }

  ghost predicate SafeStage(stage: Json) {
    stage.Object? && stage.fields != [] && !BannedSomewhere(stage)
  }

  predicate HasLimit(stages: seq<Json>) {
    exists i :: 0 <= i < |stages| && HasKey(stages[i], "$limit")
  }

  function LimitStage(limit: int): Json { Object([Field("$limit", Number(limit))]) }

  /** The pipeline with a $limit stage at its end, unless it has one already or the limit is not positive. */
  function Limited(stages: seq<Json>, limit: int): seq<Json> {
    if limit > 0 && !HasLimit(stages) then stages + [LimitStage(limit)] else stages
  }

  /** The payload that goes through, if any does. */
  ghost function Admitted(parsed: Option<Json>, limit: int): Option<Json> {
    if parsed.Some? && WellShaped(parsed.value) && forall s | s in Stages(parsed.value) :: SafeStage(s) then
      Some(With(parsed.value, "pipeline", List(Limited(Stages(parsed.value), limit))))
    else None
  }

  /** Accepts exactly the well-shaped payloads of safe stages; only a final $limit may be added. */
  method ValidateMongo(parsed: Option<Json>, limit: int) returns (r: MongoVerdict)
    ensures Admitted(parsed, limit) == if r.Accepted? then Some(r.payload) else None
    ensures r == Rejected(InvalidJson) <==> parsed.None?
    ensures r == Rejected(BadShape) <==> parsed.Some? && !WellShaped(parsed.value)
  {
    if parsed.None? {
      return Rejected(InvalidJson);
    }
    var payload := parsed.value;
    if !WellShaped(payload) {
      return Rejected(BadShape);
    }
    var pipeline := Stages(payload);
    for n := 0 to |pipeline|
      invariant forall i | 0 <= i < n :: SafeStage(pipeline[i])
    {
      var stage := pipeline[n];
      assert stage in pipeline;
      if !stage.Object? || stage.fields == [] {
        return Rejected(InvalidStage);
      }
      FindBannedIsExact(stage);
      for k := 0 to |stage.fields|
        invariant forall i | 0 <= i < k :: stage.fields[i].key !in WRITE_STAGES
      {
        if stage.fields[k].key in WRITE_STAGES {
          assert NamesBanned(stage) && At(stage, []) == Some(stage);
          return Rejected(ForbiddenStage(stage.fields[k].key));
        }
      }
      var forbidden := FindBanned(stage);
      if forbidden.Some? {
        return Rejected(ForbiddenOperator(forbidden.value));
      }
    }
    if limit > 0 && !HasLimit(pipeline) {
      pipeline := pipeline + [LimitStage(limit)];
    }
    return Accepted(With(payload, "pipeline", List(pipeline)));
  }

  lemma {:induction false} PositionAfterUpdate(fields: seq<Field>, key: string, item: Json, other: string)
    requires Position(fields, key) < |fields|
    ensures
      var updated := fields[Position(fields, key) := Field(key, item)];
      Position(updated, other) == Position(fields, other)
  {
    var updated := fields[Position(fields, key) := Field(key, item)];
    if fields[0].key == key {
      assert updated[1..] == fields[1..];
    } else {
      PositionAfterUpdate(fields[1..], key, item, other);
      assert updated[1..] == fields[1..][Position(fields[1..], key) := Field(key, item)];
    }
  }

  /** Replacing the pipeline leaves every other field alone. */
  lemma WithPipeline(payload: Json, stages: seq<Json>)
    requires WellShaped(payload)
    ensures
      var updated := With(payload, "pipeline", List(stages));
      WellShaped(updated) && Stages(updated) == stages
      && forall key | key != "pipeline" ::
           HasKey(updated, key) == HasKey(payload, key)
           && (HasKey(payload, key) ==> Get(updated, key) == Get(payload, key))
  {
    forall key {
      PositionAfterUpdate(payload.fields, "pipeline", List(stages), key);
    }
  }

  lemma LimitStageIsSafe(limit: int)
    ensures SafeStage(LimitStage(limit)) && HasKey(LimitStage(limit), "$limit")
  {
    var stage := LimitStage(limit);
    FindBannedIsExact(stage);
    assert Position(stage.fields, "$limit") == 0;
    assert FindInFields(stage.fields[1..]) == None && FindBanned(Number(limit)) == None;
  }

  /** What was accepted is accepted again, unchanged. */
  method RevalidateMongo(parsed: Option<Json>, limit: int) returns (first: MongoVerdict, second: MongoVerdict)
    ensures first.Accepted? ==> second == first
  {
    first := ValidateMongo(parsed, limit);
    second := first;
    if first.Accepted? {
      AcceptedAgain(parsed.value, limit);
      second := ValidateMongo(Some(first.payload), limit);
    }
  }

  lemma AcceptedAgain(payload: Json, limit: int)
    requires WellShaped(payload) && forall s | s in Stages(payload) :: SafeStage(s)
    ensures
      var out := With(payload, "pipeline", List(Limited(Stages(payload), limit)));
      && WellShaped(out)
      && (forall s | s in Stages(out) :: SafeStage(s))
      && With(out, "pipeline", List(Limited(Stages(out), limit))) == out
      && (limit > 0 ==> HasLimit(Stages(out)))
  {
    var stages := Limited(Stages(payload), limit);
    var out := With(payload, "pipeline", List(stages));
    WithPipeline(payload, stages);
    LimitStageIsSafe(limit);
    if stages != Stages(payload) {
      assert stages[|stages| - 1] == LimitStage(limit);
    }
    var p := Position(out.fields, "pipeline");
    assert out.fields[p := out.fields[p]] == out.fields;
  }
}
