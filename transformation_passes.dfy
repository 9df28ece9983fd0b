/**
 * The passes the converter runs over the converted transformations once the
 * operations exist: dropping the source schema of first-step transformations,
 * re-pointing `source.origin.id` at the activity that precedes the
 * transformation in its operation, and reporting schema references that no
 * Type 900 component resolves.
 *
 * The transformations are a Python list of dicts that the first two passes
 * update in place; here they are an array of JSON values whose elements the
 * passes overwrite.
 */
module TransformationPasses {
  import opened Wrappers
  import opened JsonValues

  /** `operation.get('steps', [])`, read as a list. */
  function StepsOf(op: Json): seq<Json> {
    AsList(Get(op, "steps"))
  }

  /** A step of type 700 (a transformation) with a truthy id. */
  predicate IsTransformationStep(step: Json) {
    Get(step, "type") == Num(700) && Truthy(Get(step, "id"))
  }

  // ---------------------------------------------------------------------
  // Source removal for first-step transformations
  // ---------------------------------------------------------------------

  /** The transformation id an operation starts with, if its first step is a transformation. */
  function FirstTransformationId(op: Json): Option<Json> {
    var steps := StepsOf(op);
    if |steps| > 0 && IsTransformationStep(steps[0]) then Some(Get(steps[0], "id")) else None
  }

  /** The ids of the transformations that are the first step of some operation among `ops`. */
  function FirstStepIds(ops: seq<Json>): (r: set<Json>)
    ensures forall id :: id in r ==> Truthy(id)
  {
    if |ops| == 0 then {}
    else
      var prev := FirstStepIds(ops[..|ops| - 1]);
      match FirstTransformationId(ops[|ops| - 1])
      case None => prev
      case Some(id) => prev + {id}
  }

  /** An id is a first-step id exactly when some operation's first step is a transformation with that id. */
  lemma {:induction false} FirstStepIdsExact(ops: seq<Json>, id: Json)
    ensures id in FirstStepIds(ops) <==> exists i :: 0 <= i < |ops| && FirstTransformationId(ops[i]) == Some(id)
  {
    if |ops| > 0 {
      var init := ops[..|ops| - 1];
      FirstStepIdsExact(init, id);
      if exists i :: 0 <= i < |init| && FirstTransformationId(init[i]) == Some(id) {
        var i :| 0 <= i < |init| && FirstTransformationId(init[i]) == Some(id);
        assert ops[i] == init[i];
      }
      if exists i :: 0 <= i < |ops| && FirstTransformationId(ops[i]) == Some(id) {
        var i :| 0 <= i < |ops| && FirstTransformationId(ops[i]) == Some(id);
        if i < |init| {
          assert init[i] == ops[i];
        }
      }
    }
  }

  /** `original_jpk_id` in `_conversion_metadata` (a missing metadata dict reads as `{}`). */
  function OriginalJpkId(t: Json): Json {
    Get(GetOr(t, "_conversion_metadata", Obj(map[])), "original_jpk_id")
  }

  /** The transformation's id, or its truthy original JPK id, is a first-step id. */
  predicate IsFirstStep(t: Json, firstIds: set<Json>) {
    Get(t, "id") in firstIds || (Truthy(OriginalJpkId(t)) && OriginalJpkId(t) in firstIds)
  }

  /** The origin of a transformation's source: `transform['source'].get('origin')`. */
  function OriginOf(t: Json): Json {
    Get(Get(t, "source"), "origin")
  }

  /** One transformation after the pass: `source` is deleted when it is first-step and its source has an origin. */
  function WithoutFirstStepSource(t: Json, firstIds: set<Json>): (r: Json)
    ensures t.Obj? ==> r.Obj?
    ensures t.Obj? ==> ("source" in r.fields <==> "source" in t.fields && !(IsFirstStep(t, firstIds) && Truthy(OriginOf(t))))
    ensures forall k :: k != "source" ==> Get(r, k) == Get(t, k)
    ensures !IsFirstStep(t, firstIds) ==> r == t
  {
    if IsFirstStep(t, firstIds) && Truthy(Get(t, "source")) && Truthy(OriginOf(t)) then Remove(t, "source") else t
  }

  /** Running the pass twice removes nothing more than running it once. */
  lemma WithoutFirstStepSourceIdempotent(t: Json, firstIds: set<Json>)
    ensures WithoutFirstStepSource(WithoutFirstStepSource(t, firstIds), firstIds) == WithoutFirstStepSource(t, firstIds)
  {
    var r := WithoutFirstStepSource(t, firstIds);
    if r != t {
      assert Get(r, "id") == Get(t, "id");
      assert Get(r, "_conversion_metadata") == Get(t, "_conversion_metadata");
      assert GetOr(r, "_conversion_metadata", Obj(map[])) == GetOr(t, "_conversion_metadata", Obj(map[]));
      assert Get(r, "source") == Null;
    }
  }

  /** The first loop of `_remove_source_from_first_step_transformations`: the first-step ids. */
  method CollectFirstStepIds(operations: seq<Json>) returns (firstIds: set<Json>)
    ensures firstIds == FirstStepIds(operations)
  {
    firstIds := {};
    var k := 0;
    while k < |operations|
      invariant k <= |operations|
      invariant firstIds == FirstStepIds(operations[..k])
    {
      var steps := StepsOf(operations[k]);
      if |steps| > 0 {
        var firstStep := steps[0];
        var firstStepId := Get(firstStep, "id");
        if Get(firstStep, "type") == Num(700) && Truthy(firstStepId) {
          firstIds := firstIds + {firstStepId};
        }
      }
      assert operations[..k + 1][..k] == operations[..k];
      k := k + 1;
    }
    assert operations[..k] == operations;
  }

  /** `_remove_source_from_first_step_transformations`: collects the first-step ids, then drops the sources. */
  method RemoveSourceFromFirstStepTransformations(transformations: array<Json>, operations: seq<Json>)
    modifies transformations
    ensures forall i :: 0 <= i < transformations.Length ==>
      transformations[i] == WithoutFirstStepSource(old(transformations[i]), FirstStepIds(operations))
  {
    var firstIds := CollectFirstStepIds(operations);
    ghost var before := transformations[..];
    var i := 0;
    while i < transformations.Length
      invariant i <= transformations.Length
      invariant forall j :: 0 <= j < i ==> transformations[j] == WithoutFirstStepSource(before[j], firstIds)
      invariant forall j :: i <= j < transformations.Length ==> transformations[j] == before[j]
    {
      var transform := transformations[i];
      if IsFirstStep(transform, firstIds) {
        var source := Get(transform, "source");
        if Truthy(source) && Truthy(Get(source, "origin")) {
          transformations[i] := Remove(transform, "source");
        }
      }
      i := i + 1;
    }
  }

  // ---------------------------------------------------------------------
  // Origin ids
  // ---------------------------------------------------------------------

  /** Where a transformation step sits: its operation and the step's index in it. */
  datatype StepPos = StepPos(op: Json, step: nat)

  /** Every entry names a transformation step with that id. */
  ghost predicate ValidPositions(m: map<Json, StepPos>, ops: seq<Json>) {
    forall id :: id in m ==>
      m[id].op in ops && m[id].step < |StepsOf(m[id].op)|
      && IsTransformationStep(StepsOf(m[id].op)[m[id].step])
      && Get(StepsOf(m[id].op)[m[id].step], "id") == id
  }

  /** `m` extended with the transformation steps among the first `n` steps of operation `o`, later ones winning. */
  function StepEntries(m: map<Json, StepPos>, ops: seq<Json>, o: nat, n: nat): (r: map<Json, StepPos>)
    requires o < |ops| && n <= |StepsOf(ops[o])|
    ensures ValidPositions(m, ops) ==> ValidPositions(r, ops)
    ensures m.Keys <= r.Keys
  {
    if n == 0 then m
    else
      var prev := StepEntries(m, ops, o, n - 1);
      var step := StepsOf(ops[o])[n - 1];
      if IsTransformationStep(step) then prev[Get(step, "id") := StepPos(ops[o], n - 1)] else prev
  }

  /** The map from transformation-step id to its position, over the first `k` operations. */
  function Positions(ops: seq<Json>, k: nat): (r: map<Json, StepPos>)
    requires k <= |ops|
    ensures ValidPositions(r, ops)
  {
    if k == 0 then map[]
    else StepEntries(Positions(ops, k - 1), ops, k - 1, |StepsOf(ops[k - 1])|)
  }

  /** Every transformation step among the first `n` of operation `o` has its id in the map. */
  lemma {:induction false} StepEntriesComplete(m: map<Json, StepPos>, ops: seq<Json>, o: nat, n: nat, s: nat)
    requires o < |ops| && s < n <= |StepsOf(ops[o])|
    requires IsTransformationStep(StepsOf(ops[o])[s])
    ensures Get(StepsOf(ops[o])[s], "id") in StepEntries(m, ops, o, n)
  {
    if s < n - 1 {
      StepEntriesComplete(m, ops, o, n - 1, s);
    }
  }

  /** Every transformation step of the first `k` operations has its id in the position map. */
  lemma {:induction false} PositionsComplete(ops: seq<Json>, k: nat, o: nat, s: nat)
    requires o < k <= |ops| && s < |StepsOf(ops[o])|
    requires IsTransformationStep(StepsOf(ops[o])[s])
    ensures Get(StepsOf(ops[o])[s], "id") in Positions(ops, k)
  {
    if o == k - 1 {
      StepEntriesComplete(Positions(ops, k - 1), ops, o, |StepsOf(ops[o])|, s);
    } else {
      PositionsComplete(ops, k - 1, o, s);
    }
  }

  /** A step of type 400 (a script) or 500 (an activity). */
  predicate IsActivityStep(step: Json) {
    Get(step, "type") == Num(400) || Get(step, "type") == Num(500)
  }

  /** The nearest step before index `n` that is a script or activity step. */
  function NearestActivity(steps: seq<Json>, n: nat): (r: Option<nat>)
    ensures r.Some? ==> r.value < n && r.value < |steps| && IsActivityStep(steps[r.value])
    ensures r.Some? ==> forall j :: r.value < j < n && j < |steps| ==> !IsActivityStep(steps[j])
    ensures r.None? <==> forall j :: 0 <= j < n && j < |steps| ==> !IsActivityStep(steps[j])
  {
    if n == 0 then None
    else if n - 1 < |steps| && IsActivityStep(steps[n - 1]) then Some(n - 1)
    else NearestActivity(steps, n - 1)
  }

  /** The id of that step, or `None` when there is none. */
  function PrecedingActivityId(steps: seq<Json>, n: nat): Json {
    match NearestActivity(steps, n)
    case None => Null
    case Some(j) => Get(steps[j], "id")
  }

  /** The backward scan for the step before a transformation. */
  method PrecedingActivity(steps: seq<Json>, n: nat) returns (id: Json)
    ensures id == PrecedingActivityId(steps, n)
  {
    var idx: nat := n;
    while idx > 0
      invariant idx <= n
      invariant NearestActivity(steps, idx) == NearestActivity(steps, n)
    {
      var stepIdx := idx - 1;
      if stepIdx < |steps| {
        var step := steps[stepIdx];
        if IsActivityStep(step) {
          return Get(step, "id");
        }
      }
      idx := stepIdx;
    }
    return Null;
  }

  const SalesforceWriteFunctions: set<Json> := {Str("update"), Str("insert"), Str("delete"), Str("upsert")}

  /** A Salesforce origin whose function writes rather than queries. */
  predicate IsSalesforceWrite(origin: Json) {
    GetOr(origin, "adapterId", Str("")) == Str("salesforce")
    && GetOr(origin, "functionName", Str("")) in SalesforceWriteFunctions
  }

  /** The transformation has an id, a source, an origin that is not a Salesforce write, and a step in some operation. */
  predicate Relinkable(t: Json, positions: map<Json, StepPos>) {
    Truthy(Get(t, "source")) && Truthy(Get(t, "id")) && Truthy(OriginOf(t))
    && !IsSalesforceWrite(OriginOf(t)) && Get(t, "id") in positions
  }

  /** The id the origin should point at: that of the step before the transformation's step. */
  function TargetActivityId(t: Json, positions: map<Json, StepPos>): Json
    requires Relinkable(t, positions)
  {
    var pos := positions[Get(t, "id")];
    PrecedingActivityId(StepsOf(pos.op), pos.step)
  }

  /** `transform['source']['origin']['id'] = id`, every other entry kept. */
  function WithOriginId(t: Json, id: Json): Json {
    var source := Get(t, "source");
    Set(t, "source", Set(source, "origin", Set(Get(source, "origin"), "id", id)))
  }

  /** One transformation after the pass. */
  function UpdatedOrigin(t: Json, positions: map<Json, StepPos>): (r: Json)
    ensures !Relinkable(t, positions) ==> r == t
    ensures IsSalesforceWrite(OriginOf(t)) ==> r == t
    ensures r != t ==> Relinkable(t, positions) && Truthy(TargetActivityId(t, positions))
                       && r == WithOriginId(t, TargetActivityId(t, positions))
  {
    if !Relinkable(t, positions) then t
    else
      var id := TargetActivityId(t, positions);
      if Truthy(id) && Get(OriginOf(t), "id") != id then WithOriginId(t, id) else t
  }

  /** After the pass the origin of a relinkable transformation names the preceding step, when that has an id. */
  lemma UpdatedOriginPointsBack(t: Json, positions: map<Json, StepPos>)
    requires t.Obj? && Get(t, "source").Obj? && OriginOf(t).Obj?
    requires Relinkable(t, positions) && Truthy(TargetActivityId(t, positions))
    ensures Get(OriginOf(UpdatedOrigin(t, positions)), "id") == TargetActivityId(t, positions)
  {
  }

  /** Setting the origin id changes something only when the transformation, its source and its origin are dicts. */
  lemma WithOriginIdChangesDicts(t: Json, id: Json)
    requires Truthy(Get(t, "source")) && Truthy(OriginOf(t))
    ensures WithOriginId(t, id) != t ==> t.Obj? && Get(t, "source").Obj? && OriginOf(t).Obj?
  {
    var source := Get(t, "source");
    var origin := Get(source, "origin");
    if !source.Obj? || !origin.Obj? {
      assert Set(source, "origin", Set(origin, "id", id)) == source by {
        if source.Obj? {
          assert source.fields["origin" := origin] == source.fields;
        }
      }
      assert t.fields["source" := source] == t.fields;
    }
  }

  /** Setting the origin id keeps every other entry of the transformation, its source and its origin. */
  lemma WithOriginIdFrame(t: Json, id: Json)
    ensures var r := WithOriginId(t, id);
      (forall k :: k != "source" ==> Get(r, k) == Get(t, k))
      && (forall k :: k != "origin" ==> Get(Get(r, "source"), k) == Get(Get(t, "source"), k))
      && (forall k :: k != "id" ==> Get(OriginOf(r), k) == Get(OriginOf(t), k))
  {
  }

  /** Only `source.origin.id` changes: the other entries, of the transformation, its source and its origin, stay. */
  lemma UpdatedOriginFrame(t: Json, positions: map<Json, StepPos>)
    ensures var r := UpdatedOrigin(t, positions);
      (forall k :: k != "source" ==> Get(r, k) == Get(t, k))
      && (forall k :: k != "origin" ==> Get(Get(r, "source"), k) == Get(Get(t, "source"), k))
      && (forall k :: k != "id" ==> Get(OriginOf(r), k) == Get(OriginOf(t), k))
  {
    var r := UpdatedOrigin(t, positions);
    if r != t {
      WithOriginIdFrame(t, TargetActivityId(t, positions));
    }
  }

  /** Running the pass twice changes nothing more than running it once. */
  lemma UpdatedOriginIdempotent(t: Json, positions: map<Json, StepPos>)
    ensures UpdatedOrigin(UpdatedOrigin(t, positions), positions) == UpdatedOrigin(t, positions)
  {
    var r := UpdatedOrigin(t, positions);
    if r != t {
      var id := TargetActivityId(t, positions);
      UpdatedOriginFrame(t, positions);
      WithOriginIdChangesDicts(t, id);
      UpdatedOriginPointsBack(t, positions);
      assert Get(r, "id") == Get(t, "id");
      assert Get(OriginOf(r), "adapterId") == Get(OriginOf(t), "adapterId");
      assert Get(OriginOf(r), "functionName") == Get(OriginOf(t), "functionName");
      assert Truthy(Get(r, "source")) && Truthy(OriginOf(r));
      assert Relinkable(r, positions);
      assert TargetActivityId(r, positions) == id;
    }
  }

  /** The first loop of `_update_transformation_origin_ids`: transformation-step id to its position. */
  method BuildPositions(operations: seq<Json>) returns (positions: map<Json, StepPos>)
    ensures positions == Positions(operations, |operations|)
  {
    positions := map[];
    var k := 0;
    while k < |operations|
      invariant k <= |operations|
      invariant positions == Positions(operations, k)
    {
      positions := AddStepEntries(positions, operations, k);
      k := k + 1;
    }
  }

  /** The inner loop: the transformation steps of operation `o`, in order. */
  method AddStepEntries(m: map<Json, StepPos>, operations: seq<Json>, o: nat) returns (positions: map<Json, StepPos>)
    requires o < |operations|
    ensures positions == StepEntries(m, operations, o, |StepsOf(operations[o])|)
  {
    positions := m;
    var steps := StepsOf(operations[o]);
    var s := 0;
    while s < |steps|
      invariant s <= |steps|
      invariant positions == StepEntries(m, operations, o, s)
    {
      var step := steps[s];
      if Get(step, "type") == Num(700) {
        var transformId := Get(step, "id");
        if Truthy(transformId) {
          positions := positions[transformId := StepPos(operations[o], s)];
        }
      }
      s := s + 1;
    }
  }

  /** `_update_transformation_origin_ids`: the position map, then one update per transformation. */
  method UpdateTransformationOriginIds(transformations: array<Json>, operations: seq<Json>)
    modifies transformations
    ensures forall i :: 0 <= i < transformations.Length ==>
      transformations[i] == UpdatedOrigin(old(transformations[i]), Positions(operations, |operations|))
  {
    var positions := BuildPositions(operations);
    ghost var before := transformations[..];
    var i := 0;
    while i < transformations.Length
      invariant i <= transformations.Length
      invariant forall j :: 0 <= j < i ==> transformations[j] == UpdatedOrigin(before[j], positions)
      invariant forall j :: i <= j < transformations.Length ==> transformations[j] == before[j]
    {
      var updated := UpdateOne(transformations[i], positions);
      transformations[i] := updated;
      i := i + 1;
    }
  }

  /** The loop body of the pass for one transformation. */
  method UpdateOne(transform: Json, positions: map<Json, StepPos>) returns (r: Json)
    ensures r == UpdatedOrigin(transform, positions)
  {
    var transformId := Get(transform, "id");
    var source := Get(transform, "source");
    if !Truthy(source) || !Truthy(transformId) {
      return transform;
    }
    var origin := Get(source, "origin");
    if !Truthy(origin) {
      return transform;
    }
    var functionName := GetOr(origin, "functionName", Str(""));
    var adapterId := GetOr(origin, "adapterId", Str(""));
    if adapterId == Str("salesforce") && functionName in SalesforceWriteFunctions {
      return transform;
    }
    if transformId !in positions {
      return transform;
    }
    var pos := positions[transformId];
    var steps := StepsOf(pos.op);
    var sourceActivityId := PrecedingActivity(steps, pos.step);
    if Truthy(sourceActivityId) && Get(origin, "id") != sourceActivityId {
      return WithOriginId(transform, sourceActivityId);
    }
    return transform;
  }

  // ---------------------------------------------------------------------
  // Schema reference report
  // ---------------------------------------------------------------------

  /** One unresolved reference, as the report records it. */
  datatype SchemaIssue = SchemaIssue(transformation: Json, role: string, schemaName: Json, schemaId: Json, issue: string)

  const NameNotFound := "Schema name not found in Type 900 components"

  /** The truthy values under `key` among `xs`. */
  function TruthyValues(xs: seq<Json>, key: string): (r: set<Json>)
    ensures forall v :: v in r ==> Truthy(v)
  {
    if |xs| == 0 then {}
    else
      var prev := TruthyValues(xs[..|xs| - 1], key);
      var v := Get(xs[|xs| - 1], key);
      if Truthy(v) then prev + {v} else prev
  }

  /** A value is collected exactly when some element holds it, truthy, under the key. */
  lemma {:induction false} TruthyValuesExact(xs: seq<Json>, key: string, v: Json)
    ensures v in TruthyValues(xs, key) <==> Truthy(v) && exists i :: 0 <= i < |xs| && Get(xs[i], key) == v
  {
    if |xs| > 0 {
      var init := xs[..|xs| - 1];
      TruthyValuesExact(init, key, v);
      if exists i :: 0 <= i < |init| && Get(init[i], key) == v {
        var i :| 0 <= i < |init| && Get(init[i], key) == v;
        assert xs[i] == init[i];
      }
      if exists i :: 0 <= i < |xs| && Get(xs[i], key) == v {
        var i :| 0 <= i < |xs| && Get(xs[i], key) == v;
        if i < |init| {
          assert init[i] == xs[i];
        }
      }
    }
  }

  /** A reference resolves when it has no name, or its name is a schema name and its id, if any, a schema id. */
  predicate Resolves(ref: Json, names: set<Json>, ids: set<Json>) {
    var name := Get(ref, "name");
    var id := Get(ref, "id");
    !Truthy(name) || (name in names && (!Truthy(id) || id in ids))
  }

  /** The issue, if any, for one side (`source` or `target`) of a transformation. */
  function SideIssue(t: Json, role: string, names: set<Json>, ids: set<Json>): (r: seq<SchemaIssue>)
    requires role == "source" || role == "target"
    ensures |r| <= 1
    ensures r == [] <==> Resolves(GetOr(t, role, Obj(map[])), names, ids)
    ensures r != [] ==> r[0].role == role && r[0].schemaName == Get(GetOr(t, role, Obj(map[])), "name")
    ensures r != [] ==> (r[0].issue == NameNotFound <==> r[0].schemaName !in names)
  {
    var ref := GetOr(t, role, Obj(map[]));
    var name := Get(ref, "name");
    var id := Get(ref, "id");
    var transName := GetOr(t, "name", Str("Unknown"));
    if !Truthy(name) then []
    else if name !in names then [SchemaIssue(transName, role, name, id, NameNotFound)]
    else if Truthy(id) && id !in ids then
      [SchemaIssue(transName, role, name, id,
        if role == "source" then "Source ID does not match any Type 900 component ID"
        else "Target ID does not match any Type 900 component ID")]
    else []
  }

  /** The issues of one transformation: its source first, then its target. */
  function IssuesOf(t: Json, names: set<Json>, ids: set<Json>): seq<SchemaIssue> {
    SideIssue(t, "source", names, ids) + SideIssue(t, "target", names, ids)
  }

  /** The report over all transformations, in order. */
  function MissingReferences(ts: seq<Json>, names: set<Json>, ids: set<Json>): seq<SchemaIssue> {
    if |ts| == 0 then [] else MissingReferences(ts[..|ts| - 1], names, ids) + IssuesOf(ts[|ts| - 1], names, ids)
  }

  /** The report is empty exactly when every source and target reference of every transformation resolves. */
  lemma {:induction false} NoMissingReferencesIff(ts: seq<Json>, names: set<Json>, ids: set<Json>)
    ensures MissingReferences(ts, names, ids) == [] <==>
      forall i :: 0 <= i < |ts| ==> BothResolve(ts[i], names, ids)
  {
    if |ts| > 0 {
      var init := ts[..|ts| - 1];
      NoMissingReferencesIff(init, names, ids);
      IssuesOfEmpty(ts[|ts| - 1], names, ids);
      ResolvedSnoc(ts, init, names, ids);
    }
  }

  /** A transformation has no issue exactly when both of its references resolve. */
  lemma IssuesOfEmpty(t: Json, names: set<Json>, ids: set<Json>)
    ensures IssuesOf(t, names, ids) == [] <==> BothResolve(t, names, ids)
  {
  }

  /** Both references of `t` resolve. */
  predicate BothResolve(t: Json, names: set<Json>, ids: set<Json>) {
    Resolves(GetOr(t, "source", Obj(map[])), names, ids) && Resolves(GetOr(t, "target", Obj(map[])), names, ids)
  }

  /** Every transformation resolves exactly when all but the last do and the last does. */
  lemma ResolvedSnoc(ts: seq<Json>, init: seq<Json>, names: set<Json>, ids: set<Json>)
    requires |ts| > 0 && init == ts[..|ts| - 1]
    ensures (forall i :: 0 <= i < |ts| ==> BothResolve(ts[i], names, ids)) <==>
      (forall i :: 0 <= i < |init| ==> BothResolve(init[i], names, ids)) && BothResolve(ts[|ts| - 1], names, ids)
  {
    assert forall i :: 0 <= i < |init| ==> init[i] == ts[i];
  }

  /** Each transformation contributes at most two issues. */
  lemma {:induction false} MissingReferencesBound(ts: seq<Json>, names: set<Json>, ids: set<Json>)
    ensures |MissingReferences(ts, names, ids)| <= 2 * |ts|
  {
    if |ts| > 0 {
      MissingReferencesBound(ts[..|ts| - 1], names, ids);
    }
  }

  /** The first loop of `_validate_transformation_schema_references`: the schema names and ids. */
  method CollectSchemaKeys(schemaComponents: seq<Json>) returns (names: set<Json>, ids: set<Json>)
    ensures names == TruthyValues(schemaComponents, "name")
    ensures ids == TruthyValues(schemaComponents, "id")
  {
    names := {};
    ids := {};
    var k := 0;
    while k < |schemaComponents|
      invariant k <= |schemaComponents|
      invariant names == TruthyValues(schemaComponents[..k], "name")
      invariant ids == TruthyValues(schemaComponents[..k], "id")
    {
      var schemaName := Get(schemaComponents[k], "name");
      var schemaId := Get(schemaComponents[k], "id");
      if Truthy(schemaName) {
        names := names + {schemaName};
      }
      if Truthy(schemaId) {
        ids := ids + {schemaId};
      }
      assert schemaComponents[..k + 1][..k] == schemaComponents[..k];
      k := k + 1;
    }
    assert schemaComponents[..k] == schemaComponents;
  }

  /** `_validate_transformation_schema_references`: the list of unresolved references it reports. */
  method ValidateTransformationSchemaReferences(transformations: seq<Json>, schemaComponents: seq<Json>)
    returns (missing: seq<SchemaIssue>)
    ensures missing == MissingReferences(transformations, TruthyValues(schemaComponents, "name"), TruthyValues(schemaComponents, "id"))
  {
    var names, ids := CollectSchemaKeys(schemaComponents);
    missing := [];
    var i := 0;
    while i < |transformations|
      invariant i <= |transformations|
      invariant missing == MissingReferences(transformations[..i], names, ids)
    {
      var transform := transformations[i];
      missing := missing + SideIssue(transform, "source", names, ids) + SideIssue(transform, "target", names, ids);
      assert transformations[..i + 1][..i] == transformations[..i];
      i := i + 1;
    }
    assert transformations[..i] == transformations;
  }
}
