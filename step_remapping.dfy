/**
 * The operation pass of the JPK converter (`_convert_operations`): every JPK
 * operation becomes a Type 200 operation, and each of its step ids is
 * rewritten to the id of the component that was converted for it —
 * transformations through their original JPK id, endpoints directly or by
 * the role of the step's activity, scripts through the activity's content
 * id. An operation whose conversion raises is dropped.
 */
module StepRemapping {
  import opened Wrappers
  import opened Strings
  import opened JsonValues
  import opened JpkRecords
  import opened Sequences
  import OperationFactory
  import TP = TransformationPasses

  // ---------------------------------------------------------------------
  // Transformation lookups

  /** `jpk_id_to_json_id`: each truthy original JPK id to its transformation's id; later transformations override. */
  function TransformationIds(ts: seq<Json>): (r: map<Json, Json>)
    ensures forall k :: k in r ==> Truthy(k)
  {
    if |ts| == 0 then map[]
    else
      var t := ts[|ts| - 1];
      var k := TP.OriginalJpkId(t);
      var prev := TransformationIds(ts[..|ts| - 1]);
      if Truthy(k) then prev[k := Get(t, "id")] else prev
  }

  /** `existing_transformation_content_ids`, as the strings a content id can be equal to. */
  function ExistingContentIds(ts: seq<Json>): (r: set<string>)
    ensures "" !in r
  {
    if |ts| == 0 then {}
    else
      var k := TP.OriginalJpkId(ts[|ts| - 1]);
      var prev := ExistingContentIds(ts[..|ts| - 1]);
      if Truthy(k) && k.Str? then prev + {k.s} else prev
  }

  /** The last transformation adds its own original id to what the others map. */
  lemma TransformationIdsStep(ts: seq<Json>, k: Json)
    requires |ts| > 0
    ensures k in TransformationIds(ts) <==>
      (Truthy(k) && TP.OriginalJpkId(ts[|ts| - 1]) == k) || k in TransformationIds(ts[..|ts| - 1])
  {
  }

  /** Some transformation of `ts` carries the original id `k`. */
  ghost predicate Carried(ts: seq<Json>, k: Json) {
    exists i :: 0 <= i < |ts| && TP.OriginalJpkId(ts[i]) == k
  }

  lemma CarriedStep(ts: seq<Json>, k: Json)
    requires |ts| > 0
    ensures Carried(ts, k) <==> TP.OriginalJpkId(ts[|ts| - 1]) == k || Carried(ts[..|ts| - 1], k)
  {
    var init := ts[..|ts| - 1];
    if Carried(ts, k) && TP.OriginalJpkId(ts[|ts| - 1]) != k {
      var i :| 0 <= i < |ts| && TP.OriginalJpkId(ts[i]) == k;
      assert ts[i] == init[i];
    }
    if Carried(init, k) {
      var i :| 0 <= i < |init| && TP.OriginalJpkId(init[i]) == k;
      assert ts[i] == init[i];
    }
  }

  /** An original id is mapped exactly when it is truthy and some transformation carries it. */
  lemma {:induction false} TransformationIdsMember(ts: seq<Json>, k: Json)
    ensures k in TransformationIds(ts) <==> Truthy(k) && Carried(ts, k)
  {
    if |ts| > 0 {
      TransformationIdsMember(ts[..|ts| - 1], k);
      TransformationIdsStep(ts, k);
      CarriedStep(ts, k);
    }
  }

  /** `ts[i]` carries the original id `k`, and no later transformation does. */
  ghost predicate LastCarrier(ts: seq<Json>, k: Json, i: int) {
    0 <= i < |ts| && TP.OriginalJpkId(ts[i]) == k
    && forall j :: i < j < |ts| ==> TP.OriginalJpkId(ts[j]) != k
  }

  /** A transformation id is looked up by the original id of the last transformation carrying it. */
  lemma {:induction false} TransformationIdsLast(ts: seq<Json>, k: Json)
    ensures k in TransformationIds(ts) ==>
              exists i :: LastCarrier(ts, k, i) && TransformationIds(ts)[k] == Get(ts[i], "id")
  {
    if |ts| > 0 {
      var init := ts[..|ts| - 1];
      var last := |ts| - 1;
      if Truthy(k) && TP.OriginalJpkId(ts[last]) == k {
        assert LastCarrier(ts, k, last) && TransformationIds(ts)[k] == Get(ts[last], "id");
      } else if k in TransformationIds(ts) {
        TransformationIdsLast(init, k);
        var i :| LastCarrier(init, k, i) && TransformationIds(init)[k] == Get(init[i], "id");
        assert ts[i] == init[i];
        forall j | i < j < |ts| ensures TP.OriginalJpkId(ts[j]) != k {
          if j < last { assert ts[j] == init[j]; }
        }
        assert LastCarrier(ts, k, i);
      }
    }
  }

  /** The two tables agree: a content id is an existing transformation exactly when it is mapped. */
  lemma {:induction false} ExistingContentIdsMapped(ts: seq<Json>, s: string)
    ensures s in ExistingContentIds(ts) <==> Str(s) in TransformationIds(ts)
  {
    if |ts| > 0 {
      ExistingContentIdsMapped(ts[..|ts| - 1], s);
    }
  }

  /** The loop that builds both tables, one transformation at a time. */
  method IndexTransformations(ts: seq<Json>) returns (ids: map<Json, Json>, existing: set<string>)
    ensures ids == TransformationIds(ts) && existing == ExistingContentIds(ts)
  {
    ids := map[];
    existing := {};
    for i := 0 to |ts|
      invariant ids == TransformationIds(ts[..i])
      invariant existing == ExistingContentIds(ts[..i])
    {
      assert ts[..i + 1][..i] == ts[..i];
      var originalId := TP.OriginalJpkId(ts[i]);
      if Truthy(originalId) {
        ids := ids[originalId := Get(ts[i], "id")];
        if originalId.Str? {
          existing := existing + {originalId.s};
        }
      }
    }
    assert ts[..|ts|] == ts;
  }

  // ---------------------------------------------------------------------
  // Endpoint and script lookups

  /** The `(adapterId, functionName)` key an endpoint is filed under. */
  function AdapterKey(e: Json): (Json, Json) {
    (GetOr(e, "adapterId", Str("")), GetOr(e, "functionName", Str("")))
  }

  const NetSuiteUpsert: (Json, Json) := (Str("netsuite"), Str("upsert"))
  const TempStorageRead: (Json, Json) := (Str("tempstorage"), Str("tempstorage_read"))
  const TempStorageWrite: (Json, Json) := (Str("tempstorage"), Str("tempstorage_write"))
  const SalesforceQuery: (Json, Json) := (Str("salesforce"), Str("query"))

  /** `endpoint_by_adapter_func.get(key, [])`: the endpoints filed under `key`. */
  function Candidates(endpoints: seq<Json>, key: (Json, Json)): (r: seq<Json>)
    ensures forall e :: e in r <==> e in endpoints && AdapterKey(e) == key
    ensures |r| <= |endpoints|
  {
    if |endpoints| == 0 then []
    else
      var e := endpoints[|endpoints| - 1];
      var prev := Candidates(endpoints[..|endpoints| - 1], key);
      if AdapterKey(e) == key then prev + [e] else prev
  }

  /** The candidates under one key keep their order in the endpoint list. */
  lemma {:induction false} CandidatesKeepOrder(endpoints: seq<Json>, key: (Json, Json))
    ensures IsSubsequence(Candidates(endpoints, key), endpoints)
  {
    if |endpoints| > 0 {
      var init := endpoints[..|endpoints| - 1];
      var e := endpoints[|endpoints| - 1];
      var prev := Candidates(init, key);
      CandidatesKeepOrder(init, key);
      SubsequenceSnoc(prev, init, e);
      assert init + [e] == endpoints;
      assert Candidates(endpoints, key) == if AdapterKey(e) == key then prev + [e] else prev;
    }
  }

  /** What the indexing loop leaves: every key's candidates, and no key without any. */
  ghost predicate IsEndpointIndex(index: map<(Json, Json), seq<Json>>, endpoints: seq<Json>) {
    (forall key :: key in index ==> index[key] == Candidates(endpoints, key))
    && (forall key :: key !in index ==> Candidates(endpoints, key) == [])
  }

  /** The loop that files every endpoint under its key. */
  method IndexEndpoints(endpoints: seq<Json>) returns (index: map<(Json, Json), seq<Json>>)
    ensures IsEndpointIndex(index, endpoints)
  {
    index := map[];
    for i := 0 to |endpoints|
      invariant IsEndpointIndex(index, endpoints[..i])
    {
      var e := endpoints[i];
      var key := AdapterKey(e);
      assert endpoints[..i + 1][..i] == endpoints[..i];
      if key !in index {
        index := index[key := []];
      }
      index := index[key := index[key] + [e]];
    }
    assert endpoints[..|endpoints|] == endpoints;
  }

  /** `index.get(key, [])`. */
  function Lookup(index: map<(Json, Json), seq<Json>>, key: (Json, Json)): seq<Json> {
    if key in index then index[key] else []
  }

  /** `{x.get('id'): x for x in xs}.get(id)`: the last element whose id is `id`. */
  function LastWithId(xs: seq<Json>, id: Json): (r: Option<Json>)
    ensures r.Some? ==> r.value in xs && Get(r.value, "id") == id
    ensures r.None? <==> forall x :: x in xs ==> Get(x, "id") != id
  {
    if |xs| == 0 then None
    else if Get(xs[|xs| - 1], "id") == id then Some(xs[|xs| - 1])
    else LastWithId(xs[..|xs| - 1], id)
  }

  /** Later elements override earlier ones with the same id. */
  lemma {:induction false} LastWithIdIsLast(xs: seq<Json>, id: Json)
    ensures LastWithId(xs, id).Some? ==>
              exists i :: 0 <= i < |xs| && xs[i] == LastWithId(xs, id).value
                && forall j :: i < j < |xs| ==> Get(xs[j], "id") != id
  {
    if |xs| > 0 && Get(xs[|xs| - 1], "id") != id {
      var init := xs[..|xs| - 1];
      LastWithIdIsLast(init, id);
      if LastWithId(init, id).Some? {
        var i :| 0 <= i < |init| && init[i] == LastWithId(init, id).value
                 && forall j :: i < j < |init| ==> Get(init[j], "id") != id;
        assert xs[i] == init[i];
        forall j | i < j < |xs| ensures Get(xs[j], "id") != id {
          if j < |init| { assert xs[j] == init[j]; }
        }
      }
    }
  }

  // ---------------------------------------------------------------------
  // Steps and their activities

  /** The first activity whose `activity_id` is the step id, by index. */
  function FirstActivity(acts: seq<Activity>, stepId: Json): (r: Option<nat>)
    ensures r.Some? ==> r.value < |acts| && Str(acts[r.value].activityId) == stepId
    ensures r.Some? ==> forall j :: 0 <= j < r.value ==> Str(acts[j].activityId) != stepId
    ensures r.None? ==> forall j :: 0 <= j < |acts| ==> Str(acts[j].activityId) != stepId
  {
    if |acts| == 0 then None
    else if Str(acts[0].activityId) == stepId then Some(0)
    else match FirstActivity(acts[1..], stepId)
      case None => None
      case Some(k) => Some(k + 1)
  }

  /** The scan of the activities for one step id, stopping at the first match. */
  method FindActivity(acts: seq<Activity>, stepId: Json) returns (r: Option<nat>)
    ensures r == FirstActivity(acts, stepId)
  {
    var j := 0;
    while j < |acts|
      invariant j <= |acts|
      invariant forall q :: 0 <= q < j ==> Str(acts[q].activityId) != stepId
    {
      if Str(acts[j].activityId) == stepId {
        return Some(j);
      }
      j := j + 1;
    }
    return None;
  }

  /** Only endpoint and script steps are matched to activities. */
  predicate IsEndpointOrScript(step: Json) {
    Get(step, "type") == Num(400) || Get(step, "type") == Num(500)
  }

  /** `step_to_activity_map`: step index to the index of its first matching activity. */
  ghost predicate IsActivityMap(m: map<nat, nat>, steps: seq<Json>, acts: seq<Activity>) {
    (forall i :: i in m ==> i < |steps| && IsEndpointOrScript(steps[i])
                            && FirstActivity(acts, Get(steps[i], "id")) == Some(m[i]))
    && (forall i :: (0 <= i < |steps| && IsEndpointOrScript(steps[i])
                     && FirstActivity(acts, Get(steps[i], "id")).Some?) ==> i in m)
  }

  /** The loop that builds `step_to_activity_map`. */
  method MapStepsToActivities(steps: seq<Json>, acts: seq<Activity>) returns (m: map<nat, nat>)
    ensures IsActivityMap(m, steps, acts)
  {
    m := map[];
    for i := 0 to |steps|
      invariant forall k :: k in m ==> k < i && IsEndpointOrScript(steps[k])
                                       && FirstActivity(acts, Get(steps[k], "id")) == Some(m[k])
      invariant forall k :: (0 <= k < i && IsEndpointOrScript(steps[k])
                             && FirstActivity(acts, Get(steps[k], "id")).Some?) ==> k in m
    {
      if IsEndpointOrScript(steps[i]) {
        var found := FindActivity(acts, Get(steps[i], "id"));
        if found.Some? {
          m := m[i := found.value];
        }
      }
    }
  }

  /** The activity a step id names, if any. */
  function ActivityOf(acts: seq<Activity>, stepId: Json): Option<Activity> {
    match FirstActivity(acts, stepId)
    case Some(k) => Some(acts[k])
    case None => None
  }

  // ---------------------------------------------------------------------
  // Choosing an endpoint by role

  /** The activity is a NetSuite Function, by its lower-cased role or its type 232. */
  predicate IsNetSuiteFunction(a: Activity) {
    var role := Lower(a.role);
    (Contains(role, "netsuite") && Contains(role, "function")) || a.activityType == "232"
  }

  /** `is_netsuite_operation`: some activity of the operation is a NetSuite Function. */
  predicate IsNetSuiteOperation(acts: seq<Activity>) {
    exists a :: a in acts && IsNetSuiteFunction(a)
  }

  /** An endpoint's `name`, or `""`. */
  function NameOf(e: Json): string {
    AsStr(GetOr(e, "name", Str("")))
  }

  /** The name does not contain `_old`. */
  predicate IsCurrent(e: Json) {
    !Contains(NameOf(e), "_old")
  }

  /** The lower-cased name mentions `canonical` or `contact`. */
  predicate IsCanonical(e: Json) {
    Contains(Lower(NameOf(e)), "canonical") || Contains(Lower(NameOf(e)), "contact")
  }

  /** The index of the first candidate satisfying `p`. */
  function FirstWhere(cands: seq<Json>, p: Json -> bool): (r: Option<nat>)
    ensures r.Some? ==> r.value < |cands| && p(cands[r.value])
    ensures r.Some? ==> forall j :: 0 <= j < r.value ==> !p(cands[j])
    ensures r.None? ==> forall j :: 0 <= j < |cands| ==> !p(cands[j])
  {
    if |cands| == 0 then None
    else if p(cands[0]) then Some(0)
    else match FirstWhere(cands[1..], p)
      case None => None
      case Some(k) => Some(k + 1)
  }

  /** NetSuite upsert: the first candidate without `_old` in its name, else the first candidate. */
  function PreferCurrent(cands: seq<Json>): Option<Json> {
    match FirstWhere(cands, IsCurrent)
    case Some(k) => Some(cands[k])
    case None => if |cands| > 0 then Some(cands[0]) else None
  }

  /** Temp storage read for a NetSuite operation: among several, the first canonical one, else the first. */
  function PreferCanonical(cands: seq<Json>): Option<Json> {
    if |cands| == 0 then None
    else if |cands| > 1 && FirstWhere(cands, IsCanonical).Some? then Some(cands[FirstWhere(cands, IsCanonical).value])
    else Some(cands[0])
  }

  /** A lookup that only accepts an unambiguous match. */
  function Sole(cands: seq<Json>): Option<Json> {
    if |cands| == 1 then Some(cands[0]) else None
  }

  /** The first candidate, if any. */
  function FirstOf(cands: seq<Json>): Option<Json> {
    if |cands| > 0 then Some(cands[0]) else None
  }

  /** The four candidate lists the role rules consult. */
  datatype CandidateLists = CandidateLists(
    netSuiteUpsert: seq<Json>,
    tempStorageRead: seq<Json>,
    tempStorageWrite: seq<Json>,
    salesforceQuery: seq<Json>)

  function CandidatesOf(endpoints: seq<Json>): CandidateLists {
    CandidateLists(
      Candidates(endpoints, NetSuiteUpsert), Candidates(endpoints, TempStorageRead),
      Candidates(endpoints, TempStorageWrite), Candidates(endpoints, SalesforceQuery))
  }

  /** The same lists read from the index the loop built. */
  function CandidatesIn(index: map<(Json, Json), seq<Json>>): CandidateLists {
    CandidateLists(
      Lookup(index, NetSuiteUpsert), Lookup(index, TempStorageRead),
      Lookup(index, TempStorageWrite), Lookup(index, SalesforceQuery))
  }

  /** Reading the index is reading the endpoint list. */
  lemma CandidatesInIndex(index: map<(Json, Json), seq<Json>>, endpoints: seq<Json>)
    requires IsEndpointIndex(index, endpoints)
    ensures CandidatesIn(index) == CandidatesOf(endpoints)
  {
  }

  /**
   * The endpoint an activity's role selects when the step id names no
   * endpoint: NetSuite Functions upsert, sources read (temp storage first in
   * a NetSuite operation, a unique Salesforce query first otherwise), targets
   * write to temp storage, and Salesforce roles query.
   */
  function ChooseEndpoint(a: Activity, netSuiteOperation: bool, c: CandidateLists): Option<Json> {
    var role := Lower(a.role);
    if IsNetSuiteFunction(a) then PreferCurrent(c.netSuiteUpsert)
    else if role == "source" then
      if netSuiteOperation then
        var read := PreferCanonical(c.tempStorageRead);
        if read.Some? then read else Sole(c.salesforceQuery)
      else
        var query := Sole(c.salesforceQuery);
        if query.Some? then query else Sole(c.tempStorageRead)
    else if role == "target" then FirstOf(c.tempStorageWrite)
    else if Contains(role, "salesforce") || a.activityType == "14" || Lower(role) == "web service call" then
      Sole(c.salesforceQuery)
    else None
  }

  /**
   * The chosen endpoint is listed, and filed under the key the activity's
   * role calls for.
   */
  lemma ChosenEndpointKey(a: Activity, netSuiteOperation: bool, endpoints: seq<Json>)
    ensures var r := ChooseEndpoint(a, netSuiteOperation, CandidatesOf(endpoints));
      var role := Lower(a.role);
      r.Some? ==>
        r.value in endpoints
        && (IsNetSuiteFunction(a) ==> AdapterKey(r.value) == NetSuiteUpsert)
        && (!IsNetSuiteFunction(a) && role == "source" ==>
              AdapterKey(r.value) == TempStorageRead || AdapterKey(r.value) == SalesforceQuery)
        && (!IsNetSuiteFunction(a) && role == "target" ==> AdapterKey(r.value) == TempStorageWrite)
        && (!IsNetSuiteFunction(a) && role != "source" && role != "target" ==>
              AdapterKey(r.value) == SalesforceQuery)
  {
    var c := CandidatesOf(endpoints);
    if IsNetSuiteFunction(a) {
      PreferCurrentListed(c.netSuiteUpsert);
    } else if Lower(a.role) == "source" && netSuiteOperation {
      PreferCanonicalListed(c.tempStorageRead);
    }
  }

  /** The NetSuite choice is one of the candidates. */
  lemma PreferCurrentListed(cands: seq<Json>)
    ensures PreferCurrent(cands).Some? ==> PreferCurrent(cands).value in cands
  {
  }

  /** The temp storage read choice is one of the candidates. */
  lemma PreferCanonicalListed(cands: seq<Json>)
    ensures PreferCanonical(cands).Some? ==> PreferCanonical(cands).value in cands
  {
  }

  /** A unique Salesforce query endpoint is the only kind the rules accept for a Salesforce query. */
  lemma SalesforceQueryUnique(a: Activity, netSuiteOperation: bool, endpoints: seq<Json>)
    ensures var r := ChooseEndpoint(a, netSuiteOperation, CandidatesOf(endpoints));
      r.Some? && AdapterKey(r.value) == SalesforceQuery ==> Candidates(endpoints, SalesforceQuery) == [r.value]
  {
    ChosenEndpointKey(a, netSuiteOperation, endpoints);
    var c := CandidatesOf(endpoints);
    if Lower(a.role) == "source" && netSuiteOperation && !IsNetSuiteFunction(a) {
      PreferCanonicalListed(c.tempStorageRead);
    }
  }

  /** A NetSuite Function picks an upsert endpoint whose name lacks `_old` whenever there is one. */
  lemma NetSuitePrefersCurrent(a: Activity, netSuiteOperation: bool, c: CandidateLists)
    requires IsNetSuiteFunction(a)
    ensures ChooseEndpoint(a, netSuiteOperation, c).Some? <==> |c.netSuiteUpsert| > 0
    ensures (exists k :: 0 <= k < |c.netSuiteUpsert| && IsCurrent(c.netSuiteUpsert[k])) ==>
              IsCurrent(ChooseEndpoint(a, netSuiteOperation, c).value)
  {
  }

  /** A source in a NetSuite operation reads temp storage when any is filed, preferring a canonical name. */
  lemma NetSuiteSourceReadsTempStorage(a: Activity, c: CandidateLists)
    requires !IsNetSuiteFunction(a) && Lower(a.role) == "source" && |c.tempStorageRead| > 0
    ensures ChooseEndpoint(a, true, c).Some? && ChooseEndpoint(a, true, c).value in c.tempStorageRead
    ensures |c.tempStorageRead| > 1 && (exists k :: 0 <= k < |c.tempStorageRead| && IsCanonical(c.tempStorageRead[k])) ==>
              IsCanonical(ChooseEndpoint(a, true, c).value)
  {
    PreferCanonicalListed(c.tempStorageRead);
  }

  // ---------------------------------------------------------------------
  // Rewriting one step

  /** What the pass does to one step: nothing, a new id, or a `KeyError` on an endpoint without an id. */
  datatype Rewrite = Keep | Rename(id: Json) | MissingId

  /** The tables the pass reads besides the operation's activities. */
  datatype Lookups = Lookups(
    transformationIds: map<Json, Json>,
    endpoints: seq<Json>,
    scripts: seq<Json>,
    contentIds: map<string, string>)

  /** The tables for a list of converted transformations. */
  function LookupsFor(ts: seq<Json>, endpoints: seq<Json>, scripts: seq<Json>, contentIds: map<string, string>): Lookups {
    Lookups(TransformationIds(ts), endpoints, scripts, contentIds)
  }

  /** `(activity_id_to_content_id or {}).get(step_id)`, with `""` for a miss. */
  function ContentIdOf(contentIds: map<string, string>, stepId: Json): string {
    if stepId.Str? && stepId.s in contentIds then contentIds[stepId.s] else ""
  }

  /** The endpoint a type 500 step is matched to: by its own id, else by its activity's role. */
  function MatchedEndpoint(stepId: Json, activity: Option<Activity>, netSuiteOperation: bool, l: Lookups, c: CandidateLists): Option<Json> {
    var direct := LastWithId(l.endpoints, stepId);
    if direct.Some? then direct
    else if activity.Some? then ChooseEndpoint(activity.value, netSuiteOperation, c)
    else None
  }

  /** The body of the step loop, given the step's activity and the candidate lists. */
  function StepRewrite(step: Json, activity: Option<Activity>, netSuiteOperation: bool, l: Lookups, c: CandidateLists): Rewrite {
    var id := Get(step, "id");
    var stepType := Get(step, "type");
    if stepType == Num(700) && Truthy(id) then
      if id in l.transformationIds && Truthy(l.transformationIds[id]) then Rename(l.transformationIds[id]) else Keep
    else if stepType == Num(500) && Truthy(id) then
      match MatchedEndpoint(id, activity, netSuiteOperation, l, c)
      case None => Keep
      case Some(e) => if Has(e, "id") then Rename(e.fields["id"]) else MissingId
    else if stepType == Num(400) && Truthy(id) then
      var content := ContentIdOf(l.contentIds, id);
      if content != "" && LastWithId(l.scripts, Str(content)).Some? then Rename(Str(content)) else Keep
    else Keep
  }

  /** The rewrite of a step of an operation with activities `acts`. */
  function RemapStep(step: Json, acts: seq<Activity>, l: Lookups): Rewrite {
    StepRewrite(step, ActivityOf(acts, Get(step, "id")), IsNetSuiteOperation(acts), l, CandidatesOf(l.endpoints))
  }

  /** A transformation step takes the id of the last transformation converted from its JPK id, if that id is truthy. */
  lemma TransformationStepTarget(step: Json, acts: seq<Activity>, ts: seq<Json>, l: Lookups)
    requires l.transformationIds == TransformationIds(ts)
    requires Get(step, "type") == Num(700) && Truthy(Get(step, "id"))
    ensures RemapStep(step, acts, l) != MissingId
    ensures RemapStep(step, acts, l).Rename? ==>
      Truthy(RemapStep(step, acts, l).id)
      && exists i :: LastCarrier(ts, Get(step, "id"), i) && RemapStep(step, acts, l).id == Get(ts[i], "id")
    ensures !Carried(ts, Get(step, "id")) ==> RemapStep(step, acts, l) == Keep
  {
    TransformationIdsMember(ts, Get(step, "id"));
    TransformationIdsLast(ts, Get(step, "id"));
  }

  /** An endpoint step that already names an endpoint keeps its id. */
  lemma DirectEndpointKept(step: Json, acts: seq<Activity>, l: Lookups)
    requires Get(step, "type") == Num(500) && Truthy(Get(step, "id"))
    requires exists e :: e in l.endpoints && Get(e, "id") == Get(step, "id")
    ensures RemapStep(step, acts, l) == Rename(Get(step, "id"))
    ensures Set(step, "id", Get(step, "id")) == step
  {
    assert step.fields["id" := step.fields["id"]] == step.fields;
  }

  /** A renamed endpoint step names an endpoint of the list. */
  lemma EndpointStepTarget(step: Json, acts: seq<Activity>, l: Lookups)
    requires Get(step, "type") == Num(500)
    ensures RemapStep(step, acts, l).Rename? ==>
              exists e :: e in l.endpoints && Get(e, "id") == RemapStep(step, acts, l).id
  {
    var id := Get(step, "id");
    var activity := ActivityOf(acts, id);
    if LastWithId(l.endpoints, id).None? && activity.Some? {
      ChosenEndpointKey(activity.value, IsNetSuiteOperation(acts), l.endpoints);
    }
  }

  /** A script step takes its activity's content id exactly when a script has that id. */
  lemma ScriptStepTarget(step: Json, acts: seq<Activity>, l: Lookups)
    requires Get(step, "type") == Num(400) && Truthy(Get(step, "id"))
    ensures var r := RemapStep(step, acts, l);
      var content := ContentIdOf(l.contentIds, Get(step, "id"));
      && r != MissingId
      && (r.Rename? <==> content != "" && exists s :: s in l.scripts && Get(s, "id") == Str(content))
      && (r.Rename? ==> r.id == Str(content))
  {
  }

  /** Steps of other types, and steps without an id, are left alone. */
  lemma OtherStepsKept(step: Json, acts: seq<Activity>, l: Lookups)
    requires !Truthy(Get(step, "id")) || Get(step, "type") !in {Num(400), Num(500), Num(700)}
    ensures RemapStep(step, acts, l) == Keep
  {
  }

  // ---------------------------------------------------------------------
  // The step loop

  /** The rewrite of every step, in order. */
  function Rewrites(steps: seq<Json>, acts: seq<Activity>, l: Lookups): (r: seq<Rewrite>)
    ensures |r| == |steps| && forall i :: 0 <= i < |steps| ==> r[i] == RemapStep(steps[i], acts, l)
  {
    seq(|steps|, i requires 0 <= i < |steps| => RemapStep(steps[i], acts, l))
  }

  /** The steps with their rewrites applied, or `None` when one of them raises. */
  function Applied(steps: seq<Json>, rewrites: seq<Rewrite>): Option<seq<Json>>
    requires |rewrites| == |steps|
  {
    if |steps| == 0 then Some([])
    else match Applied(steps[..|steps| - 1], rewrites[..|steps| - 1])
      case None => None
      case Some(prev) =>
        var step := steps[|steps| - 1];
        match rewrites[|steps| - 1]
        case Keep => Some(prev + [step])
        case Rename(id) => Some(prev + [Set(step, "id", id)])
        case MissingId => None
  }

  /** `updated_steps`, or `None` when some step raises. */
  function RemappedSteps(steps: seq<Json>, acts: seq<Activity>, l: Lookups): Option<seq<Json>> {
    Applied(steps, Rewrites(steps, acts, l))
  }

  /** `b` is `a` with at most its `id` entry changed. */
  ghost predicate OnlyIdChanged(a: Json, b: Json) {
    forall k :: k != "id" ==> Get(b, k) == Get(a, k)
  }

  /**
   * Applying the rewrites fails exactly when one of them raises; otherwise
   * every step stays in place, renamed steps carry their new id, and no
   * other entry of any step changes.
   */
  lemma {:induction false} AppliedShape(steps: seq<Json>, rewrites: seq<Rewrite>)
    requires |rewrites| == |steps|
    ensures Applied(steps, rewrites).None? <==> exists i :: 0 <= i < |steps| && rewrites[i] == MissingId
    ensures Applied(steps, rewrites).Some? ==>
              var r := Applied(steps, rewrites).value;
              |r| == |steps|
              && (forall i :: 0 <= i < |steps| ==> OnlyIdChanged(steps[i], r[i]))
              && (forall i :: 0 <= i < |steps| && rewrites[i] == Keep ==> r[i] == steps[i])
              && (forall i :: 0 <= i < |steps| && rewrites[i].Rename? && steps[i].Obj? ==>
                    Get(r[i], "id") == rewrites[i].id)
  {
    if |steps| > 0 {
      var last := |steps| - 1;
      var init := steps[..last];
      var initRewrites := rewrites[..last];
      AppliedShape(init, initRewrites);
      assert forall i :: 0 <= i < last ==> steps[i] == init[i] && rewrites[i] == initRewrites[i];
      if Applied(init, initRewrites).None? {
        var i :| 0 <= i < last && initRewrites[i] == MissingId;
      } else if rewrites[last].Rename? {
        assert OnlyIdChanged(steps[last], Set(steps[last], "id", rewrites[last].id));
      }
    }
  }

  /**
   * The step loop fails exactly when some step raises; otherwise it keeps
   * the steps in order, changing at most their ids.
   */
  lemma RemappedStepsShape(steps: seq<Json>, acts: seq<Activity>, l: Lookups)
    ensures RemappedSteps(steps, acts, l).None? <==>
              exists i :: 0 <= i < |steps| && RemapStep(steps[i], acts, l) == MissingId
    ensures RemappedSteps(steps, acts, l).Some? ==>
              var r := RemappedSteps(steps, acts, l).value;
              |r| == |steps|
              && (forall i :: 0 <= i < |steps| ==> OnlyIdChanged(steps[i], r[i]))
              && (forall i :: 0 <= i < |steps| && RemapStep(steps[i], acts, l) == Keep ==> r[i] == steps[i])
              && (forall i :: 0 <= i < |steps| && RemapStep(steps[i], acts, l).Rename? && steps[i].Obj? ==>
                    Get(r[i], "id") == RemapStep(steps[i], acts, l).id)
  {
    AppliedShape(steps, Rewrites(steps, acts, l));
  }

  /** One step with its rewrite applied; a raising rewrite has no result. */
  function ApplyOne(step: Json, rewrite: Rewrite): Json
    requires rewrite != MissingId
  {
    if rewrite.Rename? then Set(step, "id", rewrite.id) else step
  }

  /** Applying one more rewrite extends the result by that step. */
  lemma AppliedStep(steps: seq<Json>, rewrites: seq<Rewrite>, i: nat, updated: seq<Json>)
    requires |rewrites| == |steps| && i < |steps|
    requires Applied(steps[..i], rewrites[..i]) == Some(updated) && rewrites[i] != MissingId
    ensures Applied(steps[..i + 1], rewrites[..i + 1]) == Some(updated + [ApplyOne(steps[i], rewrites[i])])
  {
    assert steps[..i + 1][..i] == steps[..i];
    assert rewrites[..i + 1][..i] == rewrites[..i];
  }

  /** A prefix that raises makes the whole application raise. */
  lemma {:induction false} AppliedFailPrefix(steps: seq<Json>, rewrites: seq<Rewrite>, k: nat)
    requires |rewrites| == |steps| && k <= |steps| && Applied(steps[..k], rewrites[..k]).None?
    ensures Applied(steps, rewrites).None?
    decreases |steps| - k
  {
    if k < |steps| {
      assert steps[..k + 1][..k] == steps[..k];
      assert rewrites[..k + 1][..k] == rewrites[..k];
      AppliedFailPrefix(steps, rewrites, k + 1);
    } else {
      assert steps[..k] == steps && rewrites[..k] == rewrites;
    }
  }

  /** A step whose rewrite raises makes the whole application raise. */
  lemma AppliedMissing(steps: seq<Json>, rewrites: seq<Rewrite>, i: nat, updated: seq<Json>)
    requires |rewrites| == |steps| && i < |steps|
    requires Applied(steps[..i], rewrites[..i]) == Some(updated) && rewrites[i] == MissingId
    ensures Applied(steps, rewrites).None?
  {
    assert steps[..i + 1][..i] == steps[..i];
    assert rewrites[..i + 1][..i] == rewrites[..i];
    AppliedFailPrefix(steps, rewrites, i + 1);
  }

  /** The loop body computes `RemapStep` from the activity map and the endpoint index. */
  lemma RewriteFromTables(steps: seq<Json>, i: nat, acts: seq<Activity>, activityOf: map<nat, nat>,
                          index: map<(Json, Json), seq<Json>>, l: Lookups)
    requires i < |steps| && IsActivityMap(activityOf, steps, acts) && IsEndpointIndex(index, l.endpoints)
    ensures var activity := if i in activityOf && activityOf[i] < |acts| then Some(acts[activityOf[i]]) else None;
      StepRewrite(steps[i], activity, IsNetSuiteOperation(acts), l, CandidatesIn(index)) == RemapStep(steps[i], acts, l)
  {
    CandidatesInIndex(index, l.endpoints);
    if Get(steps[i], "type") == Num(500) {
      assert IsEndpointOrScript(steps[i]);
    }
  }

  /** The body of the step loop: the step's activity from the map, then its rewrite. */
  method RewriteAt(steps: seq<Json>, i: nat, acts: seq<Activity>, activityOf: map<nat, nat>,
                   index: map<(Json, Json), seq<Json>>, l: Lookups, netSuiteOperation: bool, candidates: CandidateLists)
    returns (rewrite: Rewrite)
    requires i < |steps| && IsActivityMap(activityOf, steps, acts) && IsEndpointIndex(index, l.endpoints)
    requires netSuiteOperation == IsNetSuiteOperation(acts) && candidates == CandidatesIn(index)
    ensures rewrite == RemapStep(steps[i], acts, l)
  {
    var activity := None;
    if i in activityOf && activityOf[i] < |acts| {
      activity := Some(acts[activityOf[i]]);
    }
    RewriteFromTables(steps, i, acts, activityOf, index, l);
    rewrite := StepRewrite(steps[i], activity, netSuiteOperation, l, candidates);
  }

  /** The step loop: every step rewritten in order, stopping at the first that raises. */
  method RemapStepList(steps: seq<Json>, acts: seq<Activity>, activityOf: map<nat, nat>,
                       index: map<(Json, Json), seq<Json>>, l: Lookups)
    returns (r: Option<seq<Json>>)
    requires IsActivityMap(activityOf, steps, acts) && IsEndpointIndex(index, l.endpoints)
    ensures r == RemappedSteps(steps, acts, l)
  {
    var candidates := CandidatesIn(index);
    var netSuiteOperation := IsNetSuiteOperation(acts);
    ghost var rewrites := Rewrites(steps, acts, l);
    var updated := [];
    for i := 0 to |steps|
      invariant Applied(steps[..i], rewrites[..i]) == Some(updated)
    {
      var rewrite := RewriteAt(steps, i, acts, activityOf, index, l, netSuiteOperation, candidates);
      assert rewrite == rewrites[i];
      if rewrite == MissingId {
        AppliedMissing(steps, rewrites, i, updated);
        return None;
      }
      AppliedStep(steps, rewrites, i, updated);
      updated := updated + [ApplyOne(steps[i], rewrite)];
    }
    assert steps[..|steps|] == steps && rewrites[..|steps|] == rewrites;
    return Some(updated);
  }

  // ---------------------------------------------------------------------
  // Operations

  /** Every element is a dict; `.get` on anything else raises. */
  predicate AllDicts(xs: seq<Json>) {
    forall x :: x in xs ==> x.Obj?
  }

  /** What `create_operation` returns for a JPK operation, which carries no properties. */
  function CreatedOperation(jop: JpkOperation, existing: set<string>, outcomeId: string): OperationFactory.Operation {
    OperationFactory.Operation(
      jop.id, jop.name, OperationFactory.StepsFor(jop.activities, Some(existing)),
      if jop.failureOperationId.Some? && jop.failureOperationId.value != ""
      then OperationFactory.CreateOutcomes(jop.failureOperationId.value, outcomeId) else [],
      None)
  }

  /** The operation dict with its steps replaced by the rewritten ones, or `None` when a step raises. */
  function WithRemappedSteps(created: Json, acts: seq<Activity>, l: Lookups): Option<Json> {
    match RemappedSteps(AsList(Get(created, "steps")), acts, l)
    case None => None
    case Some(steps) => Some(Set(created, "steps", Arr(steps)))
  }

  /** One JPK operation converted, or `None` when its conversion raises and it is skipped. */
  function ConvertedOperation(jop: JpkOperation, l: Lookups, existing: set<string>, outcomeId: string): Option<Json> {
    if !AllDicts(l.endpoints) || !AllDicts(l.scripts) then None
    else WithRemappedSteps(CreatedOperation(jop, existing, outcomeId).ToJson(), jop.activities, l)
  }

  /** Replacing the steps keeps every other entry and changes at most the steps' ids. */
  lemma WithRemappedStepsShape(created: Json, acts: seq<Activity>, l: Lookups)
    requires created.Obj?
    ensures var r := WithRemappedSteps(created, acts, l);
      var steps := AsList(Get(created, "steps"));
      && (r.None? <==> exists i :: 0 <= i < |steps| && RemapStep(steps[i], acts, l) == MissingId)
      && (r.Some? ==>
            (forall k :: k != "steps" ==> Get(r.value, k) == Get(created, k))
            && |AsList(Get(r.value, "steps"))| == |steps|
            && forall i :: 0 <= i < |steps| ==> OnlyIdChanged(steps[i], AsList(Get(r.value, "steps"))[i]))
  {
    RemappedStepsShape(AsList(Get(created, "steps")), acts, l);
  }

  /** The factory's dict carries the operation's type, id, name and steps. */
  lemma OperationFields(op: OperationFactory.Operation)
    requires op.properties.None?
    ensures var created := op.ToJson();
      created.Obj? && Get(created, "type") == Num(200) && Get(created, "id") == Str(op.id)
      && Get(created, "name") == Str(op.name)
      && AsList(Get(created, "steps")) == OperationFactory.StepsToJson(op.steps)
  {
  }

  /**
   * A converted operation keeps the JPK operation's id and name and the
   * factory's steps, in order, changing at most their ids; it is skipped
   * exactly when an endpoint or script is not a dict or a step raises.
   */
  lemma ConvertedOperationShape(jop: JpkOperation, l: Lookups, existing: set<string>, outcomeId: string)
    ensures var r := ConvertedOperation(jop, l, existing, outcomeId);
      var steps := OperationFactory.StepsToJson(OperationFactory.StepsFor(jop.activities, Some(existing)));
      && (r.None? <==> !AllDicts(l.endpoints) || !AllDicts(l.scripts)
                       || exists i :: 0 <= i < |steps| && RemapStep(steps[i], jop.activities, l) == MissingId)
      && (r.Some? ==>
            Get(r.value, "type") == Num(200) && Get(r.value, "id") == Str(jop.id)
            && Get(r.value, "name") == Str(jop.name)
            && |AsList(Get(r.value, "steps"))| == |steps|
            && forall i :: 0 <= i < |steps| ==> OnlyIdChanged(steps[i], AsList(Get(r.value, "steps"))[i]))
  {
    var created := CreatedOperation(jop, existing, outcomeId);
    OperationFields(created);
    WithRemappedStepsShape(created.ToJson(), jop.activities, l);
  }

  /** The converted values of the present options, in order. */
  function Present(results: seq<Option<Json>>): seq<Json> {
    if |results| == 0 then []
    else
      var prev := Present(results[..|results| - 1]);
      match results[|results| - 1]
      case None => prev
      case Some(op) => prev + [op]
  }

  /** Every present value comes from some option, and with none missing there is one per option. */
  lemma {:induction false} PresentKept(results: seq<Option<Json>>)
    ensures |Present(results)| <= |results|
    ensures forall o :: o in Present(results) ==> exists i :: 0 <= i < |results| && results[i] == Some(o)
    ensures (forall i :: 0 <= i < |results| ==> results[i].Some?) ==>
              |Present(results)| == |results|
              && forall i :: 0 <= i < |results| ==> results[i] == Some(Present(results)[i])
  {
    if |results| > 0 {
      var last := |results| - 1;
      var init := results[..last];
      PresentKept(init);
      assert forall i :: 0 <= i < last ==> results[i] == init[i];
      forall o | o in Present(results) ensures exists i :: 0 <= i < |results| && results[i] == Some(o) {
        if o in Present(init) {
          var i :| 0 <= i < last && init[i] == Some(o);
          assert results[i] == Some(o);
        }
      }
    }
  }

  /** One more option adds its value, if present. */
  lemma PresentStep(results: seq<Option<Json>>, i: nat)
    requires i < |results|
    ensures Present(results[..i + 1]) == Present(results[..i]) + (if results[i].Some? then [results[i].value] else [])
  {
    assert results[..i + 1][..i] == results[..i];
  }

  /** The conversion of every JPK operation, in order. */
  function Conversions(jops: seq<JpkOperation>, l: Lookups, existing: set<string>, outcomeIds: seq<string>): (r: seq<Option<Json>>)
    requires |outcomeIds| == |jops|
    ensures |r| == |jops|
    ensures forall i :: 0 <= i < |jops| ==> r[i] == ConvertedOperation(jops[i], l, existing, outcomeIds[i])
  {
    seq(|jops|, i requires 0 <= i < |jops| => ConvertedOperation(jops[i], l, existing, outcomeIds[i]))
  }

  /** `operations`: the converted operations, in order, skipping those that raise. */
  function ConvertedOperations(jops: seq<JpkOperation>, l: Lookups, existing: set<string>, outcomeIds: seq<string>): seq<Json>
    requires |outcomeIds| == |jops|
  {
    Present(Conversions(jops, l, existing, outcomeIds))
  }

  /**
   * Every output operation is the conversion of some JPK operation, and
   * when none raises there is one per JPK operation, in the same order.
   */
  lemma ConvertedOperationsKept(jops: seq<JpkOperation>, l: Lookups, existing: set<string>, outcomeIds: seq<string>)
    requires |outcomeIds| == |jops|
    ensures var r := ConvertedOperations(jops, l, existing, outcomeIds);
      && |r| <= |jops|
      && (forall o :: o in r ==>
            exists i :: 0 <= i < |jops| && ConvertedOperation(jops[i], l, existing, outcomeIds[i]) == Some(o))
      && ((forall i :: 0 <= i < |jops| ==> ConvertedOperation(jops[i], l, existing, outcomeIds[i]).Some?) ==>
            |r| == |jops|
            && forall i :: 0 <= i < |jops| ==> ConvertedOperation(jops[i], l, existing, outcomeIds[i]) == Some(r[i]))
  {
    PresentKept(Conversions(jops, l, existing, outcomeIds));
  }

  /** The body of the operation loop: create the operation, build the lookups, rewrite its steps. */
  method ConvertOperation(jop: JpkOperation, l: Lookups, existing: set<string>, outcomeId: string)
    returns (r: Option<Json>)
    ensures r == ConvertedOperation(jop, l, existing, outcomeId)
  {
    var operation := OperationFactory.CreateOperation(
      jop.id, jop.name, jop.activities, map[], jop.failureOperationId, Some(existing), outcomeId);
    assert operation == CreatedOperation(jop, existing, outcomeId);
    if !AllDicts(l.endpoints) || !AllDicts(l.scripts) {
      return None;
    }
    var index := IndexEndpoints(l.endpoints);
    var created := operation.ToJson();
    var steps := AsList(Get(created, "steps"));
    var activityOf := MapStepsToActivities(steps, jop.activities);
    var updated := RemapStepList(steps, jop.activities, activityOf, index, l);
    if updated.None? {
      return None;
    }
    return Some(Set(created, "steps", Arr(updated.value)));
  }

  /**
   * `_convert_operations`: the transformation tables, then one converted
   * operation per JPK operation that does not raise. `outcomeIds` supplies
   * the fresh uuid each operation's failure outcome would take.
   */
  method ConvertOperations(jops: seq<JpkOperation>, transformations: seq<Json>, endpoints: seq<Json>,
                           scripts: seq<Json>, contentIds: map<string, string>, outcomeIds: seq<string>)
    returns (operations: seq<Json>)
    requires |outcomeIds| == |jops|
    ensures operations == ConvertedOperations(jops, LookupsFor(transformations, endpoints, scripts, contentIds),
                                              ExistingContentIds(transformations), outcomeIds)
  {
    var ids, existing := IndexTransformations(transformations);
    var l := Lookups(ids, endpoints, scripts, contentIds);
    ghost var results := Conversions(jops, l, existing, outcomeIds);
    operations := [];
    for i := 0 to |jops|
      invariant operations == Present(results[..i])
    {
      PresentStep(results, i);
      var converted := ConvertOperation(jops[i], l, existing, outcomeIds[i]);
      if converted.Some? {
        operations := operations + [converted.value];
      }
    }
    assert results[..|jops|] == results;
  }
}
