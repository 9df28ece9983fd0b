/**
 * Type 200 operation components: the fixed fields of an operation, its
 * steps (one per usable activity, in pipeline order) and its failure outcome.
 */
module OperationFactory {
  import opened Wrappers
  import opened Strings
  import opened JsonValues
  import opened JpkRecords
  import OperationRules

  datatype Step = Step(id: string, stepType: int)

  datatype Outcome = Outcome(outcomeType: int, operationId: string, id: string)

  datatype Operation = Operation(
    id: string,
    name: string,
    steps: seq<Step>,
    outcomes: seq<Outcome>,
    properties: Option<map<string, Json>>)
  {
    const componentType: int := 200
    const operationType: int := 3
    const checksum: string := "1"
    const validationState: int := 100
    const metadataVersion: string := "3.0.1"

    /** The dict the factory returns. */
    function ToJson(): Json {
      var base := map[
        "type" := Num(200), "id" := Str(id), "name" := Str(name),
        "operationType" := Num(3), "checksum" := Str("1"),
        "validationState" := Num(100), "encryptedAtRest" := Bool(true),
        "hidden" := Bool(false), "chunks" := Num(1), "partial" := Bool(false),
        "requiresDeploy" := Bool(true), "metadataVersion" := Str("3.0.1"),
        "isNew" := Bool(false),
        "steps" := Arr(StepsToJson(steps)),
        "outcomes" := Arr(OutcomesToJson(outcomes))];
      if properties.Some? then Obj(base["properties" := Obj(properties.value)]) else Obj(base)
    }
  }

  function StepToJson(s: Step): Json {
    Obj(map["id" := Str(s.id), "type" := Num(s.stepType)])
  }

  function StepsToJson(steps: seq<Step>): (r: seq<Json>)
    ensures |r| == |steps|
    ensures forall i :: 0 <= i < |steps| ==> r[i] == StepToJson(steps[i])
  {
    seq(|steps|, i requires 0 <= i < |steps| => StepToJson(steps[i]))
  }

  function OutcomesToJson(outcomes: seq<Outcome>): (r: seq<Json>)
    ensures |r| == |outcomes|
  {
    seq(|outcomes|, i requires 0 <= i < |outcomes| =>
      Obj(map["outcomeType" := Num(outcomes[i].outcomeType),
              "operationId" := Str(outcomes[i].operationId),
              "id" := Str(outcomes[i].id)]))
  }

  /**
   * The factory's own role table, which never consults the activity type:
   * request/response 700, source/target 500, script 400, anything else 500.
   */
  function DetermineStepType(role: string, activityType: string): (r: int)
    ensures OperationRules.IsStepType(r)
    ensures r == 700 <==> Lower(role) in {"request", "response"}
    ensures r == 400 <==> Lower(role) == "script"
  {
    var roleLower := Lower(role);
    if roleLower in {"request", "response"} then 700
    else if roleLower in {"source", "target"} then 500
    else if roleLower == "script" then 400
    else 500
  }

  /**
   * The factory's table agrees with the shared rule table whenever the role is
   * one of the five known roles; for other roles the shared table consults the
   * activity type and the factory does not (an activity with no role and type
   * `4` is a transformation for one and an endpoint for the other).
   */
  lemma StepTypeTablesAgreeOnKnownRoles(role: string, activityType: string)
    ensures OperationRules.RoleStepType(Lower(role)).Some? ==>
      DetermineStepType(role, activityType) == OperationRules.DetermineStepType(role, activityType)
    ensures DetermineStepType("", "4") == 500 && OperationRules.DetermineStepType("", "4") == 700
  {
    assert Lower("") == "";
  }

  /** The step an activity yields, if any. */
  function StepFor(activity: Activity, existingTransformationIds: Option<set<string>>): (r: Option<Step>)
    ensures r.Some? ==> r.value.id != "" && OperationRules.IsStepType(r.value.stepType)
    ensures r.Some? ==> r.value.id == activity.contentId || r.value.id == activity.activityId
  {
    var role := Lower(activity.role);
    if role == "request" && existingTransformationIds.Some?
       && activity.contentId != "" && activity.contentId !in existingTransformationIds.value
    then None
    else
      var stepType := DetermineStepType(role, activity.activityType);
      var stepId := OperationRules.GetStepIdForActivity(activity, stepType);
      if stepId != "" then Some(Step(stepId, stepType)) else None
  }

  /** The steps of a pipeline: the activities' steps, in activity order. */
  function StepsFor(activities: seq<Activity>, existingTransformationIds: Option<set<string>>): seq<Step>
  {
    if |activities| == 0 then []
    else
      var prev := StepsFor(activities[..|activities| - 1], existingTransformationIds);
      match StepFor(activities[|activities| - 1], existingTransformationIds)
      case Some(s) => prev + [s]
      case None => prev
  }

  /** Steps of a concatenated pipeline are the concatenation of the steps. */
  lemma {:induction false} StepsForAppend(a: seq<Activity>, b: seq<Activity>, existing: Option<set<string>>)
    ensures StepsFor(a + b, existing) == StepsFor(a, existing) + StepsFor(b, existing)
    decreases |b|
  {
    if |b| == 0 {
      assert a + b == a;
    } else {
      var b' := b[..|b| - 1];
      assert (a + b)[..|a + b| - 1] == a + b';
      StepsForAppend(a, b', existing);
    }
  }

  /**
   * At most one step per activity, every step comes from some activity, and
   * an activity without a usable id or a request without a transformation
   * yields nothing.
   */
  lemma {:induction false} StepsForShape(activities: seq<Activity>, existing: Option<set<string>>)
    ensures |StepsFor(activities, existing)| <= |activities|
    ensures forall k :: 0 <= k < |StepsFor(activities, existing)| ==>
      exists i :: 0 <= i < |activities| && StepFor(activities[i], existing) == Some(StepsFor(activities, existing)[k])
  {
    if |activities| > 0 {
      var init := activities[..|activities| - 1];
      StepsForShape(init, existing);
      var steps := StepsFor(activities, existing);
      var prev := StepsFor(init, existing);
      forall k | 0 <= k < |steps|
        ensures exists i :: 0 <= i < |activities| && StepFor(activities[i], existing) == Some(steps[k])
      {
        if k < |prev| {
          var i :| 0 <= i < |init| && StepFor(init[i], existing) == Some(prev[k]);
          assert activities[i] == init[i];
        } else {
          assert StepFor(activities[|activities| - 1], existing) == Some(steps[k]);
        }
      }
    }
  }

  /** A request activity whose transformation is not among the existing ones yields no step. */
  lemma SkippedRequest(activity: Activity, existing: set<string>)
    requires Lower(activity.role) == "request"
    requires activity.contentId != "" && activity.contentId !in existing
    ensures StepFor(activity, Some(existing)) == None
    ensures StepsFor([activity], Some(existing)) == []
  {
  }

  /** `_map_activities_to_steps`: one pass over the activities, appending steps. */
  method MapActivitiesToSteps(activities: seq<Activity>, existingTransformationIds: Option<set<string>>)
    returns (steps: seq<Step>)
    ensures steps == StepsFor(activities, existingTransformationIds)
  {
    steps := [];
    var i := 0;
    while i < |activities|
      invariant 0 <= i <= |activities|
      invariant steps == StepsFor(activities[..i], existingTransformationIds)
    {
      var activity := activities[i];
      var role := Lower(activity.role);
      var skip := role == "request" && existingTransformationIds.Some?
        && activity.contentId != "" && activity.contentId !in existingTransformationIds.value;
      if !skip {
        var stepType := DetermineStepType(role, activity.activityType);
        var stepId := if stepType == 700 then
            (if activity.contentId != "" then activity.contentId else activity.activityId)
          else
            (if activity.activityId != "" then activity.activityId else activity.contentId);
        if stepId != "" {
          steps := steps + [Step(stepId, stepType)];
        }
      }
      assert activities[..i + 1][..i] == activities[..i];
      i := i + 1;
    }
    assert activities[..i] == activities;
  }

  /** `_create_outcomes`: one failure outcome; its id is a fresh uuid supplied by the caller. */
  function CreateOutcomes(failureOperationId: string, outcomeId: string): (r: seq<Outcome>)
    ensures |r| == 1 && r[0].outcomeType == 200 && r[0].operationId == failureOperationId
  {
    [Outcome(200, failureOperationId, outcomeId)]
  }

  /**
   * `create_operation`: the fixed fields, then steps when there are
   * activities, outcomes when there is a failure operation, and properties
   * when a non-empty dict is given.
   */
  method CreateOperation(
    operationId: string,
    operationName: string,
    activities: seq<Activity>,
    properties: map<string, Json>,
    failureOperationId: Option<string>,
    existingTransformationIds: Option<set<string>>,
    outcomeId: string)
    returns (op: Operation)
    ensures op.id == operationId && op.name == operationName
    ensures op.steps == StepsFor(activities, existingTransformationIds)
    ensures op.outcomes == (if failureOperationId.Some? && failureOperationId.value != ""
                            then CreateOutcomes(failureOperationId.value, outcomeId) else [])
    ensures op.properties == (if |properties| > 0 then Some(properties) else None)
  {
    op := Operation(operationId, operationName, [], [], None);
    if |activities| > 0 {
      var steps := MapActivitiesToSteps(activities, existingTransformationIds);
      op := op.(steps := steps);
    }
    if failureOperationId.Some? && failureOperationId.value != "" {
      op := op.(outcomes := CreateOutcomes(failureOperationId.value, outcomeId));
    }
    if |properties| > 0 {
      op := op.(properties := Some(properties));
    }
  }
}
