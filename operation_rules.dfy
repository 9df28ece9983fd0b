/**
 * Rules for turning pipeline activities into operation steps: the step
 * type of an activity, the id a step refers to, and which activities carry
 * script content.
 */
module OperationRules {
  import opened Strings
  import opened Wrappers
  import opened JpkRecords

  /** `ACTIVITY_ROLE_TO_STEP_TYPE`, keyed by the lower-cased role. */
  function RoleStepType(roleLower: string): Option<int> {
    if roleLower == "script" then Some(400)
    else if roleLower == "request" || roleLower == "response" then Some(700)
    else if roleLower == "source" || roleLower == "target" then Some(500)
    else None
  }

  /** `ACTIVITY_TYPE_TO_STEP_TYPE`, keyed by the activity type as text. */
  function ActivityTypeStepType(activityType: string): Option<int> {
    if activityType == "23" then Some(400)
    else if activityType == "4" then Some(700)
    else if activityType in {"2", "3", "232"} then Some(500)
    else None
  }

  predicate IsStepType(t: int) { t == 400 || t == 500 || t == 700 }

  /**
   * The step type of an activity: the role table (case-insensitive) first,
   * then the activity-type table, then 500.
   */
  function DetermineStepType(role: string, activityType: string): (r: int)
    ensures IsStepType(r)
    ensures RoleStepType(Lower(role)).Some? ==> r == RoleStepType(Lower(role)).value
    ensures RoleStepType(Lower(role)).None? && ActivityTypeStepType(activityType).Some? ==>
      r == ActivityTypeStepType(activityType).value
    ensures RoleStepType(Lower(role)).None? && ActivityTypeStepType(activityType).None? ==> r == 500
  {
    var roleLower := Lower(role);
    match RoleStepType(roleLower)
    case Some(t) => t
    case None =>
      match ActivityTypeStepType(activityType)
      case Some(t) => t
      case None => 500
  }

  /** The role decides whenever it is one of the five known roles, whatever the type. */
  lemma RoleWinsOverType(role: string, type1: string, type2: string)
    requires Lower(role) in {"script", "request", "response", "source", "target"}
    ensures DetermineStepType(role, type1) == DetermineStepType(role, type2)
  {
  }

  /**
   * The id a step refers to: the content id (falling back to the activity id)
   * for transformations, the activity id (falling back to the content id)
   * otherwise.
   */
  function GetStepIdForActivity(activity: Activity, stepType: int): (r: string)
    ensures stepType == 700 && activity.contentId != "" ==> r == activity.contentId
    ensures stepType != 700 && activity.activityId != "" ==> r == activity.activityId
    ensures r == activity.contentId || r == activity.activityId
    ensures r == "" <==> activity.contentId == "" && activity.activityId == ""
  {
    if stepType == 700 then
      if activity.contentId != "" then activity.contentId else activity.activityId
    else
      if activity.activityId != "" then activity.activityId else activity.contentId
  }

  const DefaultOperationType: int := 3
  const OutcomeTypeSuccess: int := 200
  const OutcomeTypeError: int := 400

  /** Script content is extracted for activities with role `script` (any case) and type `23`. */
  predicate ShouldExtractScriptContent(activity: Activity) {
    Lower(activity.role) == "script" && activity.activityType == "23"
  }

  /**
   * Script content is extracted exactly for type `23` and a six-letter role
   * each of whose letters is the matching letter of `script` in lower or
   * upper case.
   */
  lemma ScriptRoleAnyCase(activity: Activity)
    ensures ShouldExtractScriptContent(activity) <==>
      activity.activityType == "23" && |activity.role| == 6
      && forall i :: 0 <= i < 6 ==> activity.role[i] == "script"[i] || activity.role[i] == "SCRIPT"[i]
  {
    var role := activity.role;
    if |role| == 6 {
      forall i | 0 <= i < 6
        ensures LowerChar(role[i]) == "script"[i] <==> role[i] == "script"[i] || role[i] == "SCRIPT"[i]
      {
      }
      if forall i :: 0 <= i < 6 ==> LowerChar(role[i]) == "script"[i] {
        assert Lower(role) == "script";
      }
    }
  }

  /** The archive path of a script file: `Data/Script/<content id>.xml`. */
  function GetScriptFilePath(contentId: string): (r: string)
    ensures IsPrefix("Data/Script/", r) && IsSuffix(".xml", r)
    ensures |r| == |contentId| + 16 && r[12..|r| - 4] == contentId
  {
    "Data/Script/" + contentId + ".xml"
  }
}
