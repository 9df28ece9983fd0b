/**
 * The records the JPK extractor produces from an archive and hands to the
 * factories: pipeline activities and operations. Every attribute the
 * extractor reads with a default of `''` is a plain string here.
 */
module JpkRecords {
  import opened Wrappers

  /** One `<Activity>` of an operation pipeline. */
  datatype Activity = Activity(
    activityId: string,
    activityType: string,
    role: string,
    name: string,
    contentId: string)

  /** One operation file: header id and name, its activities and its failure link. */
  datatype JpkOperation = JpkOperation(
    id: string,
    name: string,
    activities: seq<Activity>,
    failureOperationId: Option<string>)
}
