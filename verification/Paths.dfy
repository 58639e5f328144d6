/** Trajectory paths and the validated goal that lists them. */
module Paths {
  import opened Wrappers

  datatype MotionType = LIN | CIRC | PTP

  /** One validated path; poses, speeds and frames are carried by MoveIt and never branch the protocol. */
  datatype Path = Path(pathId: string, motion: MotionType, blendRadius: real)

  datatype GoalError = NoPaths | DuplicateId(pathId: string)

  function Ids(paths: seq<Path>): (ids: seq<string>)
    ensures |ids| == |paths|
    ensures forall i :: 0 <= i < |paths| ==> ids[i] == paths[i].pathId
  {
    seq(|paths|, i requires 0 <= i < |paths| => paths[i].pathId)
  }

  predicate UniqueIds(paths: seq<Path>) {
    forall i, j :: 0 <= i < j < |paths| ==> paths[i].pathId != paths[j].pathId
  }

  /** Accepts exactly the non-empty lists without a repeated id, and returns them unchanged. */
  method ValidatePaths(paths: seq<Path>) returns (r: Result<seq<Path>, GoalError>)
    ensures r.Success? <==> paths != [] && UniqueIds(paths)
    ensures r.Success? ==> r.value == paths
    ensures r.Failure? && r.error.DuplicateId? ==>
              exists i, j :: 0 <= i < j < |paths| && paths[i].pathId == r.error.pathId == paths[j].pathId
  {
    if paths == [] {
      return Failure(NoPaths);
    }
    var seen: set<string> := {};
    for i := 0 to |paths|
      invariant forall k :: 0 <= k < i ==> paths[k].pathId in seen
      invariant forall id :: id in seen ==> exists k :: 0 <= k < i && paths[k].pathId == id
      invariant UniqueIds(paths[..i])
    {
      if paths[i].pathId in seen {
        return Failure(DuplicateId(paths[i].pathId));
      }
      seen := seen + {paths[i].pathId};
    }
    assert paths[..|paths|] == paths;
    return Success(paths);
  }
}
