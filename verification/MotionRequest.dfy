/** The PILZ request for one group, and why the groups of a goal always give an acceptable one. */
module MotionRequest {
  import opened Paths
  import opened PlannerReplies
  import opened Sequences
  import opened TrajectoryGrouper
  import opened Wrappers

  /** The parts of a sequence item that depend on its place in the group. */
  datatype MotionItem = MotionItem(pathId: string, planner: MotionType, blendRadius: real, start: Option<RobotState>)

  /** What PILZ accepts: no PTP, a blend between neighbours and none at the end, one start state. */
  ghost predicate Acceptable(items: seq<MotionItem>) {
    && items != []
    && items[0].start.Some?
    && Last(items).blendRadius == 0.0
    && (forall i :: 0 <= i < |items| ==> items[i].planner != PTP)
    && (forall i :: 0 <= i < |items| - 1 ==> items[i].blendRadius > 0.0)
    && (forall i :: 1 <= i < |items| ==> items[i].start.None?)
  }

  /** The items carry the group, in order, from `start`, with the requested blends except the last. */
  ghost predicate Encodes(items: seq<MotionItem>, group: seq<Path>, start: RobotState) {
    && |items| == |group|
    && (forall i :: 0 <= i < |items| ==> items[i].pathId == group[i].pathId && items[i].planner == group[i].motion)
    && (forall i :: 0 <= i < |items| - 1 ==> items[i].blendRadius == group[i].blendRadius)
    && (items != [] ==> Last(items).blendRadius == 0.0 && items[0].start == Some(start))
    && (forall i :: 1 <= i < |items| ==> items[i].start == None)
  }

  /** The request-building loop. The start-state check of the source never fails. */
  method GenerateMotionSequenceRequest(group: seq<Path>, start: RobotState) returns (items: seq<MotionItem>)
    ensures Encodes(items, group, start)
  {
    items := [];
    for i := 0 to |group|
      invariant |items| == i
      invariant forall j :: 0 <= j < i ==> items[j].pathId == group[j].pathId && items[j].planner == group[j].motion
      invariant forall j :: 0 <= j < i ==> items[j].blendRadius == if j < |group| - 1 then group[j].blendRadius else 0.0
      invariant forall j :: 0 <= j < i ==> items[j].start == if j == 0 then Some(start) else None
    {
      var path := group[i];
      var item := MotionItem(path.pathId, path.motion, if i < |group| - 1 then path.blendRadius else 0.0, None);
      if i == 0 {
        item := item.(start := Some(start));
      }
      items := items + [item];
    }
  }

  /** Every group that is routed to PILZ gives a request that PILZ accepts. */
  lemma GroupedRequestIsAcceptable(paths: seq<Path>, groups: seq<seq<Path>>, k: nat, items: seq<MotionItem>,
                                   start: RobotState)
    requires IsGrouping(paths, groups) && k < |groups| && SelectService(groups[k]) == Pilz
    requires Encodes(items, groups[k], start)
    ensures Acceptable(items)
  {
    forall i | 0 <= i < |items|
      ensures items[i].planner != PTP
    {
      if groups[k][i].motion == PTP {
        PtpIsAlone(paths, groups, k, i);
      }
    }
    forall i | 0 <= i < |items| - 1
      ensures items[i].blendRadius > 0.0
    {
      assert !Breaks(groups[k][i], groups[k][i + 1]);
    }
  }

  /**
   A positive blend that the client asked for is dropped exactly when the path is the goal's last or
   the next path is a PTP.
   */
  lemma BlendDroppedIff(paths: seq<Path>, groups: seq<seq<Path>>, k: nat, j: nat, items: seq<MotionItem>,
                        start: RobotState)
    requires IsGrouping(paths, groups) && k < |groups| && j < |groups[k]|
    requires Encodes(items, groups[k], start)
    requires groups[k][j].motion != PTP && groups[k][j].blendRadius > 0.0
    ensures var n := Position(groups, k, j);
      && n < |paths| && paths[n] == groups[k][j]
      && (items[j].blendRadius == 0.0 <==> n + 1 == |paths| || paths[n + 1].motion == PTP)
      && (items[j].blendRadius != 0.0 ==> items[j].blendRadius == paths[n].blendRadius)
  {
    PositionFinds(groups, k, j);
    var n := Position(groups, k, j);
    if j + 1 < |groups[k]| {
      PositionFinds(groups, k, j + 1);
      assert !Breaks(groups[k][j], groups[k][j + 1]);
      assert paths[n + 1] == groups[k][j + 1];
    } else if k + 1 < |groups| {
      PositionFinds(groups, k + 1, 0);
      assert Breaks(Last(groups[k]), groups[k + 1][0]);
      assert paths[n + 1] == groups[k + 1][0];
    }
  }
}
