/** The grouping of a goal's paths into units that one planner call can plan. */
module TrajectoryGrouper {
  import opened Paths
  import opened Sequences
  import opened Wrappers

  function EffectiveBlendRadius(path: Path): real {
    if path.motion == PTP then 0.0 else path.blendRadius
  }

  /** A group boundary belongs between `p` and its successor `q`. */
  predicate Breaks(p: Path, q: Path) {
    q.motion == PTP || EffectiveBlendRadius(p) <= 0.0
  }

  ghost predicate NonEmptyParts(groups: seq<seq<Path>>) {
    forall k :: 0 <= k < |groups| ==> groups[k] != []
  }

  ghost predicate UnbrokenInside(groups: seq<seq<Path>>) {
    forall k, j :: 0 <= k < |groups| && 0 <= j < |groups[k]| - 1 ==> !Breaks(groups[k][j], groups[k][j + 1])
  }

  ghost predicate BrokenBetween(groups: seq<seq<Path>>)
    requires NonEmptyParts(groups)
  {
    forall k {:trigger groups[k]} :: 0 <= k < |groups| - 1 ==> Breaks(Last(groups[k]), groups[k + 1][0])
  }

  /** What a grouping is, without saying how to compute one. */
  ghost predicate IsGrouping(paths: seq<Path>, groups: seq<seq<Path>>) {
    && NonEmptyParts(groups)
    && Flatten(groups) == paths
    && UnbrokenInside(groups)
    && BrokenBetween(groups)
  }

  /** The in-place loop: each path joins the last group or opens a new one. */
  method Group(paths: seq<Path>) returns (r: Result<seq<seq<Path>>, GoalError>)
    ensures r.Failure? <==> paths == []
    ensures r.Success? ==> IsGrouping(paths, r.value)
  {
    if paths == [] {
      return Failure(NoPaths);
    }
    var groups: seq<seq<Path>> := [];
    for i := 0 to |paths|
      invariant i > 0 ==> groups != []
      invariant IsGrouping(paths[..i], groups)
    {
      var path := paths[i];
      assert paths[..i + 1] == paths[..i] + [path];
      if i == 0 {
        OpenGroup(paths[..i], groups, path);
        groups := groups + [[path]];
      } else if path.motion == PTP {
        OpenGroup(paths[..i], groups, path);
        groups := groups + [[path]];
      } else if EffectiveBlendRadius(Last(Last(groups))) > 0.0 {
        JoinGroup(paths[..i], groups, path);
        groups := groups[|groups| - 1 := Last(groups) + [path]];
      } else {
        OpenGroup(paths[..i], groups, path);
        groups := groups + [[path]];
      }
    }
    assert paths[..|paths|] == paths;
    return Success(groups);
  }

  lemma OpenGroup(paths: seq<Path>, groups: seq<seq<Path>>, path: Path)
    requires IsGrouping(paths, groups)
    requires groups != [] ==> Breaks(Last(Last(groups)), path)
    ensures IsGrouping(paths + [path], groups + [[path]])
  {
    FlattenSnoc(groups, [path]);
    hide Flatten, Breaks;
    var groups' := groups + [[path]];
    forall k, j | 0 <= k < |groups'| && 0 <= j < |groups'[k]| - 1
      ensures !Breaks(groups'[k][j], groups'[k][j + 1])
    {
      assert groups'[k] == groups[k];
    }
    forall k | 0 <= k < |groups'| - 1
      ensures Breaks(Last(groups'[k]), groups'[k + 1][0])
    {
      assert groups'[k] == groups[k];
      assert k + 1 < |groups| ==> groups'[k + 1] == groups[k + 1];
    }
  }

  lemma JoinFlattens<T>(parts: seq<seq<T>>, x: T)
    requires parts != []
    ensures Flatten(parts[|parts| - 1 := Last(parts) + [x]]) == Flatten(parts) + [x]
  {
    var init, part := parts[..|parts| - 1], Last(parts);
    assert parts == init + [part] && parts[|parts| - 1 := part + [x]] == init + [part + [x]];
    FlattenSnoc(init, part);
    FlattenSnoc(init, part + [x]);
    assert Flatten(init) + (part + [x]) == (Flatten(init) + part) + [x];
  }

  lemma JoinGroup(paths: seq<Path>, groups: seq<seq<Path>>, path: Path)
    requires IsGrouping(paths, groups) && groups != []
    requires !Breaks(Last(Last(groups)), path)
    ensures IsGrouping(paths + [path], groups[|groups| - 1 := Last(groups) + [path]])
  {
    var g := Last(groups);
    var groups' := groups[|groups| - 1 := g + [path]];
    var init := groups[..|groups| - 1];
    JoinFlattens(groups, path);
    forall k, j | 0 <= k < |groups'| && 0 <= j < |groups'[k]| - 1
      ensures !Breaks(groups'[k][j], groups'[k][j + 1])
    {
      if k < |init| {
        assert groups'[k] == groups[k];
      } else if j < |g| - 1 {
        assert !Breaks(groups[k][j], groups[k][j + 1]);
      }
    }
    forall k | 0 <= k < |groups'| - 1
      ensures Breaks(Last(groups'[k]), groups'[k + 1][0])
    {
      assert groups'[k] == groups[k] && groups'[k + 1][0] == groups[k + 1][0];
    }
  }

  /** Dropping the first group leaves a grouping of the paths that remain. */
  lemma DropFirst(paths: seq<Path>, groups: seq<seq<Path>>)
    requires IsGrouping(paths, groups) && groups != []
    ensures |groups[0]| <= |paths| && paths[..|groups[0]|] == groups[0]
    ensures IsGrouping(paths[|groups[0]|..], groups[1..])
  {
    assert paths == groups[0] + Flatten(groups[1..]);
    var rest := groups[1..];
    forall k, j | 0 <= k < |rest| && 0 <= j < |rest[k]| - 1
      ensures !Breaks(rest[k][j], rest[k][j + 1])
    {
      assert rest[k] == groups[k + 1];
    }
    forall k | 0 <= k < |rest| - 1
      ensures Breaks(Last(rest[k]), rest[k + 1][0])
    {
      assert rest[k] == groups[k + 1] && rest[k + 1] == groups[k + 2];
    }
  }

  /** Read off the paths alone: the first group ends exactly where the first break is. */
  lemma FirstGroupEndsAtBreak(paths: seq<Path>, g: seq<seq<Path>>)
    requires IsGrouping(paths, g) && g != []
    ensures 0 < |g[0]| <= |paths|
    ensures forall n :: 0 < n < |g[0]| ==> !Breaks(paths[n - 1], paths[n])
    ensures |g[0]| < |paths| ==> Breaks(paths[|g[0]| - 1], paths[|g[0]|])
  {
    DropFirst(paths, g);
    forall n | 0 < n < |g[0]|
      ensures !Breaks(paths[n - 1], paths[n])
    {
      assert !Breaks(g[0][n - 1], g[0][n - 1 + 1]);
      assert g[0][n - 1] == paths[n - 1] && g[0][n] == paths[n];
    }
    if |g[0]| < |paths| {
      DropFirst(paths[|g[0]|..], g[1..]);
      assert Breaks(Last(g[0]), g[0 + 1][0]);
      assert g[1][0] == paths[|g[0]|..][0];
    }
  }

  /** The boundaries determine the groups: a list of paths has one grouping. */
  lemma {:induction false} GroupingIsUnique(paths: seq<Path>, g: seq<seq<Path>>, h: seq<seq<Path>>)
    requires IsGrouping(paths, g) && IsGrouping(paths, h)
    ensures g == h
    decreases |g|
  {
    if g == [] || h == [] {
      EmptyGrouping(paths, g);
      EmptyGrouping(paths, h);
    } else {
      FirstGroupEndsAtBreak(paths, g);
      FirstGroupEndsAtBreak(paths, h);
      DropFirst(paths, g);
      DropFirst(paths, h);
      GroupingIsUnique(paths[|g[0]|..], g[1..], h[1..]);
      assert g == [g[0]] + g[1..] && h == [h[0]] + h[1..];
    }
  }

  lemma EmptyGrouping(paths: seq<Path>, groups: seq<seq<Path>>)
    requires IsGrouping(paths, groups)
    ensures groups == [] <==> paths == []
  {
    if groups != [] {
      DropFirst(paths, groups);
    }
  }

  /** A PTP path never shares its group, so OMPL is always handed a single path. */
  lemma PtpIsAlone(paths: seq<Path>, groups: seq<seq<Path>>, k: nat, j: nat)
    requires IsGrouping(paths, groups)
    requires k < |groups| && j < |groups[k]| && groups[k][j].motion == PTP
    ensures groups[k] == [groups[k][j]]
  {
    var g := groups[k];
    assert forall i :: 0 <= i < |g| - 1 ==> !Breaks(g[i], g[i + 1]);
    assert j == 0 || !Breaks(g[j - 1], g[j - 1 + 1]);
    assert j == |g| - 1 || !Breaks(g[j], g[j + 1]);
  }
}
