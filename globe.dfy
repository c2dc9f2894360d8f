/** The overlays the globe view derives from the constellation and its own
    settings: the balloon points of one hour, the selection filter, the
    altitude "arcs" and the trajectory paths, together with the view's
    settings and the two click handlers that change the selection. */
module Globe {
  import opened DashboardTypes
  import opened Snapshots

  /** A balloon marker; `id` is the balloon's index in its snapshot. */
  datatype BalloonPoint = BalloonPoint(id: nat, lat: real, lng: real, alt: real)

  /** One vertex of a trajectory path. */
  datatype PathPoint = PathPoint(lat: real, lng: real, alt: real)

  /** An altitude indicator: a segment from (startLat, startLng) to
      (endLat, endLng) drawn at height `endAlt`. */
  datatype ArcData = ArcData(startLat: real, startLng: real, endLat: real, endLng: real, endAlt: real)

  /** The hour whose snapshot is shown: hour 0 in all-hours mode. */
  function DisplayHour(showAllHours: bool, selectedHour: int): int
  {
    if showAllHours then 0 else selectedHour
  }

  /** The marker for entry `index` of a snapshot. */
  function ToBalloonPoint(index: nat, position: Position, altitudeScale: real): BalloonPoint
    requires altitudeScale > 0.0
  {
    BalloonPoint(index, position.lat, position.lng, position.alt / altitudeScale)
  }

  /** `currentBalloons`: the markers of the displayed hour's snapshot. */
  function CurrentBalloons(c: seq<BalloonData>, selectedHour: int, showAllHours: bool, altitudeScale: real): (r: seq<BalloonPoint>)
    requires altitudeScale > 0.0
    ensures forall k :: 0 <= k < |r| ==> r[k].id == k
    ensures (forall i :: 0 <= i < |c| ==> c[i].hour != DisplayHour(showAllHours, selectedHour)) ==> r == []
    ensures forall i :: IsFirstOfHour(c, DisplayHour(showAllHours, selectedHour), i) ==>
              |r| == |c[i].data| &&
              forall k :: 0 <= k < |r| ==> r[k] == ToBalloonPoint(k, c[i].data[k], altitudeScale)
  {
    match FindHour(c, DisplayHour(showAllHours, selectedHour))
    case None => []
    case Some(hourData) =>
      FirstOfHourUnique(c, DisplayHour(showAllHours, selectedHour), hourData);
      seq(|hourData.data|, k requires 0 <= k < |hourData.data| => ToBalloonPoint(k, hourData.data[k], altitudeScale))
  }

  /** The first snapshot of an hour is unique. */
  lemma FirstOfHourUnique(c: seq<BalloonData>, h: int, b: BalloonData)
    requires exists i :: 0 <= i < |c| && c[i] == b && IsFirstOfHour(c, h, i)
    ensures forall i :: IsFirstOfHour(c, h, i) ==> c[i] == b
  {
  }

  /** The markers of `points` whose id is `id` (`filter(b => b.id === id)`). */
  function WithId(points: seq<BalloonPoint>, id: nat): (r: seq<BalloonPoint>)
    ensures forall k :: 0 <= k < |r| ==> r[k] in points && r[k].id == id
    ensures forall p :: p in points && p.id == id ==> p in r
    decreases |points|
  {
    if points == [] then []
    else
      var init := points[..|points| - 1];
      var last := points[|points| - 1];
      assert points == init + [last];
      WithId(init, id) + if last.id == id then [last] else []
  }

  /** `visibleBalloons`: every current marker without a selection, otherwise
      the selected one. */
  function VisibleBalloons(current: seq<BalloonPoint>, selectedBalloonId: Option<nat>): (r: seq<BalloonPoint>)
    ensures selectedBalloonId.None? ==> r == current
    ensures selectedBalloonId.Some? ==> forall p :: p in r <==> p in current && p.id == selectedBalloonId.value
  {
    match selectedBalloonId
    case None => current
    case Some(id) => WithId(current, id)
  }

  /** Because marker ids are their indices, a selection shows at most the one
      marker at that index, and nothing when the index is past the end. */
  lemma {:induction false} VisibleIsSelectedIndex(current: seq<BalloonPoint>, id: nat)
    requires forall k :: 0 <= k < |current| ==> current[k].id == k
    ensures VisibleBalloons(current, Some(id)) == if id < |current| then [current[id]] else []
    decreases |current|
  {
    if current != [] {
      var init := current[..|current| - 1];
      VisibleIsSelectedIndex(init, id);
      if id < |init| {
        assert init[id] == current[id];
      }
    }
  }

  /** Without a selection every current marker is visible; after clicking a
      current marker it is the only visible one. */
  lemma ClickShowsOnlyThatBalloon(c: seq<BalloonData>, selectedHour: int, showAllHours: bool, altitudeScale: real, p: BalloonPoint)
    requires altitudeScale > 0.0
    requires p in CurrentBalloons(c, selectedHour, showAllHours, altitudeScale)
    ensures VisibleBalloons(CurrentBalloons(c, selectedHour, showAllHours, altitudeScale), None)
            == CurrentBalloons(c, selectedHour, showAllHours, altitudeScale)
    ensures VisibleBalloons(CurrentBalloons(c, selectedHour, showAllHours, altitudeScale), Some(p.id)) == [p]
  {
    var current := CurrentBalloons(c, selectedHour, showAllHours, altitudeScale);
    VisibleIsSelectedIndex(current, p.id);
    var k :| 0 <= k < |current| && current[k] == p;
  }

  /** An arc of zero length at (lat, lng) drawn at `height`. */
  function ZeroArc(lat: real, lng: real, height: real): ArcData
  {
    ArcData(lat, lng, lat, lng, height)
  }

  /** The unfocused `balloonArcs`: one indicator per current marker. */
  function UnfocusedArcs(current: seq<BalloonPoint>): seq<ArcData>
  {
    seq(|current|, k requires 0 <= k < |current| => ZeroArc(current[k].lat, current[k].lng, current[k].alt))
  }

  /** The arc of the focused balloon at one hour: altitude over `altitudeScale * 1.2`. */
  function FocusedArc(position: Position, altitudeScale: real): ArcData
    requires altitudeScale > 0.0
  {
    ZeroArc(position.lat, position.lng, position.alt / (altitudeScale * 1.2))
  }

  /** The focused `balloonArcs`: one indicator per snapshot that has the balloon. */
  function FocusedArcs(c: seq<BalloonData>, id: nat, altitudeScale: real): seq<ArcData>
    requires altitudeScale > 0.0
  {
    var ps := Positions(c, id);
    seq(|ps|, k requires 0 <= k < |ps| => FocusedArc(ps[k], altitudeScale))
  }

  /** `balloonArcs`, computed as the source does: a `map` without a selection,
      a loop over the constellation that pushes an arc per snapshot holding the
      selected balloon otherwise. */
  method BalloonArcs(c: seq<BalloonData>, current: seq<BalloonPoint>, selectedBalloonId: Option<nat>, altitudeScale: real)
    returns (arcs: seq<ArcData>)
    requires altitudeScale > 0.0
    ensures arcs == if selectedBalloonId.None? then UnfocusedArcs(current)
                    else FocusedArcs(c, selectedBalloonId.value, altitudeScale)
  {
    if selectedBalloonId.None? {
      return UnfocusedArcs(current);
    }
    var id := selectedBalloonId.value;
    arcs := [];
    var i := 0;
    while i < |c|
      invariant 0 <= i <= |c|
      invariant arcs == FocusedArcs(c[..i], id, altitudeScale)
    {
      var snapshot := c[i];
      PositionsSnoc(c[..i], snapshot, id);
      assert c[..i + 1] == c[..i] + [snapshot];
      if id < |snapshot.data| {
        var position := snapshot.data[id];
        arcs := arcs + [ArcData(position.lat, position.lng, position.lat, position.lng, position.alt / (altitudeScale * 1.2))];
      }
      i := i + 1;
    }
    assert c[..|c|] == c;
  }

  /** Unfocused arcs are one zero-length indicator per current marker, in order,
      at the marker's height. */
  lemma UnfocusedArcsFollowMarkers(current: seq<BalloonPoint>)
    ensures |UnfocusedArcs(current)| == |current|
    ensures forall k :: 0 <= k < |current| ==>
              var a := UnfocusedArcs(current)[k];
              a.startLat == a.endLat == current[k].lat && a.startLng == a.endLng == current[k].lng &&
              a.endAlt == current[k].alt
  {
  }

  /** Focused arcs: one per snapshot holding the balloon, in constellation
      order, with altitude normalised by `altitudeScale * 1.2`; snapshots
      without it are skipped, so there are at most `|c|` of them and exactly
      `|c|` when every snapshot has it. */
  lemma FocusedArcsSkipAbsent(c: seq<BalloonData>, id: nat, altitudeScale: real)
    requires altitudeScale > 0.0
    ensures |FocusedArcs(c, id, altitudeScale)| == |Present(c, id)| <= |c|
    ensures forall k :: 0 <= k < |Present(c, id)| ==>
              var pos := Present(c, id)[k].data[id];
              FocusedArcs(c, id, altitudeScale)[k] == ArcData(pos.lat, pos.lng, pos.lat, pos.lng, pos.alt / (altitudeScale * 1.2))
    ensures forall b :: b in Present(c, id) <==> b in c && id < |b.data|
    ensures (forall k :: 0 <= k < |c| ==> id < |c[k].data|) ==> |FocusedArcs(c, id, altitudeScale)| == |c|
  {
  }

  /** A path vertex; altitude over `altitudeScale`. */
  function ToPathPoint(position: Position, altitudeScale: real): PathPoint
    requires altitudeScale > 0.0
  {
    PathPoint(position.lat, position.lng, position.alt / altitudeScale)
  }

  /** The path of balloon `id` through the snapshots of `sorted`, in that order. */
  function PathOf(sorted: seq<BalloonData>, id: nat, altitudeScale: real): seq<PathPoint>
    requires altitudeScale > 0.0
  {
    var ps := Positions(sorted, id);
    seq(|ps|, k requires 0 <= k < |ps| => ToPathPoint(ps[k], altitudeScale))
  }

  /** The non-empty paths of balloons `0 .. n-1`, in id order. */
  function AllPaths(sorted: seq<BalloonData>, n: nat, altitudeScale: real): seq<seq<PathPoint>>
    requires altitudeScale > 0.0
  {
    if n == 0 then []
    else
      var init := AllPaths(sorted, n - 1, altitudeScale);
      var p := PathOf(sorted, n - 1, altitudeScale);
      if |p| > 0 then init + [p] else init
  }

  /** The ids below `n` whose path through `sorted` is non-empty, ascending. */
  ghost function KeptIds(sorted: seq<BalloonData>, n: nat, altitudeScale: real): seq<nat>
    requires altitudeScale > 0.0
  {
    if n == 0 then []
    else KeptIds(sorted, n - 1, altitudeScale) + (if |PathOf(sorted, n - 1, altitudeScale)| > 0 then [n - 1] else [])
  }

  /** The kept ids are increasing and below `n`. */
  lemma {:induction false} KeptIdsIncreasing(sorted: seq<BalloonData>, n: nat, altitudeScale: real)
    requires altitudeScale > 0.0
    ensures |KeptIds(sorted, n, altitudeScale)| <= n
    ensures forall i, j :: 0 <= i < j < |KeptIds(sorted, n, altitudeScale)| ==>
              KeptIds(sorted, n, altitudeScale)[i] < KeptIds(sorted, n, altitudeScale)[j]
    ensures forall k :: 0 <= k < |KeptIds(sorted, n, altitudeScale)| ==> KeptIds(sorted, n, altitudeScale)[k] < n
  {
    if n > 0 {
      KeptIdsIncreasing(sorted, n - 1, altitudeScale);
      var ids := KeptIds(sorted, n - 1, altitudeScale);
      if |PathOf(sorted, n - 1, altitudeScale)| > 0 {
        assert KeptIds(sorted, n, altitudeScale) == ids + [n - 1];
      } else {
        assert KeptIds(sorted, n, altitudeScale) == ids;
      }
    }
  }

  /** The kept ids are exactly the ids below `n` with a non-empty path. */
  lemma {:induction false} KeptIdsMembers(sorted: seq<BalloonData>, n: nat, altitudeScale: real)
    requires altitudeScale > 0.0
    ensures forall id: nat :: id in KeptIds(sorted, n, altitudeScale) <==> id < n && |PathOf(sorted, id, altitudeScale)| > 0
  {
    if n > 0 {
      KeptIdsMembers(sorted, n - 1, altitudeScale);
      var ids := KeptIds(sorted, n - 1, altitudeScale);
      var rIds := KeptIds(sorted, n, altitudeScale);
      forall id: nat
        ensures id in rIds <==> id < n && |PathOf(sorted, id, altitudeScale)| > 0
      {
        if id == n - 1 {
          assert id !in ids;
        }
      }
    }
  }

  /** `AllPaths` lists the path of each kept id, in the order of the kept
      ids (so, with `KeptIdsIncreasing` and `KeptIdsMembers`, every non-empty
      path of an id below `n` exactly once, by increasing id, and nothing else). */
  lemma {:induction false} AllPathsExact(sorted: seq<BalloonData>, n: nat, altitudeScale: real)
    requires altitudeScale > 0.0
    ensures |AllPaths(sorted, n, altitudeScale)| == |KeptIds(sorted, n, altitudeScale)|
    ensures forall k :: 0 <= k < |AllPaths(sorted, n, altitudeScale)| ==>
              |AllPaths(sorted, n, altitudeScale)[k]| > 0 &&
              AllPaths(sorted, n, altitudeScale)[k] == PathOf(sorted, KeptIds(sorted, n, altitudeScale)[k], altitudeScale)
  {
    if n > 0 {
      AllPathsExact(sorted, n - 1, altitudeScale);
      var init := AllPaths(sorted, n - 1, altitudeScale);
      var ids := KeptIds(sorted, n - 1, altitudeScale);
      var p := PathOf(sorted, n - 1, altitudeScale);
      var r, rIds := AllPaths(sorted, n, altitudeScale), KeptIds(sorted, n, altitudeScale);
      if |p| > 0 {
        assert r == init + [p] && rIds == ids + [n - 1];
        forall k | 0 <= k < |r|
          ensures |r[k]| > 0 && r[k] == PathOf(sorted, rIds[k], altitudeScale)
        {
          if k < |init| {
            assert r[k] == init[k] && rIds[k] == ids[k];
          }
        }
      } else {
        assert r == init && rIds == ids;
      }
    }
  }

  /** `trajectoryPath`, as the source defines it. */
  function TrajectorySpec(c: seq<BalloonData>, selectedBalloonId: Option<nat>, showAllHours: bool, altitudeScale: real)
    : (r: Option<seq<seq<PathPoint>>>)
    requires altitudeScale > 0.0
    ensures selectedBalloonId.None? && !showAllHours ==> r.None?
    ensures r.Some? ==> |r.value| > 0 && forall k :: 0 <= k < |r.value| ==> |r.value[k]| > 0
    ensures r.Some? && selectedBalloonId.Some? ==> |r.value| == 1
  {
    if selectedBalloonId.None? && !showAllHours then None
    else if showAllHours && selectedBalloonId.None? then
      var numBalloons := if |c| > 0 then |c[0].data| else 0;
      var allPaths := AllPaths(SortByHour(c, true), numBalloons, altitudeScale);
      AllPathsExact(SortByHour(c, true), numBalloons, altitudeScale);
      if |allPaths| > 0 then Some(allPaths) else None
    else
      var path := PathOf(SortByHour(c, false), selectedBalloonId.value, altitudeScale);
      if |path| > 0 then Some([path]) else None
  }

  /** The loop shared by both branches of `trajectoryPath`: push a vertex for
      every snapshot of `sorted` that has balloon `id`. */
  method CollectPath(sorted: seq<BalloonData>, id: nat, altitudeScale: real) returns (pathPoints: seq<PathPoint>)
    requires altitudeScale > 0.0
    ensures pathPoints == PathOf(sorted, id, altitudeScale)
  {
    pathPoints := [];
    var i := 0;
    while i < |sorted|
      invariant 0 <= i <= |sorted|
      invariant pathPoints == PathOf(sorted[..i], id, altitudeScale)
    {
      var snapshot := sorted[i];
      PositionsSnoc(sorted[..i], snapshot, id);
      assert sorted[..i + 1] == sorted[..i] + [snapshot];
      if id < |snapshot.data| {
        var position := snapshot.data[id];
        pathPoints := pathPoints + [PathPoint(position.lat, position.lng, position.alt / altitudeScale)];
      }
      i := i + 1;
    }
    assert sorted[..|sorted|] == sorted;
  }

  /** The all-hours branch of `trajectoryPath`: for every id below the first
      snapshot's length, sort a copy of the constellation by ascending hour,
      collect the balloon's path and keep it when non-empty. */
  method AllHoursPaths(c: seq<BalloonData>, altitudeScale: real) returns (allPaths: seq<seq<PathPoint>>)
    requires altitudeScale > 0.0
    ensures allPaths == AllPaths(SortByHour(c, true), if |c| > 0 then |c[0].data| else 0, altitudeScale)
  {
    allPaths := [];
    ghost var sorted := SortByHour(c, true);
    var numBalloons := if |c| > 0 then |c[0].data| else 0;
    var balloonId := 0;
    while balloonId < numBalloons
      invariant 0 <= balloonId <= numBalloons
      invariant allPaths == AllPaths(sorted, balloonId, altitudeScale)
    {
      var sortedConstellation := SortByHour(c, true);
      var pathPoints := CollectPath(sortedConstellation, balloonId, altitudeScale);
      if |pathPoints| > 0 {
        allPaths := allPaths + [pathPoints];
      }
      balloonId := balloonId + 1;
    }
  }

  /** `trajectoryPath`, computed as the source does. */
  method TrajectoryPath(c: seq<BalloonData>, selectedBalloonId: Option<nat>, showAllHours: bool, altitudeScale: real)
    returns (r: Option<seq<seq<PathPoint>>>)
    requires altitudeScale > 0.0
    ensures r == TrajectorySpec(c, selectedBalloonId, showAllHours, altitudeScale)
  {
    if selectedBalloonId.None? && !showAllHours {
      return None;
    }
    if showAllHours && selectedBalloonId.None? {
      var allPaths := AllHoursPaths(c, altitudeScale);
      return if |allPaths| > 0 then Some(allPaths) else None;
    }
    var sortedConstellation := SortByHour(c, false);
    var pathPoints := CollectPath(sortedConstellation, selectedBalloonId.value, altitudeScale);
    r := if |pathPoints| > 0 then Some([pathPoints]) else None;
  }

  /** The path of balloon `id` through a constellation sorted one way: vertex
      `k` comes from the `k`-th snapshot that has the balloon; those snapshots
      are the ones of `c` that have it, each as often as in `c` (so the path
      has one vertex per such snapshot), in the sort's hour order. */
  lemma {:induction false} PathThroughSorted(c: seq<BalloonData>, id: nat, ascending: bool, altitudeScale: real)
    requires altitudeScale > 0.0
    ensures var sorted := Present(SortByHour(c, ascending), id);
            |PathOf(SortByHour(c, ascending), id, altitudeScale)| == |sorted| == |Present(c, id)| <= |c| &&
            multiset(sorted) == multiset(Present(c, id)) &&
            (forall k :: 0 <= k < |sorted| ==>
               PathOf(SortByHour(c, ascending), id, altitudeScale)[k] == ToPathPoint(sorted[k].data[id], altitudeScale)) &&
            SortedBy(sorted, ascending) &&
            (forall b :: b in sorted <==> b in c && id < |b.data|)
  {
    var s := SortByHour(c, ascending);
    SortByHourSpec(c, ascending);
    PresentPerm(s, c, id);
    PresentSorted(s, id, ascending);
    forall b
      ensures b in Present(s, id) <==> b in c && id < |b.data|
    {
      PresentMembers(s, id, b);
      assert b in s <==> b in multiset(s);
      assert b in c <==> b in multiset(c);
    }
  }

  /** With a selection the trajectory ignores all-hours mode; it is a single
      path in descending hour order, and absent exactly when no snapshot has
      the balloon. */
  lemma {:induction false} FocusedTrajectory(c: seq<BalloonData>, id: nat, showAllHours: bool, altitudeScale: real)
    requires altitudeScale > 0.0
    ensures TrajectorySpec(c, Some(id), showAllHours, altitudeScale) == TrajectorySpec(c, Some(id), false, altitudeScale)
    ensures TrajectorySpec(c, Some(id), showAllHours, altitudeScale).Some? <==> exists k :: 0 <= k < |c| && id < |c[k].data|
    ensures TrajectorySpec(c, Some(id), showAllHours, altitudeScale).Some? ==>
              TrajectorySpec(c, Some(id), showAllHours, altitudeScale).value == [PathOf(SortByHour(c, false), id, altitudeScale)]
  {
    PathThroughSorted(c, id, false, altitudeScale);
    var sorted := Present(SortByHour(c, false), id);
    assert |sorted| > 0 ==> sorted[0] in c && id < |sorted[0].data|;
    if exists k :: 0 <= k < |c| && id < |c[k].data| {
      var k :| 0 <= k < |c| && id < |c[k].data|;
      assert c[k] in sorted;
    }
  }

  /** In all-hours mode without a selection: the ids run over the first
      snapshot's length; the result lists, in increasing id order and each
      once, the non-empty path of every such id through the constellation in
      ascending hour order, and nothing else; and it is absent exactly when
      no path remains, which cannot happen when the first snapshot is
      non-empty. */
  lemma AllHoursTrajectory(c: seq<BalloonData>, altitudeScale: real)
    requires altitudeScale > 0.0
    ensures var n := if |c| > 0 then |c[0].data| else 0;
            var sorted := SortByHour(c, true);
            var all := AllPaths(sorted, n, altitudeScale);
            var ids := KeptIds(sorted, n, altitudeScale);
            TrajectorySpec(c, None, true, altitudeScale) == (if |all| > 0 then Some(all) else None) &&
            |all| == |ids| <= n &&
            (forall k :: 0 <= k < |all| ==> |all[k]| > 0 && all[k] == PathOf(sorted, ids[k], altitudeScale)) &&
            (forall i, j :: 0 <= i < j < |ids| ==> ids[i] < ids[j]) &&
            (forall id: nat :: id in ids <==> id < n && |PathOf(sorted, id, altitudeScale)| > 0) &&
            (|c| > 0 && n > 0 ==> |all| > 0)
  {
    var n := if |c| > 0 then |c[0].data| else 0;
    AllPathsExact(SortByHour(c, true), n, altitudeScale);
    KeptIdsIncreasing(SortByHour(c, true), n, altitudeScale);
    KeptIdsMembers(SortByHour(c, true), n, altitudeScale);
    if |c| > 0 && |c[0].data| > 0 {
      PathThroughSorted(c, 0, true, altitudeScale);
      assert c[0] in Present(SortByHour(c, true), 0);
    }
  }

  /** Two hours of two balloons each: with balloon 1 selected the trajectory
      is one path through hour 1 and then hour 0. */
  lemma TwoHourScenario(p00: Position, p01: Position, p10: Position, p11: Position, altitudeScale: real)
    requires altitudeScale > 0.0
    ensures TrajectorySpec([BalloonData(0, [p00, p01]), BalloonData(1, [p10, p11])], Some(1), false, altitudeScale)
            == Some([[ToPathPoint(p11, altitudeScale), ToPathPoint(p01, altitudeScale)]])
  {
    var c := [BalloonData(0, [p00, p01]), BalloonData(1, [p10, p11])];
    var sorted := [c[1], c[0]];
    assert SortByHour(c[1..], false) == [c[1]];
    assert [c[1]][1..] == [];
    assert Insert(c[0], [c[1]], false) == [c[1]] + Insert(c[0], [], false);
    assert SortByHour(c, false) == sorted;
    assert sorted[..1] == [c[1]];
    assert Present([c[1]], 1) == [c[1]];
    assert Present(sorted, 1) == sorted;
    assert Positions(sorted, 1) == [p11, p01];
    assert PathOf(sorted, 1, altitudeScale) == [ToPathPoint(p11, altitudeScale), ToPathPoint(p01, altitudeScale)];
  }

  /** The globe view's own state (`useState` fields that feed the overlays). */
  class GlobeView {
    var selectedBalloonId: Option<nat>
    var altitudeScale: real
    var selectedHour: int
    var showAllHours: bool

    /** The altitude scale stays positive, so the overlays may divide by it
        (the slider that sets it only offers 100 .. 1000). */
    ghost predicate Valid()
      reads this
    {
      altitudeScale > 0.0
    }

    constructor ()
      ensures Valid()
      ensures selectedBalloonId == None && altitudeScale == 500.0 && selectedHour == 0 && !showAllHours
    {
      selectedBalloonId := None;
      altitudeScale := 500.0;
      selectedHour := 0;
      showAllHours := false;
    }

    /** `handleBalloonClick`: select the clicked marker's balloon. */
    method HandleBalloonClick(balloon: BalloonPoint)
      requires Valid()
      modifies this
      ensures Valid()
      ensures selectedBalloonId == Some(balloon.id)
      ensures altitudeScale == old(altitudeScale) && selectedHour == old(selectedHour) && showAllHours == old(showAllHours)
    {
      selectedBalloonId := Some(balloon.id);
    }

    /** `handleGlobeClick`: clear the selection. */
    method HandleGlobeClick()
      requires Valid()
      modifies this
      ensures Valid()
      ensures selectedBalloonId == None
      ensures altitudeScale == old(altitudeScale) && selectedHour == old(selectedHour) && showAllHours == old(showAllHours)
    {
      selectedBalloonId := None;
    }

    /** The overlays the view draws over constellation `c` with its current
        settings: the visible markers, the altitude arcs and the trajectory. */
    method Overlays(c: seq<BalloonData>)
      returns (visible: seq<BalloonPoint>, arcs: seq<ArcData>, trajectory: Option<seq<seq<PathPoint>>>)
      requires Valid()
      ensures var current := CurrentBalloons(c, selectedHour, showAllHours, altitudeScale);
              visible == VisibleBalloons(current, selectedBalloonId) &&
              arcs == (if selectedBalloonId.None? then UnfocusedArcs(current)
                       else FocusedArcs(c, selectedBalloonId.value, altitudeScale)) &&
              trajectory == TrajectorySpec(c, selectedBalloonId, showAllHours, altitudeScale)
    {
      var current := CurrentBalloons(c, selectedHour, showAllHours, altitudeScale);
      visible := VisibleBalloons(current, selectedBalloonId);
      arcs := BalloonArcs(c, current, selectedBalloonId, altitudeScale);
      trajectory := TrajectoryPath(c, selectedBalloonId, showAllHours, altitudeScale);
    }
  }
}
