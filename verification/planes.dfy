/** Detected planes and drone placement (src/vr.js:730-946): keeping the
    plane table in step with the frame's detected planes, the shadow-receiving
    meshes of horizontal planes with their fan triangulation, and placing the
    drone at the right controller once. */
module Planes {
  import opened Geometry
  import opened SimState
  import opened Input

  /** A plane's pose in the reference space. */
  datatype Pose = Pose(position: Vec3, rotation: Quat)

  /** An `XRPlane` of the frame: its identity, its pose this frame (if any),
      its polygon and its orientation. */
  datatype XRPlane = XRPlane(id: nat, pose: Option<Pose>, polygon: seq<Point2>, orientation: PlaneOrientation)

  // ---------------------------------------------------------------------
  // The plane table
  // ---------------------------------------------------------------------

  /** The keys of the table. */
  function Ids(entries: seq<PlaneEntry>): (ids: set<nat>)
    ensures forall i :: 0 <= i < |entries| ==> entries[i].id in ids
    decreases |entries|
  {
    if |entries| == 0 then {}
    else
      assert forall i :: 1 <= i < |entries| ==> entries[i] == entries[1..][i - 1];
      {entries[0].id} + Ids(entries[1..])
  }

  /** A key carried by no entry is not a key of the table. */
  lemma {:induction false} NotInIds(entries: seq<PlaneEntry>, id: nat)
    requires forall i :: 0 <= i < |entries| ==> entries[i].id != id
    ensures id !in Ids(entries)
    decreases |entries|
  {
    if |entries| > 0 {
      assert forall i :: 1 <= i < |entries| ==> entries[i] == entries[1..][i - 1];
      NotInIds(entries[1..], id);
    }
  }

  /** In a table without repeated keys, the first key does not occur again. */
  lemma HeadNotInTail(entries: seq<PlaneEntry>)
    requires |entries| > 0
    ensures UniqueIds(entries) ==> UniqueIds(entries[1..]) && entries[0].id !in Ids(entries[1..])
  {
    if UniqueIds(entries) {
      assert forall i :: 0 <= i < |entries[1..]| ==> entries[1..][i] == entries[i + 1];
      NotInIds(entries[1..], entries[0].id);
    }
  }

  /** A table is a map: no key appears twice. */
  predicate UniqueIds(entries: seq<PlaneEntry>) {
    forall i, j :: 0 <= i < j < |entries| ==> entries[i].id != entries[j].id
  }

  /** The data stored under `id`, if any. */
  function Lookup(entries: seq<PlaneEntry>, id: nat): (d: Option<PlaneData>)
    ensures d.Some? <==> id in Ids(entries)
    ensures d.Some? ==> exists i :: 0 <= i < |entries| && entries[i] == PlaneEntry(id, d.value)
    decreases |entries|
  {
    if |entries| == 0 then None
    else if entries[0].id == id then Some(entries[0].data)
    else
      var rest := Lookup(entries[1..], id);
      assert Ids(entries) == {entries[0].id} + Ids(entries[1..]);
      if rest.Some? then
        var j :| 0 <= j < |entries[1..]| && entries[1..][j] == PlaneEntry(id, rest.value);
        assert entries[j + 1] == PlaneEntry(id, rest.value);
        rest
      else rest
  }

  /** Dropping every entry whose key is not in `keep`; the order of the rest is kept. */
  function Prune(entries: seq<PlaneEntry>, keep: set<nat>): (r: seq<PlaneEntry>)
    ensures Ids(r) == Ids(entries) * keep
    ensures UniqueIds(entries) ==> UniqueIds(r)
    ensures forall id :: id in keep ==> Lookup(r, id) == Lookup(entries, id)
    decreases |entries|
  {
    if |entries| == 0 then []
    else
      var rest := Prune(entries[1..], keep);
      assert Ids(entries) == {entries[0].id} + Ids(entries[1..]);
      HeadNotInTail(entries);
      if entries[0].id in keep then
        var r := [entries[0]] + rest;
        assert r[1..] == rest;
        assert Ids(r) == {entries[0].id} + Ids(rest);
        r
      else rest
  }

  /** Storing a plane seen with a pose: a new key is appended with all four
      fields; an existing key gets the new position, rotation and polygon and
      keeps its orientation. */
  function Upsert(entries: seq<PlaneEntry>, p: XRPlane, pose: Pose): (r: seq<PlaneEntry>)
    ensures Ids(r) == Ids(entries) + {p.id}
    ensures UniqueIds(entries) ==> UniqueIds(r)
    ensures Lookup(entries, p.id).None? ==>
              Lookup(r, p.id) == Some(PlaneData(pose.position, pose.rotation, p.polygon, p.orientation))
    ensures Lookup(entries, p.id).Some? ==>
              Lookup(r, p.id) == Some(PlaneData(pose.position, pose.rotation, p.polygon,
                                                Lookup(entries, p.id).value.orientation))
    ensures forall id :: id != p.id ==> Lookup(r, id) == Lookup(entries, id)
  {
    StoreKeys(entries, p, pose);
    StoreLookups(entries, p, pose);
    Store(entries, p, pose)
  }

  /** The table after storing, entry by entry. */
  function Store(entries: seq<PlaneEntry>, p: XRPlane, pose: Pose): seq<PlaneEntry>
    decreases |entries|
  {
    if |entries| == 0 then [PlaneEntry(p.id, PlaneData(pose.position, pose.rotation, p.polygon, p.orientation))]
    else if entries[0].id == p.id then
      [PlaneEntry(p.id, PlaneData(pose.position, pose.rotation, p.polygon, entries[0].data.orientation))] + entries[1..]
    else [entries[0]] + Store(entries[1..], p, pose)
  }

  lemma {:induction false} StoreKeys(entries: seq<PlaneEntry>, p: XRPlane, pose: Pose)
    ensures Ids(Store(entries, p, pose)) == Ids(entries) + {p.id}
    ensures UniqueIds(entries) ==> UniqueIds(Store(entries, p, pose))
    decreases |entries|
  {
    var r := Store(entries, p, pose);
    if |entries| > 0 {
      assert Ids(entries) == {entries[0].id} + Ids(entries[1..]);
      HeadNotInTail(entries);
      assert r[1..] == (if entries[0].id == p.id then entries[1..] else Store(entries[1..], p, pose));
      assert Ids(r) == {r[0].id} + Ids(r[1..]);
      if entries[0].id != p.id {
        StoreKeys(entries[1..], p, pose);
      }
    }
  }

  lemma {:induction false} StoreLookups(entries: seq<PlaneEntry>, p: XRPlane, pose: Pose)
    ensures Lookup(entries, p.id).None? ==>
              Lookup(Store(entries, p, pose), p.id) == Some(PlaneData(pose.position, pose.rotation, p.polygon, p.orientation))
    ensures Lookup(entries, p.id).Some? ==>
              Lookup(Store(entries, p, pose), p.id) == Some(PlaneData(pose.position, pose.rotation, p.polygon,
                                                                      Lookup(entries, p.id).value.orientation))
    ensures forall id :: id != p.id ==> Lookup(Store(entries, p, pose), id) == Lookup(entries, id)
    decreases |entries|
  {
    var r := Store(entries, p, pose);
    if |entries| > 0 {
      assert r[1..] == (if entries[0].id == p.id then entries[1..] else Store(entries[1..], p, pose));
      if entries[0].id != p.id {
        StoreLookups(entries[1..], p, pose);
      }
    }
  }

  // ---------------------------------------------------------------------
  // Shadow meshes (src/vr.js:791-860)
  // ---------------------------------------------------------------------

  /** How far above its plane a shadow mesh floats. */
  const ShadowLift: real := 0.002

  /** The fan triangulation of an n-gon: triangles (0, i, i+1) for i from 1
      to n−2; nothing for fewer than three vertices. */
  function FanIndices(n: nat): (r: seq<nat>)
    ensures n < 3 ==> r == []
    ensures n >= 3 ==> |r| == 3 * (n - 2)
    ensures forall t :: 0 <= t < |r| / 3 ==> r[3 * t] == 0 && r[3 * t + 1] == t + 1 && r[3 * t + 2] == t + 2
    ensures forall k :: 0 <= k < |r| ==> r[k] < n
  {
    if n < 3 then [] else seq(3 * (n - 2), k requires 0 <= k < 3 * (n - 2) => if k % 3 == 0 then 0 else k / 3 + k % 3)
  }

  /** The triangulation as the source builds it, one triangle per loop turn. */
  method BuildFan(n: nat) returns (indices: seq<nat>)
    ensures indices == FanIndices(n)
  {
    indices := [];
    if n < 3 {
      return;
    }
    var i := 1;
    while i < n - 1
      invariant 1 <= i <= n - 1
      invariant |indices| == 3 * (i - 1)
      invariant forall t :: 0 <= t < i - 1 ==>
                  indices[3 * t] == 0 && indices[3 * t + 1] == t + 1 && indices[3 * t + 2] == t + 2
    {
      indices := indices + [0, i, i + 1];
      i := i + 1;
    }
    var fan := FanIndices(n);
    assert |fan| == |indices|;
    forall k | 0 <= k < |fan|
      ensures fan[k] == indices[k]
    {
      var t := k / 3;
      assert k == 3 * t || k == 3 * t + 1 || k == 3 * t + 2;
    }
  }

  /** A polygon point of the plane's local floor, lifted into the world. */
  function ShadowVertex(m: MathLib, pose: Pose, p: Point2): Vec3 {
    Add(Add(m.rotate(pose.rotation, Vec3(p.x, 0.0, p.z)), pose.position), Vec3(0.0, ShadowLift, 0.0))
  }

  /** The mesh vertices: each polygon point rotated by the plane's rotation,
      moved to its position and lifted 2 mm. Undoing the lift, the move and
      the rotation gives the polygon point back. */
  function ShadowVertices(m: MathLib, pose: Pose, polygon: seq<Point2>): (vs: seq<Vec3>)
    ensures |vs| == |polygon|
    ensures Lawful(m) ==> forall i :: 0 <= i < |vs| ==>
              m.rotate(Invert(pose.rotation), Sub(Sub(vs[i], Vec3(0.0, ShadowLift, 0.0)), pose.position))
                == Vec3(polygon[i].x, 0.0, polygon[i].z)
  {
    var vs := seq(|polygon|, i requires 0 <= i < |polygon| => ShadowVertex(m, pose, polygon[i]));
    ShadowVertexInverts(m, pose, polygon, vs);
    vs
  }

  lemma ShadowVertexInverts(m: MathLib, pose: Pose, polygon: seq<Point2>, vs: seq<Vec3>)
    requires |vs| == |polygon|
    requires forall i :: 0 <= i < |vs| ==> vs[i] == ShadowVertex(m, pose, polygon[i])
    ensures Lawful(m) ==> forall i :: 0 <= i < |vs| ==>
              m.rotate(Invert(pose.rotation), Sub(Sub(vs[i], Vec3(0.0, ShadowLift, 0.0)), pose.position))
                == Vec3(polygon[i].x, 0.0, polygon[i].z)
  {
    if Lawful(m) {
      forall i | 0 <= i < |vs|
        ensures m.rotate(Invert(pose.rotation), Sub(Sub(vs[i], Vec3(0.0, ShadowLift, 0.0)), pose.position))
                  == Vec3(polygon[i].x, 0.0, polygon[i].z)
      {
        var local := Vec3(polygon[i].x, 0.0, polygon[i].z);
        var w := m.rotate(pose.rotation, local);
        assert Sub(Sub(vs[i], Vec3(0.0, ShadowLift, 0.0)), pose.position) == w;
        assert m.rotate(Invert(pose.rotation), m.rotate(pose.rotation, local)) == local;
      }
    }
  }

  /** The shadow mesh of a polygon with at least three vertices. */
  function ShadowFor(m: MathLib, pose: Pose, polygon: seq<Point2>): (mesh: ShadowMesh)
    requires |polygon| >= 3
    ensures |mesh.vertices| == |polygon| && |mesh.indices| == 3 * (|polygon| - 2)
    ensures forall k :: 0 <= k < |mesh.indices| ==> mesh.indices[k] < |mesh.vertices|
  {
    ShadowMesh(ShadowVertices(m, pose, polygon), FanIndices(|polygon|))
  }

  // ---------------------------------------------------------------------
  // updatePlanes (src/vr.js:730-788)
  // ---------------------------------------------------------------------

  /** The frame's planes' keys. */
  function FrameIds(planes: seq<XRPlane>): (ids: set<nat>)
    ensures forall i :: 0 <= i < |planes| ==> planes[i].id in ids
    ensures forall id :: id in ids ==> exists i :: 0 <= i < |planes| && planes[i].id == id
    decreases |planes|
  {
    if |planes| == 0 then {}
    else
      var rest := FrameIds(planes[1..]);
      assert forall i :: 1 <= i < |planes| ==> planes[i] == planes[1..][i - 1];
      assert forall id :: id in rest ==> exists i :: 1 <= i < |planes| && planes[i].id == id by {
        forall id | id in rest ensures exists i :: 1 <= i < |planes| && planes[i].id == id {
          var j :| 0 <= j < |planes[1..]| && planes[1..][j].id == id;
          assert planes[j + 1].id == id;
        }
      }
      {planes[0].id} + rest
  }

  /** The keys of the frame's planes that have a pose this frame. */
  function PosedIds(planes: seq<XRPlane>): (ids: set<nat>)
    ensures forall i :: 0 <= i < |planes| && planes[i].pose.Some? ==> planes[i].id in ids
    ensures ids <= FrameIds(planes)
    decreases |planes|
  {
    if |planes| == 0 then {}
    else
      assert forall i :: 1 <= i < |planes| ==> planes[i] == planes[1..][i - 1];
      (if planes[0].pose.Some? then {planes[0].id} else {}) + PosedIds(planes[1..])
  }

  /** In a frame that reports each plane once, a plane without a pose is
      not among the posed keys. */
  lemma {:induction false} UnposedNotPosed(planes: seq<XRPlane>, i: nat)
    requires DistinctPlanes(planes) && i < |planes| && planes[i].pose.None?
    ensures planes[i].id !in PosedIds(planes)
    decreases |planes|
  {
    var tail := planes[1..];
    assert forall k :: 1 <= k < |planes| ==> planes[k] == tail[k - 1];
    assert PosedIds(planes) == (if planes[0].pose.Some? then {planes[0].id} else {}) + PosedIds(tail);
    if i == 0 {
      forall id | id in FrameIds(tail)
        ensures id != planes[0].id
      {
        var k :| 0 <= k < |tail| && tail[k].id == id;
        assert planes[k + 1].id == id;
      }
    } else {
      assert DistinctPlanes(tail);
      UnposedNotPosed(tail, i - 1);
    }
  }

  /** A frame reports each plane once. */
  predicate DistinctPlanes(planes: seq<XRPlane>) {
    forall i, j :: 0 <= i < j < |planes| ==> planes[i].id != planes[j].id
  }

  /** The shadows after a plane has been stored: a new horizontal plane in
      mixed reality with a drawable polygon gets a mesh; a known plane's
      existing mesh is rebuilt when its polygon is drawable. */
  function ShadowsAfter(m: MathLib, mr: bool, entries: seq<PlaneEntry>, shadows: map<nat, ShadowMesh>,
                        p: XRPlane, pose: Pose): (r: map<nat, ShadowMesh>)
    ensures forall id :: id != p.id ==> (id in r <==> id in shadows) && (id in r ==> r[id] == shadows[id])
    ensures p.id in shadows ==> p.id in r
    ensures p.id in r && r != shadows ==> |p.polygon| >= 3
  {
    if |p.polygon| < 3 then shadows
    else if Lookup(entries, p.id).None? then
      if mr && p.orientation == HorizontalPlane then shadows[p.id := ShadowFor(m, pose, p.polygon)] else shadows
    else if p.id in shadows then shadows[p.id := ShadowFor(m, pose, p.polygon)]
    else shadows
  }

  /** The frame's planes in order; a plane without a pose this frame is skipped. */
  function StorePlanes(m: MathLib, mr: bool, entries: seq<PlaneEntry>, shadows: map<nat, ShadowMesh>,
                       planes: seq<XRPlane>): (r: (seq<PlaneEntry>, map<nat, ShadowMesh>))
    ensures Ids(r.0) == Ids(entries) + PosedIds(planes)
    ensures UniqueIds(entries) ==> UniqueIds(r.0)
    ensures forall id :: id !in PosedIds(planes) ==> Lookup(r.0, id) == Lookup(entries, id)
    ensures forall id :: id in shadows && id !in PosedIds(planes) ==> id in r.1 && r.1[id] == shadows[id]
    ensures forall id :: id in r.1 && id !in PosedIds(planes) ==> id in shadows
    decreases |planes|
  {
    if |planes| == 0 then (entries, shadows)
    else
      var p := planes[0];
      var stepped :=
        match p.pose
        case None => (entries, shadows)
        case Some(pose) => (Upsert(entries, p, pose), ShadowsAfter(m, mr, entries, shadows, p, pose));
      var r := StorePlanes(m, mr, stepped.0, stepped.1, planes[1..]);
      assert FrameIds(planes) == {p.id} + FrameIds(planes[1..]);
      assert PosedIds(planes) == (if p.pose.Some? then {p.id} else {}) + PosedIds(planes[1..]);
      r
  }

  /** `updatePlanes`. `detected` is `frame.detectedPlanes`, `None` when the
      frame has none. Entries of planes the frame no longer reports are
      removed with their shadows; the frame's planes are then stored. */
  function UpdatePlanes(m: MathLib, s: Sim, detected: Option<seq<XRPlane>>): (r: Sim)
    requires detected.Some? ==> DistinctPlanes(detected.value)
    ensures detected.None? ==> r == s
    ensures UniqueIds(s.planes) ==> UniqueIds(r.planes)
    ensures detected.Some? ==> forall id :: id in Ids(r.planes) ==> id in FrameIds(detected.value)
    ensures detected.Some? ==> forall id :: id in Ids(s.planes) && id !in FrameIds(detected.value) ==>
              id !in r.shadows
    ensures detected.Some? ==> forall i :: 0 <= i < |detected.value| ==> HoldsPose(r.planes, detected.value[i])
    ensures detected.Some? ==> forall i :: 0 <= i < |detected.value| && detected.value[i].pose.None? ==>
              SameStored(s.planes, s.shadows, r.planes, r.shadows, detected.value[i].id)
    ensures r.drone == s.drone && r.life == s.life
  {
    match detected
    case None => s
    case Some(planes) =>
      var keep := FrameIds(planes);
      var removed := Ids(s.planes) - keep;
      var pruned := Prune(s.planes, keep);
      var unshadowed := map id | id in s.shadows && id !in removed :: s.shadows[id];
      var stored := StorePlanes(m, s.isMrMode, pruned, unshadowed, planes);
      StoredPlaneHasPose(m, s.isMrMode, pruned, unshadowed, planes);
      UnposedKept(m, s, planes);
      s.(planes := stored.0, shadows := stored.1)
  }

  /** The entry and the shadow stored under `id` are the same in both tables. */
  predicate SameStored(e: seq<PlaneEntry>, sh: map<nat, ShadowMesh>, e2: seq<PlaneEntry>, sh2: map<nat, ShadowMesh>, id: nat) {
    && Lookup(e2, id) == Lookup(e, id)
    && (id in sh2 <==> id in sh)
    && (id in sh ==> sh2[id] == sh[id])
  }

  /** A stored plane the frame reports without a pose is skipped: it survives
      the pruning, since the frame reports it, and is neither inserted nor
      updated, so its entry and its shadow stay as they were. */
  lemma UnposedKept(m: MathLib, s: Sim, planes: seq<XRPlane>)
    requires DistinctPlanes(planes)
    ensures var keep := FrameIds(planes);
            var removed := Ids(s.planes) - keep;
            var unshadowed := map id | id in s.shadows && id !in removed :: s.shadows[id];
            var stored := StorePlanes(m, s.isMrMode, Prune(s.planes, keep), unshadowed, planes);
            forall i :: 0 <= i < |planes| && planes[i].pose.None? ==>
              SameStored(s.planes, s.shadows, stored.0, stored.1, planes[i].id)
  {
    forall i | 0 <= i < |planes| && planes[i].pose.None?
      ensures planes[i].id !in PosedIds(planes) && planes[i].id in FrameIds(planes)
    {
      UnposedNotPosed(planes, i);
    }
  }

  /** A plane seen with a pose is stored with that pose and its polygon. */
  predicate HoldsPose(entries: seq<PlaneEntry>, p: XRPlane) {
    p.pose.Some? ==>
      && Lookup(entries, p.id).Some?
      && Lookup(entries, p.id).value.position == p.pose.value.position
      && Lookup(entries, p.id).value.rotation == p.pose.value.rotation
      && Lookup(entries, p.id).value.polygon == p.polygon
  }

  /** After storing, a plane seen with a pose holds that pose and polygon. */
  lemma {:induction false} StoredPlaneHasPose(m: MathLib, mr: bool, entries: seq<PlaneEntry>,
                                              shadows: map<nat, ShadowMesh>, planes: seq<XRPlane>)
    requires DistinctPlanes(planes)
    ensures forall i :: 0 <= i < |planes| ==> HoldsPose(StorePlanes(m, mr, entries, shadows, planes).0, planes[i])
    decreases |planes|
  {
    if |planes| > 0 {
      var p := planes[0];
      var stepped :=
        match p.pose
        case None => (entries, shadows)
        case Some(pose) => (Upsert(entries, p, pose), ShadowsAfter(m, mr, entries, shadows, p, pose));
      var tail := planes[1..];
      assert DistinctPlanes(tail);
      StoredPlaneHasPose(m, mr, stepped.0, stepped.1, tail);
      var r := StorePlanes(m, mr, entries, shadows, planes).0;
      assert r == StorePlanes(m, mr, stepped.0, stepped.1, tail).0;
      forall i | 0 <= i < |planes|
        ensures HoldsPose(r, planes[i])
      {
        if i == 0 {
          assert p.id !in FrameIds(tail) by {
            forall k | 0 <= k < |tail| ensures tail[k].id != p.id {
              assert tail[k] == planes[k + 1];
            }
          }
          assert Lookup(r, p.id) == Lookup(stepped.0, p.id);
        } else {
          assert tail[i - 1] == planes[i];
        }
      }
    }
  }

  // ---------------------------------------------------------------------
  // positionDrone (src/vr.js:863-946)
  // ---------------------------------------------------------------------

  /** The lowest height among the horizontal planes, if there is one. */
  function LowestHorizontal(entries: seq<PlaneEntry>): (y: Option<real>)
    ensures y.None? <==> forall i :: 0 <= i < |entries| ==> entries[i].data.orientation != HorizontalPlane
    ensures y.Some? ==> forall i :: 0 <= i < |entries| && entries[i].data.orientation == HorizontalPlane ==>
              y.value <= entries[i].data.position.y
    ensures y.Some? ==> exists i :: 0 <= i < |entries| && entries[i].data.orientation == HorizontalPlane
                                    && entries[i].data.position.y == y.value
    decreases |entries|
  {
    if |entries| == 0 then None
    else
      var rest := LowestHorizontal(entries[1..]);
      var e := entries[0];
      assert forall i :: 1 <= i < |entries| ==> entries[i] == entries[1..][i - 1];
      if e.data.orientation != HorizontalPlane then
        if rest.Some? then
          var j :| 0 <= j < |entries[1..]| && entries[1..][j].data.orientation == HorizontalPlane
                   && entries[1..][j].data.position.y == rest.value;
          assert entries[j + 1] == entries[1..][j];
          rest
        else rest
      else if rest.None? || e.data.position.y < rest.value then Some(e.data.position.y)
      else
        var j :| 0 <= j < |entries[1..]| && entries[1..][j].data.orientation == HorizontalPlane
                 && entries[1..][j].data.position.y == rest.value;
        assert entries[j + 1] == entries[1..][j];
        rest
  }

  /** The floor height placement computes: the lowest horizontal plane, else 0. */
  function FloorHeight(entries: seq<PlaneEntry>): (y: real)
    ensures (forall i :: 0 <= i < |entries| ==> entries[i].data.orientation != HorizontalPlane) ==> y == 0.0
    ensures forall i :: 0 <= i < |entries| && entries[i].data.orientation == HorizontalPlane ==>
              y <= entries[i].data.position.y
  {
    LowestHorizontal(entries).GetOr(0.0)
  }

  /** `positionDrone`: once, with a frame, the drone is put at the first
      right controller with a grip pose and turned to the camera's heading;
      without such a controller it waits for a later frame. */
  function PositionDrone(m: MathLib, s: Sim, f: Frame): (r: Sim)
    ensures !s.xrSession || !s.droneLoaded || s.dronePositioned || !Available(f) ==> r == s
    ensures s.xrSession && s.droneLoaded && !s.dronePositioned && Available(f) ==>
              match FirstRightGrip(f, f.sources)
              case None => r == s
              case Some(c) =>
                && r.dronePositioned && r.drone.position == c
                && r.drone.rotation.y == m.atan2(f.cameraHeading.x, f.cameraHeading.z)
    ensures r.dronePositioned <==> s.dronePositioned || (r != s)
    ensures r.life == s.life && r.planes == s.planes
  {
    if !s.xrSession || !s.droneLoaded || s.dronePositioned || !Available(f) then s
    else
      match FirstRightGrip(f, f.sources)
      case None => s
      case Some(c) =>
        s.(drone := s.drone.(position := c,
                             rotation := s.drone.rotation.(y := m.atan2(f.cameraHeading.x, f.cameraHeading.z))),
           dronePositioned := true)
  }

  /** Placement happens at most once: a placed drone is never moved again by it. */
  lemma PlacedOnce(m: MathLib, s: Sim, f1: Frame, f2: Frame)
    ensures PositionDrone(m, s, f1).dronePositioned ==>
              PositionDrone(m, PositionDrone(m, s, f1), f2) == PositionDrone(m, s, f1)
  {
  }
}
