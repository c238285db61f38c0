/// sim/signal/core/tracer.hpp: the ray tracer that finds the paths a signal
/// takes between a transmitter and a receiver. `Penetrace` walks a straight
/// ray through the scene, recording every surface it crosses; `Trace` returns
/// the direct path and one singly reflected path per triangle that reflects
/// the transmitter towards the receiver.
///
/// The geometry primitives of vec3.hpp, ray.hpp, triangle.hpp and bvh.hpp
/// (normalisation, ray positions, distances and the two intersection tests)
/// are not part of this model and come in as the functions of a `Geometry`.
module Tracer {
  import opened Wrappers
  import Loss

  type V3 = Loss.V3

  /// `Tracer::MAX_INTER`
  const MaxInter: int := 50
  /// `(size_t)-1`, the refPosIndex of a direct record.
  const SizeMax: nat := 0x1_0000_0000_0000_0000 - 1

  datatype Ray = Ray(origin: V3, direction: V3)
  datatype Triangle = Triangle(p1: V3, p2: V3, p3: V3, normal: V3)
  datatype InterPoint = InterPoint(pos: V3, dist: real)
  datatype RecordType = Direct | SingleReflected
  datatype Record = Record(kind: RecordType, points: seq<V3>, refPosIndex: nat)

  /// The primitives tracer.hpp calls: `BVH::IsIntersect` over the tracer's
  /// triangles (the hit distance, if any), `Triangle::IsIntersect`,
  /// `Vec3::Normalize`, `Ray::PositionAt` and `Vec3::Distance`.
  datatype Geometry = Geometry(
    sceneHit: Ray -> Option<real>,
    triangleHit: (Triangle, Ray) -> Option<real>,
    normalize: V3 -> V3,
    positionAt: (Ray, real) -> V3,
    distance: (V3, V3) -> real)

  function Add(a: V3, b: V3): V3 {
    Loss.V3(a.x + b.x, a.y + b.y, a.z + b.z)
  }

  function Sub(a: V3, b: V3): V3 {
    Loss.V3(a.x - b.x, a.y - b.y, a.z - b.z)
  }

  function Scale(a: V3, k: real): V3 {
    Loss.V3(a.x * k, a.y * k, a.z * k)
  }

  function Dot(a: V3, b: V3): real {
    a.x * b.x + a.y * b.y + a.z * b.z
  }

  // ---------------------------------------------------------------------------
  // Penetrace

  /// The variables of Penetrace's loop.
  datatype Walk = Walk(inters: seq<InterPoint>, ray: Ray, totalDist: real, interCount: int)

  /// The next ray starts 0.00001 past the hit point.
  function Nudge(hitPoint: V3, direction: V3): V3 {
    Loss.V3(hitPoint.x + direction.x * 0.00001, hitPoint.y + direction.y * 0.00001, hitPoint.z + direction.z * 0.00001)
  }

  /// The loop run to completion from w: it stops after maxInter + 1 hits,
  /// once the distance walked reaches the end, on a miss, or on a hit at or
  /// beyond the end.
  function Walked(geo: Geometry, direction: V3, distToEnd: real, maxInter: int, w: Walk): Walk
    decreases maxInter + 1 - w.interCount
  {
    if !(w.interCount <= maxInter && w.totalDist < distToEnd) then w
    else match geo.sceneHit(w.ray)
      case None => w
      case Some(hitDist) =>
        if hitDist + w.totalDist < distToEnd then
          var hitPoint := geo.positionAt(w.ray, hitDist);
          Walked(geo, direction, distToEnd, maxInter,
                 Walk(w.inters + [InterPoint(hitPoint, w.totalDist + hitDist)],
                      Ray(Nudge(hitPoint, direction), direction),
                      w.totalDist + (hitDist + 0.001),
                      w.interCount + 1))
        else w
  }

  /// After the loop: nothing when the hit budget ran out, otherwise the hits
  /// followed by `end` unless the last hit is already within 0.001 of it.
  function Finish(geo: Geometry, w: Walk, end: V3, distToEnd: real, maxInter: int): seq<InterPoint> {
    if w.interCount > maxInter then []
    else if |w.inters| == 0 || geo.distance(w.inters[|w.inters| - 1].pos, end) > 0.001 then w.inters + [InterPoint(end, distToEnd)]
    else w.inters
  }

  function Start(geo: Geometry, start: V3, end: V3): Walk {
    Walk([], Ray(start, geo.normalize(Sub(end, start))), 0.0, 0)
  }

  /// What `Penetrace(start, end, maxInter)` returns.
  function PenetraceOf(geo: Geometry, start: V3, end: V3, maxInter: int): seq<InterPoint> {
    var direction := geo.normalize(Sub(end, start));
    var distToEnd := geo.distance(start, end);
    Finish(geo, Walked(geo, direction, distToEnd, maxInter, Start(geo, start, end)), end, distToEnd, maxInter)
  }

  method Penetrace(geo: Geometry, start: V3, end: V3, maxInter: int) returns (inters: seq<InterPoint>)
    ensures inters == PenetraceOf(geo, start, end, maxInter)
  {
    inters := [];
    var direction := geo.normalize(Sub(end, start));
    var ray := Ray(start, direction);
    var totalDist := 0.0;
    var distToEnd := geo.distance(start, end);
    var interCount := 0;
    ghost var final := Walked(geo, direction, distToEnd, maxInter, Walk([], ray, 0.0, 0));

    while interCount <= maxInter && totalDist < distToEnd
      invariant Walked(geo, direction, distToEnd, maxInter, Walk(inters, ray, totalDist, interCount)) == final
      decreases maxInter + 1 - interCount
    {
      var hit := geo.sceneHit(ray);
      if hit.Some? {
        var hitDist := hit.value;
        if hitDist + totalDist < distToEnd {
          var hitPoint := geo.positionAt(ray, hitDist);
          inters := inters + [InterPoint(hitPoint, totalDist + hitDist)];
          var curPos := Nudge(hitPoint, direction);
          ray := Ray(curPos, direction);
          totalDist := totalDist + (hitDist + 0.001);
          interCount := interCount + 1;
        } else {
          break;
        }
      } else {
        break;
      }
    }
    assert Walk(inters, ray, totalDist, interCount) == final;

    if interCount > maxInter {
      return [];
    }
    if |inters| == 0 || geo.distance(inters[|inters| - 1].pos, end) > 0.001 {
      inters := inters + [InterPoint(end, distToEnd)];
    }
  }

  /// The loop records one hit per step, keeps what it has recorded, and
  /// never counts past maxInter + 1.
  lemma {:induction false} WalkedCount(geo: Geometry, direction: V3, distToEnd: real, maxInter: int, w: Walk)
    requires w.interCount <= maxInter + 1
    ensures var r := Walked(geo, direction, distToEnd, maxInter, w);
      w.interCount <= r.interCount <= maxInter + 1 &&
      |r.inters| == |w.inters| + (r.interCount - w.interCount) &&
      r.inters[..|w.inters|] == w.inters
    decreases maxInter + 1 - w.interCount
  {
    if w.interCount <= maxInter && w.totalDist < distToEnd && geo.sceneHit(w.ray).Some? {
      var hitDist := geo.sceneHit(w.ray).value;
      if hitDist + w.totalDist < distToEnd {
        var hitPoint := geo.positionAt(w.ray, hitDist);
        var w' := Walk(w.inters + [InterPoint(hitPoint, w.totalDist + hitDist)],
                       Ray(Nudge(hitPoint, direction), direction),
                       w.totalDist + (hitDist + 0.001),
                       w.interCount + 1);
        WalkedCount(geo, direction, distToEnd, maxInter, w');
        var r := Walked(geo, direction, distToEnd, maxInter, w');
        assert r.inters[..|w'.inters|] == w'.inters;
        assert r.inters[..|w.inters|] == r.inters[..|w'.inters|][..|w.inters|];
      }
    }
  }

  /// Penetrace returns nothing exactly when the loop counted more than
  /// maxInter hits, that is, when it found maxInter + 1 hits short of the end
  /// (or maxInter is negative); otherwise it returns at most maxInter hits
  /// and the end point.
  lemma PenetraceEmpty(geo: Geometry, start: V3, end: V3, maxInter: int)
    ensures var w := Walked(geo, geo.normalize(Sub(end, start)), geo.distance(start, end), maxInter, Start(geo, start, end));
      var r := PenetraceOf(geo, start, end, maxInter);
      (r == [] <==> w.interCount > maxInter) &&
      (r == [] <==> maxInter < 0 || w.interCount == maxInter + 1) &&
      (r != [] ==> |r| <= maxInter + 1)
  {
    if maxInter >= 0 {
      WalkedCount(geo, geo.normalize(Sub(end, start)), geo.distance(start, end), maxInter, Start(geo, start, end));
    }
  }

  /// A non-empty result ends at `end`, or at a hit within 0.001 of it.
  lemma PenetraceEnds(geo: Geometry, start: V3, end: V3, maxInter: int)
    ensures var r := PenetraceOf(geo, start, end, maxInter);
      r != [] ==> (r[|r| - 1] == InterPoint(end, geo.distance(start, end)) || geo.distance(r[|r| - 1].pos, end) <= 0.001)
  {
  }

  /// Hit distances are never negative, nor is a distance.
  ghost predicate NonNegative(geo: Geometry) {
    (forall ray :: geo.sceneHit(ray).Some? ==> geo.sceneHit(ray).value >= 0.0) &&
    (forall a, b :: geo.distance(a, b) >= 0.0)
  }

  /// The recorded distances are non-negative, strictly increasing and short
  /// of the end, and each is below the distance already walked.
  ghost predicate Ascending(inters: seq<InterPoint>, totalDist: real, distToEnd: real) {
    totalDist >= 0.0 &&
    (forall i :: 0 <= i < |inters| ==> 0.0 <= inters[i].dist < distToEnd && inters[i].dist < totalDist) &&
    (forall i, j :: 0 <= i < j < |inters| ==> inters[i].dist < inters[j].dist)
  }

  lemma {:induction false} WalkedAscending(geo: Geometry, direction: V3, distToEnd: real, maxInter: int, w: Walk)
    requires NonNegative(geo)
    requires Ascending(w.inters, w.totalDist, distToEnd)
    ensures var r := Walked(geo, direction, distToEnd, maxInter, w);
      Ascending(r.inters, r.totalDist, distToEnd)
    decreases maxInter + 1 - w.interCount
  {
    if w.interCount <= maxInter && w.totalDist < distToEnd && geo.sceneHit(w.ray).Some? {
      var hitDist := geo.sceneHit(w.ray).value;
      if hitDist + w.totalDist < distToEnd {
        var hitPoint := geo.positionAt(w.ray, hitDist);
        var w' := Walk(w.inters + [InterPoint(hitPoint, w.totalDist + hitDist)],
                       Ray(Nudge(hitPoint, direction), direction),
                       w.totalDist + (hitDist + 0.001),
                       w.interCount + 1);
        assert Ascending(w'.inters, w'.totalDist, distToEnd) by {
          forall i, j | 0 <= i < j < |w'.inters|
            ensures w'.inters[i].dist < w'.inters[j].dist
          {
            if j == |w.inters| {
              assert w'.inters[i] == w.inters[i];
            } else {
              assert w'.inters[i] == w.inters[i] && w'.inters[j] == w.inters[j];
            }
          }
        }
        WalkedAscending(geo, direction, distToEnd, maxInter, w');
      }
    }
  }

  /// With non-negative hit distances, Penetrace's points are recorded at
  /// strictly increasing distances from `start`, all between 0 and the
  /// distance to `end`.
  lemma PenetraceAscending(geo: Geometry, start: V3, end: V3, maxInter: int)
    requires NonNegative(geo)
    ensures var r := PenetraceOf(geo, start, end, maxInter);
      (forall i :: 0 <= i < |r| ==> 0.0 <= r[i].dist <= geo.distance(start, end)) &&
      (forall i, j :: 0 <= i < j < |r| ==> r[i].dist < r[j].dist)
  {
    var distToEnd := geo.distance(start, end);
    var w := Walked(geo, geo.normalize(Sub(end, start)), distToEnd, maxInter, Start(geo, start, end));
    WalkedAscending(geo, geo.normalize(Sub(end, start)), distToEnd, maxInter, Start(geo, start, end));
    var r := PenetraceOf(geo, start, end, maxInter);
    if r != [] && r != w.inters {
      assert r == w.inters + [InterPoint(end, distToEnd)];
      forall i, j | 0 <= i < j < |r|
        ensures r[i].dist < r[j].dist
      {
        if j == |w.inters| {
          assert r[i] == w.inters[i];
        } else {
          assert r[i] == w.inters[i] && r[j] == w.inters[j];
        }
      }
    }
  }

  // ---------------------------------------------------------------------------
  // Trace

  function Positions(inters: seq<InterPoint>): (ps: seq<V3>)
    ensures |ps| == |inters|
    ensures forall i :: 0 <= i < |inters| ==> ps[i] == inters[i].pos
  {
    seq(|inters|, i requires 0 <= i < |inters| => inters[i].pos)
  }

  /// Appends the positions of `inters` to `points`, one push_back at a time.
  method PushPositions(points: seq<V3>, inters: seq<InterPoint>) returns (points': seq<V3>)
    ensures points' == points + Positions(inters)
  {
    points' := points;
    for i := 0 to |inters|
      invariant points' == points + Positions(inters[..i])
    {
      assert Positions(inters[..i + 1]) == Positions(inters[..i]) + [inters[i].pos];
      points' := points' + [inters[i].pos];
    }
    assert inters[..|inters|] == inters;
  }

  /// `GetMirrorPoint(pos, triangle)`: pos reflected in the triangle's plane.
  /// A zero normal makes the float division yield NaN, and every
  /// intersection test with a NaN ray fails; such a triangle gives None.
  function MirrorPoint(pos: V3, triangle: Triangle): Option<V3> {
    var normal := triangle.normal;
    var nn := Dot(normal, normal);
    if nn == 0.0 then None
    else
      var t := (Dot(normal, triangle.p2) - Dot(pos, normal)) / nn;
      Some(Add(pos, Scale(Scale(normal, 2.0), t)))
  }

  /// The point just past where the ray from the mirror image towards the
  /// receiver meets the triangle, if it does.
  function ReflectionPoint(geo: Geometry, txPos: V3, rxPos: V3, triangle: Triangle): Option<V3> {
    match MirrorPoint(txPos, triangle)
    case None => None
    case Some(mirror) =>
      var directionToRx := geo.normalize(Sub(rxPos, mirror));
      match geo.triangleHit(triangle, Ray(mirror, directionToRx))
      case None => None
      case Some(distance) => Some(Add(mirror, Scale(directionToRx, distance + 0.001)))
  }

  /// The reflected record for one triangle: both legs must get through with
  /// at most 4 penetrations each.
  function Reflection(geo: Geometry, txPos: V3, rxPos: V3, triangle: Triangle): Option<Record> {
    match ReflectionPoint(geo, txPos, rxPos, triangle)
    case None => None
    case Some(p) =>
      var txToReflect := PenetraceOf(geo, txPos, p, 4);
      var reflectToRx := PenetraceOf(geo, p, rxPos, 4);
      if txToReflect == [] || reflectToRx == [] then None
      else Some(Record(SingleReflected, [txPos] + Positions(txToReflect) + Positions(reflectToRx), |txToReflect|))
  }

  /// The records of the options that are present, in order.
  function Present(os: seq<Option<Record>>): seq<Record> {
    if |os| == 0 then []
    else
      var rest := Present(os[..|os| - 1]);
      match os[|os| - 1]
      case None => rest
      case Some(r) => rest + [r]
  }

  /// What each triangle yields, in the triangles' order.
  function Candidates(geo: Geometry, txPos: V3, rxPos: V3, triangles: seq<Triangle>): (os: seq<Option<Record>>)
    ensures |os| == |triangles|
    ensures forall j :: 0 <= j < |triangles| ==> os[j] == Reflection(geo, txPos, rxPos, triangles[j])
  {
    seq(|triangles|, j requires 0 <= j < |triangles| => Reflection(geo, txPos, rxPos, triangles[j]))
  }

  /// The reflected records of the triangles, in the triangles' order.
  function Reflections(geo: Geometry, txPos: V3, rxPos: V3, triangles: seq<Triangle>): seq<Record> {
    Present(Candidates(geo, txPos, rxPos, triangles))
  }

  function DirectRecord(geo: Geometry, txPos: V3, rxPos: V3): Record {
    Record(Direct, [txPos] + Positions(PenetraceOf(geo, txPos, rxPos, MaxInter)), SizeMax)
  }

  /// What `Trace(txPos, rxPos)` returns.
  function TraceOf(geo: Geometry, triangles: seq<Triangle>, txPos: V3, rxPos: V3): seq<Record> {
    [DirectRecord(geo, txPos, rxPos)] + Reflections(geo, txPos, rxPos, triangles)
  }

  method Reflect(geo: Geometry, txPos: V3, rxPos: V3, triangle: Triangle) returns (r: Option<Record>)
    ensures r == Reflection(geo, txPos, rxPos, triangle)
  {
    var mirror := MirrorPoint(txPos, triangle);
    if mirror.None? {
      return None;
    }
    var directionToRx := geo.normalize(Sub(rxPos, mirror.value));
    var distance := geo.triangleHit(triangle, Ray(mirror.value, directionToRx));
    if distance.None? {
      return None;
    }
    var pointOnTriangle := Add(mirror.value, Scale(directionToRx, distance.value + 0.001));
    var txToReflect := Penetrace(geo, txPos, pointOnTriangle, 4);
    if txToReflect == [] {
      return None;
    }
    var reflectToRx := Penetrace(geo, pointOnTriangle, rxPos, 4);
    if reflectToRx == [] {
      return None;
    }
    var points := PushPositions([txPos], txToReflect);
    var refPosIndex := |points| - 1;
    points := PushPositions(points, reflectToRx);
    r := Some(Record(SingleReflected, points, refPosIndex));
  }

  method Trace(geo: Geometry, triangles: seq<Triangle>, txPos: V3, rxPos: V3) returns (records: seq<Record>)
    ensures records == TraceOf(geo, triangles, txPos, rxPos)
  {
    var directPath := Penetrace(geo, txPos, rxPos, MaxInter);
    var points := PushPositions([txPos], directPath);
    records := [Record(Direct, points, SizeMax)];
    for i := 0 to |triangles|
      invariant records == [DirectRecord(geo, txPos, rxPos)] + Reflections(geo, txPos, rxPos, triangles[..i])
    {
      ghost var os := Candidates(geo, txPos, rxPos, triangles[..i + 1]);
      assert os[..i] == Candidates(geo, txPos, rxPos, triangles[..i]);
      var r := Reflect(geo, txPos, rxPos, triangles[i]);
      if r.Some? {
        records := records + [r.value];
      }
    }
    assert triangles[..|triangles|] == triangles;
  }

  // ---------------------------------------------------------------------------
  // Properties of the records

  /// Every present record comes from an option, in order, and every option
  /// that holds a record contributes it.
  lemma {:induction false} PresentFrom(os: seq<Option<Record>>) returns (idx: seq<nat>)
    ensures var rs := Present(os);
      |idx| == |rs| <= |os| &&
      (forall k :: 0 <= k < |idx| ==> idx[k] < |os| && os[idx[k]] == Some(rs[k])) &&
      (forall k, l :: 0 <= k < l < |idx| ==> idx[k] < idx[l]) &&
      (forall j :: 0 <= j < |os| && os[j].Some? ==> j in idx)
  {
    if |os| == 0 {
      return [];
    }
    var n := |os| - 1;
    var init := os[..n];
    var idx0 := PresentFrom(init);
    var rest := Present(init);
    assert forall k :: 0 <= k < |idx0| ==> os[idx0[k]] == init[idx0[k]];
    if os[n].None? {
      idx := idx0;
      forall j | 0 <= j < |os| && os[j].Some?
        ensures j in idx
      {
        assert j < n && os[j] == init[j];
      }
    } else {
      idx := idx0 + [n];
      var rs := rest + [os[n].value];
      assert Present(os) == rs;
      forall k | 0 <= k < |idx|
        ensures idx[k] < |os| && os[idx[k]] == Some(rs[k])
      {
        if k < |idx0| {
          assert idx[k] == idx0[k] && rs[k] == rest[k];
        }
      }
      forall j | 0 <= j < |os| && os[j].Some?
        ensures j in idx
      {
        if j < n {
          assert os[j] == init[j];
          assert j in idx0;
        } else {
          assert idx[|idx0|] == j;
        }
      }
    }
  }

  /// Every reflected record comes from a triangle, in the triangles' order,
  /// and every triangle that reflects contributes its record.
  lemma ReflectionsFrom(geo: Geometry, txPos: V3, rxPos: V3, triangles: seq<Triangle>)
    returns (idx: seq<nat>)
    ensures var rs := Reflections(geo, txPos, rxPos, triangles);
      |idx| == |rs| <= |triangles| &&
      (forall k :: 0 <= k < |idx| ==> idx[k] < |triangles| && Reflection(geo, txPos, rxPos, triangles[idx[k]]) == Some(rs[k])) &&
      (forall k, l :: 0 <= k < l < |idx| ==> idx[k] < idx[l]) &&
      (forall j :: 0 <= j < |triangles| && Reflection(geo, txPos, rxPos, triangles[j]).Some? ==> j in idx)
  {
    idx := PresentFrom(Candidates(geo, txPos, rxPos, triangles));
  }

  /// Trace always returns the direct record first, as tx followed by the
  /// direct Penetrace points (none when that one returned empty), and at most
  /// one record per triangle after it. The direct record's index is
  /// size_t -1, and the C cast (short) of size_t -1 is -1.
  lemma TraceShape(geo: Geometry, triangles: seq<Triangle>, txPos: V3, rxPos: V3)
    ensures var rs := TraceOf(geo, triangles, txPos, rxPos);
      1 <= |rs| <= 1 + |triangles| &&
      rs[0].kind == Direct && rs[0].points[0] == txPos &&
      rs[0].points[1..] == Positions(PenetraceOf(geo, txPos, rxPos, MaxInter)) &&
      Loss.ShortCast(rs[0].refPosIndex) == -1 &&
      (forall k :: 1 <= k < |rs| ==> rs[k].kind == SingleReflected)
  {
    var idx := ReflectionsFrom(geo, txPos, rxPos, triangles);
    var rs := TraceOf(geo, triangles, txPos, rxPos);
    forall k | 1 <= k < |rs|
      ensures rs[k].kind == SingleReflected
    {
      assert Reflection(geo, txPos, rxPos, triangles[idx[k - 1]]) == Some(rs[k]);
    }
  }

  /// A leg of a reflected path: at most 4 hits and the end point.
  lemma LegShape(geo: Geometry, start: V3, end: V3)
    requires PenetraceOf(geo, start, end, 4) != []
    ensures var r := PenetraceOf(geo, start, end, 4);
      1 <= |r| <= 5 && (r[|r| - 1].pos == end || geo.distance(r[|r| - 1].pos, end) <= 0.001)
  {
    PenetraceEmpty(geo, start, end, 4);
    PenetraceEnds(geo, start, end, 4);
  }

  /// A reflected record starts at tx, marks the last point of its first leg
  /// as the reflection point, which lies at (or within 0.001 of) the point on
  /// the triangle, and ends at (or within 0.001 of) rx. Each leg has at most
  /// 5 points, so the index is a valid short and a valid index of the path
  /// for the reflected path loss.
  lemma ReflectionShape(geo: Geometry, txPos: V3, rxPos: V3, triangle: Triangle)
    requires Reflection(geo, txPos, rxPos, triangle).Some?
    ensures var rec := Reflection(geo, txPos, rxPos, triangle).value;
      var p := ReflectionPoint(geo, txPos, rxPos, triangle).value;
      var last := rec.points[|rec.points| - 1];
      rec.kind == SingleReflected && rec.points[0] == txPos &&
      1 <= rec.refPosIndex <= 5 && rec.refPosIndex + 1 < |rec.points| <= 11 &&
      Loss.ShortCast(rec.refPosIndex) == rec.refPosIndex &&
      (rec.points[rec.refPosIndex] == p || geo.distance(rec.points[rec.refPosIndex], p) <= 0.001) &&
      (last == rxPos || geo.distance(last, rxPos) <= 0.001)
  {
    var p := ReflectionPoint(geo, txPos, rxPos, triangle).value;
    var leg1 := PenetraceOf(geo, txPos, p, 4);
    var leg2 := PenetraceOf(geo, p, rxPos, 4);
    LegShape(geo, txPos, p);
    LegShape(geo, p, rxPos);
    var rec := Reflection(geo, txPos, rxPos, triangle).value;
    assert rec.points == [txPos] + Positions(leg1) + Positions(leg2) && rec.refPosIndex == |leg1|;
    assert rec.points[|leg1|] == leg1[|leg1| - 1].pos;
    assert rec.points[|rec.points| - 1] == leg2[|leg2| - 1].pos;
  }
}
