/// sim/signal/core/loss.hpp: the loss and delay of a traced path. A path is
/// a polyline of points; its segments alternate between air and obstacle, the
/// effective length weights obstacle segments by MAT_A, and the free-space
/// path loss of that length is the path's loss. A reflected path shifts the
/// alternation at the reflection point and adds the reflection loss.
///
/// Floats are modelled as reals. The transcendental parts (log10, the
/// Euclidean distance, the Fresnel coefficient and its total-reflection test)
/// are parameters.
module Loss {
  datatype V3 = V3(x: real, y: real, z: real)

  const LightSpeed: real := 299792458.0
  const AirIor: real := 1.00029
  const MatIor: real := 1.5
  const MatA: real := 30.0

  /// A `short int`.
  type Short = i: int | -32768 <= i < 32768

  /// `20 * log10(distance) + 20 * log10(freq) - 147.55`
  function Fspl(distance: real, freq: real, log10: real -> real): real {
    20.0 * log10(distance) + 20.0 * log10(freq) - 147.55
  }

  /// `(short int)i`: the value of i modulo 2^16 in the range of a short.
  function ShortCast(i: nat): (r: Short)
    ensures i < 32768 ==> r == i
    ensures 32768 <= i < 65536 ==> r == i - 65536
  {
    (i + 32768) % 65536 - 32768
  }

  /// How many of the segment indices 0 … n-1 the counter `s` is bumped at:
  /// those whose cast to short equals refIndex.
  function BumpsBefore(n: nat, refIndex: Short): nat {
    if n == 0 then 0 else BumpsBefore(n - 1, refIndex) + (if ShortCast(n - 1) == refIndex then 1 else 0)
  }

  /// The weight of segment i: air (1) when `s` is even, obstacle (MAT_A) when
  /// odd, where s is i plus the bumps up to and including segment i.
  function Weight(i: nat, refIndex: Short): real {
    if (i + BumpsBefore(i + 1, refIndex)) % 2 == 0 then 1.0 else MatA
  }

  /// `Vec3::Distance(path[i], path[i+1])` for every segment.
  function Dists(path: seq<V3>, dist: (V3, V3) -> real): (ds: seq<real>)
    requires |path| >= 1
    ensures |ds| == |path| - 1
    ensures forall i :: 0 <= i < |ds| ==> ds[i] == dist(path[i], path[i + 1])
  {
    seq(|path| - 1, i requires 0 <= i < |path| - 1 => dist(path[i], path[i + 1]))
  }

  /// The effective length of the first n segments.
  function EffLen(ds: seq<real>, refIndex: Short, n: nat): real
    requires n <= |ds|
  {
    if n == 0 then 0.0 else EffLen(ds, refIndex, n - 1) + Weight(n - 1, refIndex) * ds[n - 1]
  }

  /// `PathLoss(path, txFreq, refIndex)`. The path must not be empty: the
  /// loop bound `path.size() - 1` is unsigned and wraps for an empty path.
  method PathLoss(path: seq<V3>, txFreq: real, refIndex: Short, dist: (V3, V3) -> real, log10: real -> real)
    returns (loss: real)
    requires |path| >= 1
    ensures loss == Fspl(EffLen(Dists(path, dist), refIndex, |path| - 1), txFreq, log10)
  {
    var ds := Dists(path, dist);  // Vec3::Distance of each segment
    var effLen := 0.0;
    var s: nat := 0;
    for i := 0 to |path| - 1
      invariant effLen == EffLen(ds, refIndex, i)
      invariant s == i + BumpsBefore(i, refIndex)
    {
      var segmentDist := ds[i];
      if ShortCast(i) == refIndex {
        s := s + 1;
      }
      CounterStep(i, refIndex, s);
      if s % 2 == 0 {
        effLen := effLen + segmentDist;
      } else {
        effLen := effLen + MatA * segmentDist;
      }
      s := s + 1;
    }
    loss := Fspl(effLen, txFreq, log10);
  }

  /// The counter after the bump at segment i decides that segment's weight,
  /// and one more step gives the counter at segment i + 1.
  lemma CounterStep(i: nat, refIndex: Short, s: nat)
    requires s == i + BumpsBefore(i + 1, refIndex)
    ensures Weight(i, refIndex) == if s % 2 == 0 then 1.0 else MatA
    ensures s + 1 == (i + 1) + BumpsBefore(i + 1, refIndex)
  {
  }

  // ---------------------------------------------------------------------------
  // Classification

  /// On paths shorter than 2^15 segments the cast is the identity, so `s` is
  /// bumped once, at refIndex, when refIndex is a segment index.
  lemma {:induction false} BumpsShort(n: nat, refIndex: Short)
    requires n <= 32768
    ensures BumpsBefore(n, refIndex) == if 0 <= refIndex < n then 1 else 0
  {
    if n > 0 {
      BumpsShort(n - 1, refIndex);
    }
  }

  /// Segment i is air when s is even and obstacle when odd, with s = i
  /// before refIndex and s = i + 1 from refIndex on.
  lemma Classification(i: nat, refIndex: Short)
    requires i < 32768
    ensures var s := if 0 <= refIndex <= i then i + 1 else i;
      Weight(i, refIndex) == if s % 2 == 0 then 1.0 else MatA
  {
    BumpsShort(i + 1, refIndex);
  }

  /// With the default refIndex = -1 the segments simply alternate, starting
  /// with air.
  lemma DefaultAlternates(i: nat)
    requires i < 32768
    ensures Weight(i, -1) == if i % 2 == 0 then 1.0 else MatA
  {
    Classification(i, -1);
  }

  /// The two segments that meet at the reflection point are classified alike.
  lemma ReflectionPointAlike(refIndex: Short)
    requires 1 <= refIndex
    ensures Weight(refIndex - 1, refIndex) == Weight(refIndex, refIndex)
  {
    Classification(refIndex - 1, refIndex);
    Classification(refIndex, refIndex);
  }

  /// On a path of 2^16 + 1 points the cast wraps: segment 65535 casts to -1,
  /// so even the default refIndex bumps `s` there and that segment counts as
  /// air although its index is odd.
  lemma {:induction false} DefaultWraps(n: nat)
    requires n <= 65536
    ensures BumpsBefore(n, -1) == if n == 65536 then 1 else 0
  {
    if n > 0 {
      DefaultWraps(n - 1);
    }
  }

  lemma DefaultWrapsWeight()
    ensures Weight(65535, -1) == 1.0
  {
    DefaultWraps(65536);
  }

  // ---------------------------------------------------------------------------
  // The effective length

  function Sum(ds: seq<real>, n: nat): real
    requires n <= |ds|
  {
    if n == 0 then 0.0 else Sum(ds, n - 1) + ds[n - 1]
  }

  lemma WeightedSegment(w: real, d: real)
    requires w == 1.0 || w == MatA
    requires d >= 0.0
    ensures d <= w * d <= MatA * d
  {
    if w == 1.0 {
      assert w * d == d;
    } else {
      assert w * d == MatA * d;
    }
  }

  /// With non-negative distances the effective length lies between the
  /// geometric length and MAT_A times it.
  lemma {:induction false} EffLenBounds(ds: seq<real>, refIndex: Short, n: nat)
    requires n <= |ds|
    requires forall i :: 0 <= i < |ds| ==> ds[i] >= 0.0
    ensures Sum(ds, n) <= EffLen(ds, refIndex, n) <= MatA * Sum(ds, n)
  {
    if n > 0 {
      EffLenBounds(ds, refIndex, n - 1);
      WeightedSegment(Weight(n - 1, refIndex), ds[n - 1]);
    }
  }

  /// Lengthening any segment never shortens the effective length.
  lemma {:induction false} EffLenMonotone(ds: seq<real>, ds': seq<real>, refIndex: Short, n: nat)
    requires n <= |ds| == |ds'|
    requires forall i :: 0 <= i < |ds| ==> ds[i] <= ds'[i]
    ensures EffLen(ds, refIndex, n) <= EffLen(ds', refIndex, n)
  {
    if n > 0 {
      EffLenMonotone(ds, ds', refIndex, n - 1);
      assert Weight(n - 1, refIndex) == 1.0 || Weight(n - 1, refIndex) == MatA;
    }
  }

  // ---------------------------------------------------------------------------
  // Delay

  /// The travel time of the first n segments: even segments at the speed of
  /// light in air, odd ones in the material.
  function Time(ds: seq<real>, n: nat): real
    requires n <= |ds|
  {
    if n == 0 then 0.0
    else Time(ds, n - 1) + (if (n - 1) % 2 == 0 then (ds[n - 1] / LightSpeed) * AirIor else (ds[n - 1] / LightSpeed) * MatIor)
  }

  /// `GetDelay(path)`: the travel time in nanoseconds.
  method GetDelay(path: seq<V3>, dist: (V3, V3) -> real) returns (ns: real)
    requires |path| >= 1
    ensures ns == Time(Dists(path, dist), |path| - 1) * 1000000000.0
  {
    var ds := Dists(path, dist);  // Vec3::Distance of each segment
    var time := 0.0;
    for i := 0 to |path| - 1
      invariant time == Time(ds, i)
    {
      var segmentDist := ds[i];
      TimeStep(ds, i);
      if i % 2 == 0 {
        time := time + (segmentDist / LightSpeed) * AirIor;
      } else {
        time := time + (segmentDist / LightSpeed) * MatIor;
      }
    }
    ns := time * 1000000000.0;
  }

  lemma TimeStep(ds: seq<real>, i: nat)
    requires i < |ds|
    ensures i % 2 == 0 ==> Time(ds, i + 1) == Time(ds, i) + (ds[i] / LightSpeed) * AirIor
    ensures i % 2 != 0 ==> Time(ds, i + 1) == Time(ds, i) + (ds[i] / LightSpeed) * MatIor
  {
  }

  /// The delay classifies by segment parity alone: it agrees with the loss's
  /// classification for the default refIndex and disagrees from refIndex on.
  lemma DelayClassification(i: nat, refIndex: Short)
    requires i < 32768
    ensures refIndex == -1 ==> (i % 2 == 0 <==> Weight(i, refIndex) == 1.0)
    ensures 0 <= refIndex <= i ==> (i % 2 == 0 <==> Weight(i, refIndex) == MatA)
  {
    Classification(i, refIndex);
  }

  /// With non-negative distances the travel time lies between the time at the
  /// speed of light in air and the time in the material.
  lemma {:induction false} TimeBounds(ds: seq<real>, n: nat)
    requires n <= |ds|
    requires forall i :: 0 <= i < |ds| ==> ds[i] >= 0.0
    ensures (Sum(ds, n) / LightSpeed) * AirIor <= Time(ds, n) <= (Sum(ds, n) / LightSpeed) * MatIor
  {
    if n > 0 {
      TimeBounds(ds, n - 1);
      var d := ds[n - 1] / LightSpeed;
      assert d >= 0.0;
      assert (Sum(ds, n) / LightSpeed) == (Sum(ds, n - 1) / LightSpeed) + d;
    }
  }

  // ---------------------------------------------------------------------------
  // Reflection

  /// `GetRefCoe(tx, rx, refPos, matPerm, false)`: exactly 1 when the
  /// total-reflection test holds, otherwise the TE Fresnel coefficient. Both
  /// the test and the coefficient are trigonometry and come in as parameters.
  function RefCoe(tx: V3, rx: V3, refPos: V3, matPerm: real,
                  totalReflection: (V3, V3, V3, real) -> bool, fresnelTE: (V3, V3, V3, real) -> real): real
  {
    if totalReflection(tx, rx, refPos, matPerm) then 1.0 else fresnelTE(tx, rx, refPos, matPerm)
  }

  function Abs(x: real): real {
    if x < 0.0 then -x else x
  }

  /// `ReflectedPathLoss(path, refIndex, txFreq, matPerm)`: the loss of the
  /// path with the reflection at path[refIndex], plus 20·log10(1/|Γ|).
  method ReflectedPathLoss(path: seq<V3>, refIndex: Short, txFreq: real, matPerm: real,
                           dist: (V3, V3) -> real, log10: real -> real,
                           totalReflection: (V3, V3, V3, real) -> bool, fresnelTE: (V3, V3, V3, real) -> real)
    returns (loss: real)
    requires 0 <= refIndex < |path|
    ensures var refCoeff := RefCoe(path[0], path[|path| - 1], path[refIndex], matPerm, totalReflection, fresnelTE);
      loss == Fspl(EffLen(Dists(path, dist), refIndex, |path| - 1), txFreq, log10) + 20.0 * -log10(Abs(refCoeff))
  {
    var refCoeff := RefCoe(path[0], path[|path| - 1], path[refIndex], matPerm, totalReflection, fresnelTE);
    var totalLoss := PathLoss(path, txFreq, refIndex, dist, log10);
    loss := totalLoss + 20.0 * -log10(Abs(refCoeff));
  }

  /// Under total reflection the coefficient is exactly 1, so a reflected path
  /// loses no more than its path loss (for a log10 with log10(1) = 0).
  lemma TotalReflectionFree(path: seq<V3>, refIndex: Short, matPerm: real, log10: real -> real,
                            totalReflection: (V3, V3, V3, real) -> bool, fresnelTE: (V3, V3, V3, real) -> real)
    requires 0 <= refIndex < |path| && log10(1.0) == 0.0
    requires totalReflection(path[0], path[|path| - 1], path[refIndex], matPerm)
    ensures 20.0 * -log10(Abs(RefCoe(path[0], path[|path| - 1], path[refIndex], matPerm, totalReflection, fresnelTE))) == 0.0
  {
  }
}
