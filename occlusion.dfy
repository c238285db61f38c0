/// sim/signal.py: the voxel line-of-sight model. `occlusion` marches a ray
/// through the occupancy grid and records (material, length) segments;
/// `signal` turns them into a loss and a strength; `sigStren` runs `signal` on
/// every unordered pair of controllers and stores the strengths symmetrically.
module Occlusion {
  import opened Wrappers
  import opened Cloud
  import opened Mesh
  import opened Seqs

  // ---------------------------------------------------------------------------
  // Numbers as Python sees them

  /// A float that may be math.inf.
  datatype Ext = Fin(r: real) | Inf

  function Plus(a: Ext, b: Ext): Ext {
    if a.Fin? && b.Fin? then Fin(a.r + b.r) else Inf
  }

  /// Python's int() on a float: truncation toward zero.
  function Trunc(x: real): (r: int)
    ensures x >= 0.0 ==> r as real <= x < r as real + 1.0
    ensures x < 0.0 ==> r as real - 1.0 < x <= r as real
  {
    if x >= 0.0 then x.Floor else -((-x).Floor)
  }

  /// numpy.sign, cast to int.
  function Sign(x: real): int {
    if x > 0.0 then 1 else if x < 0.0 then -1 else 0
  }

  function Abs(x: real): real {
    if x < 0.0 then -x else x
  }

  /// ray is math.dist(p, q). The march uses only that a distance is never
  /// negative and is zero exactly when the two points coincide.
  predicate IsDistance(ray: real, p: Point, q: Point) {
    ray >= 0.0 && (ray == 0.0 <==> p == q)
  }

  // ---------------------------------------------------------------------------
  // The march

  datatype Segment = Segment(kind: int, length: real)

  /// One iteration of the march: the voxel `cell` (with material `kind`) is
  /// occupied by the ray parameter from entry to exit.
  datatype Span = Span(cell: seq<int>, kind: int, entry: real, exit: real)

  /// The per-axis state is well formed: an axis has a direction (step ±1) iff
  /// its delta and its next boundary are finite, and finite deltas are positive.
  predicate AxisOk(step: int, delta: Ext, inter: Ext) {
    && -1 <= step <= 1
    && (step == 0 <==> delta == Inf)
    && (delta == Inf <==> inter == Inf)
    && (delta.Fin? ==> delta.r > 0.0)
  }

  predicate Consistent(step: seq<int>, deltas: seq<Ext>, inters: seq<Ext>) {
    && |step| == 3 && |deltas| == 3 && |inters| == 3
    && AxisOk(step[0], deltas[0], inters[0])
    && AxisOk(step[1], deltas[1], inters[1])
    && AxisOk(step[2], deltas[2], inters[2])
  }

  /// The smaller of a and a possibly infinite value.
  function MinExt(a: real, e: Ext): real {
    if e.Fin? && e.r < a then e.r else a
  }

  /// `min(*inters, ray)`
  function MinExit(inters: seq<Ext>, ray: real): (m: real)
    requires |inters| == 3
    ensures m <= ray
    ensures forall a :: 0 <= a < 3 && inters[a].Fin? ==> m <= inters[a].r
    ensures m == ray || inters[0] == Fin(m) || inters[1] == Fin(m) || inters[2] == Fin(m)
  {
    MinExt(MinExt(MinExt(ray, inters[0]), inters[1]), inters[2])
  }

  /// The stepping rule: every axis whose next boundary equals `exits` steps into
  /// the neighbouring voxel and moves its boundary on by its delta, in the same
  /// iteration; the other axes stay.
  function Advance(pos: seq<int>, inters: seq<Ext>, step: seq<int>, deltas: seq<Ext>, exits: real): (r: (seq<int>, seq<Ext>))
    requires |pos| == 3 && |inters| == 3 && |step| == 3 && |deltas| == 3
    ensures |r.0| == 3 && |r.1| == 3
    ensures forall a :: 0 <= a < 3 ==>
      if inters[a] == Fin(exits) then r.0[a] == pos[a] + step[a] && r.1[a] == Plus(inters[a], deltas[a])
      else r.0[a] == pos[a] && r.1[a] == inters[a]
  {
    (seq(3, a requires 0 <= a < 3 => if inters[a] == Fin(exits) then pos[a] + step[a] else pos[a]),
     seq(3, a requires 0 <= a < 3 => if inters[a] == Fin(exits) then Plus(inters[a], deltas[a]) else inters[a]))
  }

  /// How many more times an axis can step before its boundary passes ray.
  function AxisBudget(inter: Ext, delta: Ext, ray: real): nat {
    if inter.Fin? && delta.Fin? && delta.r > 0.0 && inter.r <= ray then
      var q := (ray - inter.r) / delta.r;
      assert q >= 0.0;
      q.Floor + 1
    else 0
  }

  function Budget(inters: seq<Ext>, deltas: seq<Ext>, ray: real): nat
    requires |inters| == 3 && |deltas| == 3
  {
    AxisBudget(inters[0], deltas[0], ray) + AxisBudget(inters[1], deltas[1], ray) + AxisBudget(inters[2], deltas[2], ray)
  }

  lemma AxisBudgetStep(inter: Ext, delta: Ext, ray: real)
    requires inter.Fin? && delta.Fin? && delta.r > 0.0 && inter.r <= ray
    ensures AxisBudget(Plus(inter, delta), delta, ray) == AxisBudget(inter, delta, ray) - 1
  {
    DivShift(ray - inter.r, delta.r);
  }

  lemma DivShift(x: real, d: real)
    requires d > 0.0
    ensures (x - d) / d == x / d - 1.0
  {
    calc {
      (x - d) / d;
      x / d - d / d;
      x / d - 1.0;
    }
  }

  lemma AxisBudgetAdvance(inter: Ext, delta: Ext, ray: real, exits: real, inter': Ext)
    requires delta.Fin? ==> delta.r > 0.0
    requires inter.Fin? ==> exits <= inter.r
    requires exits <= ray
    requires inter' == if inter == Fin(exits) then Plus(inter, delta) else inter
    requires inter.Fin? <==> delta.Fin?
    ensures AxisBudget(inter', delta, ray) <= AxisBudget(inter, delta, ray)
    ensures inter == Fin(exits) ==> AxisBudget(inter', delta, ray) < AxisBudget(inter, delta, ray)
  {
    if inter == Fin(exits) {
      AxisBudgetStep(inter, delta, ray);
    }
  }

  /// Each iteration of the march uses up budget, or ends the march.
  lemma BudgetDecreases(pos: seq<int>, inters: seq<Ext>, step: seq<int>, deltas: seq<Ext>, ray: real)
    requires Consistent(step, deltas, inters) && |pos| == 3
    ensures var exits := MinExit(inters, ray);
      var next := Advance(pos, inters, step, deltas, exits);
      && Consistent(step, deltas, next.1)
      && Budget(next.1, deltas, ray) <= Budget(inters, deltas, ray)
      && (exits < ray ==> Budget(next.1, deltas, ray) < Budget(inters, deltas, ray))
  {
    var exits := MinExit(inters, ray);
    var next := Advance(pos, inters, step, deltas, exits);
    AxisBudgetAdvance(inters[0], deltas[0], ray, exits, next.1[0]);
    AxisBudgetAdvance(inters[1], deltas[1], ray, exits, next.1[1]);
    AxisBudgetAdvance(inters[2], deltas[2], ray, exits, next.1[2]);
  }

  /// The material the march reads at a voxel: the grid value, or 0 where numpy
  /// raises IndexError (`with suppress(IndexError)`).
  function KindAt(g: Voxels, pos: seq<int>): int
    requires |pos| == 3
  {
    match Lookup(g, pos)
    case Some(k) => k
    case None => 0
  }

  /// The iterations of the `while t < ray` loop from the given state, in
  /// travel order: consecutive spans meet, the first starts at t and the last
  /// ends exactly at ray.
  function March(g: Voxels, step: seq<int>, deltas: seq<Ext>, ray: real, pos: seq<int>, inters: seq<Ext>, t: real): seq<Span>
    requires Consistent(step, deltas, inters) && |pos| == 3
    decreases Budget(inters, deltas, ray), if t < ray then 1 else 0
  {
    if t >= ray then []
    else
      var exits := MinExit(inters, ray);
      var next := Advance(pos, inters, step, deltas, exits);
      BudgetDecreases(pos, inters, step, deltas, ray);
      [Span(pos, KindAt(g, pos), t, exits)] + March(g, step, deltas, ray, next.0, next.1, exits)
  }

  /// One iteration of the loop: the span from t to the next exit is recorded
  /// when longer than 0.01, and the march continues from the advanced state.
  lemma MarchStep(g: Voxels, step: seq<int>, deltas: seq<Ext>, ray: real, pos: seq<int>, inters: seq<Ext>, t: real)
    requires Consistent(step, deltas, inters) && |pos| == 3 && t < ray
    ensures var exits := MinExit(inters, ray);
      var next := Advance(pos, inters, step, deltas, exits);
      && Consistent(step, deltas, next.1)
      && Recorded(March(g, step, deltas, ray, pos, inters, t))
         == (if exits - t > 0.01 then [Segment(KindAt(g, pos), exits - t)] else [])
            + Recorded(March(g, step, deltas, ray, next.0, next.1, exits))
  {
    var exits := MinExit(inters, ray);
    var next := Advance(pos, inters, step, deltas, exits);
    BudgetDecreases(pos, inters, step, deltas, ray);
    MarchUnfold(g, step, deltas, ray, pos, inters, t);
    RecordedCons(Span(pos, KindAt(g, pos), t, exits), March(g, step, deltas, ray, next.0, next.1, exits));
  }

  lemma MarchUnfold(g: Voxels, step: seq<int>, deltas: seq<Ext>, ray: real, pos: seq<int>, inters: seq<Ext>, t: real)
    requires Consistent(step, deltas, inters) && |pos| == 3 && t < ray
    ensures var exits := MinExit(inters, ray);
      var next := Advance(pos, inters, step, deltas, exits);
      && Consistent(step, deltas, next.1)
      && March(g, step, deltas, ray, pos, inters, t)
         == [Span(pos, KindAt(g, pos), t, exits)] + March(g, step, deltas, ray, next.0, next.1, exits)
  {
    BudgetDecreases(pos, inters, step, deltas, ray);
  }

  lemma RecordedCons(s: Span, rest: seq<Span>)
    ensures Recorded([s] + rest) == Kept(s) + Recorded(rest)
  {
    assert ([s] + rest)[0] == s;
    assert ([s] + rest)[1..] == rest;
  }

  /// `if seg > 0.01: obstacles.append((kind, seg))`: the spans longer than
  /// 0.01, in order.
  function Recorded(sp: seq<Span>): seq<Segment> {
    if sp == [] then [] else Kept(sp[0]) + Recorded(sp[1..])
  }

  /// What one span contributes: its segment when longer than 0.01.
  function Kept(s: Span): seq<Segment> {
    if s.exit - s.entry > 0.01 then [Segment(s.kind, s.exit - s.entry)] else []
  }

  /// Recording keeps travel order: recording a concatenation concatenates.
  lemma {:induction false} RecordedAppend(a: seq<Span>, b: seq<Span>)
    ensures Recorded(a + b) == Recorded(a) + Recorded(b)
  {
    if a != [] {
      RecordedAppend(a[1..], b);
      RecordedAppendStep(a, b);
    } else {
      assert a + b == b;
    }
  }

  lemma RecordedAppendStep(a: seq<Span>, b: seq<Span>)
    requires a != [] && Recorded(a[1..] + b) == Recorded(a[1..]) + Recorded(b)
    ensures Recorded(a + b) == Recorded(a) + Recorded(b)
  {
    assert (a + b)[0] == a[0];
    assert (a + b)[1..] == a[1..] + b;
    Assoc(Kept(a[0]), Recorded(a[1..]), Recorded(b));
  }

  /// Only spans longer than 0.01 are recorded, one segment per span at most.
  lemma {:induction false} RecordedLong(sp: seq<Span>)
    ensures |Recorded(sp)| <= |sp|
    ensures forall k :: 0 <= k < |Recorded(sp)| ==> Recorded(sp)[k].length > 0.01
  {
    if sp != [] {
      RecordedLong(sp[1..]);
    }
  }

  /// The spans are in travel order: the first starts at t, each one starts
  /// where the previous one ended, every exit is at most ray and the last is
  /// exactly ray; each span reads the material of its own voxel.
  lemma {:induction false} MarchShape(g: Voxels, step: seq<int>, deltas: seq<Ext>, ray: real, pos: seq<int>, inters: seq<Ext>, t: real)
    requires Consistent(step, deltas, inters) && |pos| == 3
    ensures var sp := March(g, step, deltas, ray, pos, inters, t);
      && (|sp| > 0 <==> t < ray)
      && (|sp| > 0 ==> sp[0].entry == t && sp[0].cell == pos && sp[|sp| - 1].exit == ray)
      && (forall k :: 0 <= k < |sp| ==> |sp[k].cell| == 3 && sp[k].exit <= ray && sp[k].kind == KindAt(g, sp[k].cell))
      && (forall j, k :: 0 <= j && k == j + 1 && k < |sp| ==> sp[j].exit == sp[k].entry)
    decreases Budget(inters, deltas, ray), if t < ray then 1 else 0
  {
    if t < ray {
      var exits := MinExit(inters, ray);
      var next := Advance(pos, inters, step, deltas, exits);
      MarchUnfold(g, step, deltas, ray, pos, inters, t);
      BudgetDecreases(pos, inters, step, deltas, ray);
      MarchShape(g, step, deltas, ray, next.0, next.1, exits);
      var rest := March(g, step, deltas, ray, next.0, next.1, exits);
      var sp := March(g, step, deltas, ray, pos, inters, t);
      assert forall k :: 1 <= k < |sp| ==> sp[k] == rest[k - 1];
    }
  }

  /// The sum of the recorded lengths.
  function Total(segs: seq<Segment>): real {
    if segs == [] then 0.0 else segs[0].length + Total(segs[1..])
  }

  lemma {:induction false} TotalAppend(a: seq<Segment>, b: seq<Segment>)
    ensures Total(a + b) == Total(a) + Total(b)
  {
    if a != [] {
      assert (a + b)[0] == a[0];
      assert (a + b)[1..] == a[1..] + b;
      TotalAppend(a[1..], b);
    } else {
      assert a + b == b;
    }
  }

  /// No finite boundary lies behind the ray parameter t.
  predicate Ahead(inters: seq<Ext>, t: real)
    requires |inters| == 3
  {
    forall a :: 0 <= a < 3 && inters[a].Fin? ==> inters[a].r >= t
  }

  /// When no boundary lies behind t, the march from t never goes backwards,
  /// so the lengths it records add up to at most ray - t.
  lemma {:induction false} RecordedWithinRay(g: Voxels, step: seq<int>, deltas: seq<Ext>, ray: real, pos: seq<int>, inters: seq<Ext>, t: real)
    requires Consistent(step, deltas, inters) && |pos| == 3 && Ahead(inters, t)
    ensures Total(Recorded(March(g, step, deltas, ray, pos, inters, t))) <= if t < ray then ray - t else 0.0
    decreases Budget(inters, deltas, ray), if t < ray then 1 else 0
  {
    if t < ray {
      var exits := MinExit(inters, ray);
      var next := Advance(pos, inters, step, deltas, exits);
      BudgetDecreases(pos, inters, step, deltas, ray);
      MarchStep(g, step, deltas, ray, pos, inters, t);
      assert exits >= t;
      forall a | 0 <= a < 3 && next.1[a].Fin? ensures next.1[a].r >= exits {
        if inters[a] == Fin(exits) {
          assert deltas[a].Fin? && deltas[a].r > 0.0;
        }
      }
      RecordedWithinRay(g, step, deltas, ray, next.0, next.1, exits);
      var head := if exits - t > 0.01 then [Segment(KindAt(g, pos), exits - t)] else [];
      TotalAppend(head, Recorded(March(g, step, deltas, ray, next.0, next.1, exits)));
    }
  }

  /// Consecutive cells differ on each axis by nothing or by that axis' step.
  predicate Adjacent(c: seq<int>, c': seq<int>, step: seq<int>) {
    |c| == 3 && |c'| == 3 && |step| == 3 &&
    forall a :: 0 <= a < 3 ==> c'[a] == c[a] || c'[a] == c[a] + step[a]
  }

  /// An axis without a direction keeps its starting coordinate.
  predicate Frozen(pos: seq<int>, c: seq<int>, step: seq<int>) {
    |pos| == 3 && |c| == 3 && |step| == 3 &&
    forall a :: 0 <= a < 3 && step[a] == 0 ==> c[a] == pos[a]
  }

  /// The march moves to a neighbouring voxel each time (several axes may step
  /// at once), and never along an axis the ray does not travel.
  lemma {:induction false} MarchCells(g: Voxels, step: seq<int>, deltas: seq<Ext>, ray: real, pos: seq<int>, inters: seq<Ext>, t: real)
    requires Consistent(step, deltas, inters) && |pos| == 3
    ensures var sp := March(g, step, deltas, ray, pos, inters, t);
      && (forall k :: 0 <= k < |sp| ==> Frozen(pos, sp[k].cell, step))
      && (forall j, k :: 0 <= j && k == j + 1 && k < |sp| ==> Adjacent(sp[j].cell, sp[k].cell, step))
    decreases Budget(inters, deltas, ray), if t < ray then 1 else 0
  {
    if t < ray {
      var exits := MinExit(inters, ray);
      var next := Advance(pos, inters, step, deltas, exits);
      MarchUnfold(g, step, deltas, ray, pos, inters, t);
      BudgetDecreases(pos, inters, step, deltas, ray);
      MarchCells(g, step, deltas, ray, next.0, next.1, exits);
      MarchShape(g, step, deltas, ray, next.0, next.1, exits);
      var rest := March(g, step, deltas, ray, next.0, next.1, exits);
      var sp := March(g, step, deltas, ray, pos, inters, t);
      assert forall k :: 1 <= k < |sp| ==> sp[k] == rest[k - 1];
      assert Adjacent(pos, next.0, step);
      assert Frozen(pos, next.0, step);
      forall k | 0 <= k < |rest| ensures Frozen(pos, rest[k].cell, step) {
        assert Frozen(next.0, rest[k].cell, step);
      }
    }
  }

  // ---------------------------------------------------------------------------
  // Initial state

  /// diff: the normalised direction `(e - s)/ray`.
  function Direction(start: Point, end: Point, ray: real): seq<real>
    requires ray != 0.0
  {
    seq(3, a requires 0 <= a < 3 => (end[a] - start[a]) / ray)
  }

  function InitPos(start: Point): seq<int> {
    seq(3, a requires 0 <= a < 3 => Trunc(start[a]))
  }

  function InitStep(diff: seq<real>): seq<int>
    requires |diff| == 3
  {
    seq(3, a requires 0 <= a < 3 => Sign(diff[a]))
  }

  /// `(int(coord + (s > 0)) - coord)/d if d else inf`
  function InitInters(start: Point, diff: seq<real>): seq<Ext>
    requires |diff| == 3
  {
    seq(3, a requires 0 <= a < 3 =>
      if diff[a] != 0.0 then Fin((Trunc(start[a] + (if diff[a] > 0.0 then 1.0 else 0.0)) as real - start[a]) / diff[a])
      else Inf)
  }

  /// `abs(1/d_) if d_ else inf`
  function InitDeltas(diff: seq<real>): seq<Ext>
    requires |diff| == 3
  {
    seq(3, a requires 0 <= a < 3 => if diff[a] != 0.0 then Fin(Abs(1.0 / diff[a])) else Inf)
  }

  lemma InitConsistent(start: Point, diff: seq<real>)
    requires |diff| == 3
    ensures Consistent(InitStep(diff), InitDeltas(diff), InitInters(start, diff))
  {
    var d := InitDeltas(diff);
    forall a | 0 <= a < 3 ensures d[a].Fin? ==> d[a].r > 0.0 {
      if diff[a] != 0.0 {
        assert 1.0 / diff[a] != 0.0;
      }
    }
  }

  /// The spans of the march from start to end.
  function Spans(start: Point, end: Point, g: Voxels, ray: real): seq<Span>
    requires ray != 0.0
  {
    var diff := Direction(start, end, ray);
    InitConsistent(start, diff);
    March(g, InitStep(diff), InitDeltas(diff), ray, InitPos(start), InitInters(start, diff), 0.0)
  }

  /// What `occlusion(start, end, cloud)` returns: ZeroDivisionError when the
  /// two points coincide (the direction divides by ray = 0), otherwise the
  /// recorded segments of the march.
  function Obstacles(start: Point, end: Point, g: Voxels, ray: real): (r: Result<seq<Segment>>)
    requires IsDistance(ray, start, end)
    ensures r.Err? <==> start == end
    ensures r.Err? ==> r.error == ZeroDivisionError
    ensures r.Ok? ==> forall k :: 0 <= k < |r.value| ==> r.value[k].length > 0.01
  {
    if ray == 0.0 then Err(ZeroDivisionError)
    else
      RecordedLong(Spans(start, end, g, ray));
      Ok(Recorded(Spans(start, end, g, ray)))
  }

  /// The invariant of the `while t < ray` loop is kept by one iteration.
  lemma LoopStep(g: Voxels, step: seq<int>, deltas: seq<Ext>, ray: real, pos: seq<int>, inters: seq<Ext>, t: real,
                 whole: seq<Span>, obstacles: seq<Segment>)
    requires Consistent(step, deltas, inters) && |pos| == 3 && t < ray
    requires Recorded(whole) == obstacles + Recorded(March(g, step, deltas, ray, pos, inters, t))
    ensures var exits := MinExit(inters, ray);
      var next := Advance(pos, inters, step, deltas, exits);
      var obstacles' := if exits - t > 0.01 then obstacles + [Segment(KindAt(g, pos), exits - t)] else obstacles;
      && Consistent(step, deltas, next.1)
      && Budget(next.1, deltas, ray) <= Budget(inters, deltas, ray)
      && (exits < ray ==> Budget(next.1, deltas, ray) < Budget(inters, deltas, ray))
      && Recorded(whole) == obstacles' + Recorded(March(g, step, deltas, ray, next.0, next.1, exits))
  {
    var exits := MinExit(inters, ray);
    var next := Advance(pos, inters, step, deltas, exits);
    var recorded := if exits - t > 0.01 then [Segment(KindAt(g, pos), exits - t)] else [];
    BudgetDecreases(pos, inters, step, deltas, ray);
    MarchStep(g, step, deltas, ray, pos, inters, t);
    Assoc(obstacles, recorded, Recorded(March(g, step, deltas, ray, next.0, next.1, exits)));
  }

  /// The inner `for i, inter in enumerate(inters)` loop: every axis whose
  /// boundary equals exits steps.
  method StepAxes(pos: seq<int>, inters: seq<Ext>, step: seq<int>, deltas: seq<Ext>, exits: real)
    returns (pos': seq<int>, inters': seq<Ext>)
    requires |pos| == 3 && |inters| == 3 && |step| == 3 && |deltas| == 3
    ensures (pos', inters') == Advance(pos, inters, step, deltas, exits)
  {
    pos', inters' := pos, inters;
    for a := 0 to 3
      invariant |pos'| == 3 && |inters'| == 3
      invariant forall b :: 0 <= b < 3 ==> pos'[b] == (if b < a && inters[b] == Fin(exits) then pos[b] + step[b] else pos[b])
      invariant forall b :: 0 <= b < 3 ==> inters'[b] == (if b < a && inters[b] == Fin(exits) then Plus(inters[b], deltas[b]) else inters[b])
    {
      if inters'[a] == Fin(exits) {
        pos' := pos'[a := pos'[a] + step[a]];
        inters' := inters'[a := Plus(inters'[a], deltas[a])];
      }
    }
    var next := Advance(pos, inters, step, deltas, exits);
    assert pos' == next.0;
    assert inters' == next.1;
  }

  /// `occlusion`: the while loop over the voxels the ray crosses.
  method Occlusion(start: Point, end: Point, cloud: Voxels, ray: real) returns (r: Result<seq<Segment>>)
    requires IsDistance(ray, start, end)
    ensures r == Obstacles(start, end, cloud, ray)
  {
    if ray == 0.0 {
      return Err(ZeroDivisionError);
    }
    var diff := Direction(start, end, ray);
    var obstacles: seq<Segment> := [];
    var pos := InitPos(start);
    var step := InitStep(diff);
    var inters := InitInters(start, diff);
    var deltas := InitDeltas(diff);
    InitConsistent(start, diff);
    ghost var whole := March(cloud, step, deltas, ray, pos, inters, 0.0);
    assert whole == Spans(start, end, cloud, ray);
    var t := 0.0;
    while t < ray
      invariant Consistent(step, deltas, inters) && |pos| == 3
      invariant Recorded(whole) == obstacles + Recorded(March(cloud, step, deltas, ray, pos, inters, t))
      decreases Budget(inters, deltas, ray), if t < ray then 1 else 0
    {
      var exits := MinExit(inters, ray);
      var seg := exits - t;
      var kind := 0;
      match Lookup(cloud, pos) {
        case Some(k) => kind := k;
        case None =>
      }
      LoopStep(cloud, step, deltas, ray, pos, inters, t, whole, obstacles);
      if seg > 0.01 {
        obstacles := obstacles + [Segment(kind, seg)];
      }
      pos, inters := StepAxes(pos, inters, step, deltas, exits);
      t := exits;
    }
    assert March(cloud, step, deltas, ray, pos, inters, t) == [];
    assert obstacles == Recorded(whole);
    return Ok(obstacles);
  }

  /// A quotient whose numerator and denominator do not have opposite signs is
  /// non-negative.
  lemma QuotientNonNeg(n: real, d: real)
    requires (n >= 0.0 && d > 0.0) || (n <= 0.0 && d < 0.0)
    ensures n / d >= 0.0
  {
    if d > 0.0 {
      assert n / d * d == n;
    } else {
      assert (-n) / (-d) == n / d;
    }
  }

  /// From a start with non-negative coordinates every first boundary lies
  /// ahead of t = 0: truncation is then the floor.
  lemma InitAhead(start: Point, diff: seq<real>)
    requires |diff| == 3
    requires forall a :: 0 <= a < 3 ==> start[a] >= 0.0
    ensures Ahead(InitInters(start, diff), 0.0)
  {
    var inters := InitInters(start, diff);
    forall a | 0 <= a < 3 && inters[a].Fin? ensures inters[a].r >= 0.0 {
      var c, d := start[a], diff[a];
      if d > 0.0 {
        QuotientNonNeg(Trunc(c + 1.0) as real - c, d);
      } else {
        QuotientNonNeg(Trunc(c) as real - c, d);
      }
    }
  }

  /// The recorded lengths add up to at most dist(start, end) when the start
  /// has non-negative coordinates.
  lemma ObstaclesWithinRay(start: Point, end: Point, g: Voxels, ray: real)
    requires IsDistance(ray, start, end)
    requires forall a :: 0 <= a < 3 ==> start[a] >= 0.0
    ensures var r := Obstacles(start, end, g, ray);
      r.Ok? ==> Total(r.value) <= ray
  {
    if ray != 0.0 {
      var diff := Direction(start, end, ray);
      InitConsistent(start, diff);
      InitAhead(start, diff);
      RecordedWithinRay(g, InitStep(diff), InitDeltas(diff), ray, InitPos(start), InitInters(start, diff), 0.0);
    }
  }

  /// Without the non-negative start, the bound fails: int() truncates -0.5 up
  /// to 0, so the first boundary on a ray heading towards -x lies behind the
  /// start, t first moves back to -0.5, and a 0.6 m ray records 1.1 m.
  lemma NegativeStartOvercounts(g: Voxels)
    ensures var r := Obstacles([-0.5, 0.5, 0.5], [-1.1, 0.5, 0.5], g, 0.6);
      r.Ok? && Total(r.value) > 0.6
  {
    var start: Point := [-0.5, 0.5, 0.5];
    var end: Point := [-1.1, 0.5, 0.5];
    var diff := Direction(start, end, 0.6);
    assert diff == [-1.0, 0.0, 0.0];
    var step := InitStep(diff);
    var deltas := InitDeltas(diff);
    assert step == [-1, 0, 0];
    assert deltas == [Fin(1.0), Inf, Inf];
    assert InitPos(start) == [0, 0, 0];
    assert InitInters(start, diff) == [Fin(-0.5), Inf, Inf];
    InitConsistent(start, diff);
    OvercountMarch(g);
  }

  lemma OvercountMarch(g: Voxels)
    ensures Consistent([-1, 0, 0], [Fin(1.0), Inf, Inf], [Fin(-0.5), Inf, Inf])
    ensures Total(Recorded(March(g, [-1, 0, 0], [Fin(1.0), Inf, Inf], 0.6, [0, 0, 0], [Fin(-0.5), Inf, Inf], 0.0))) == 1.1
  {
    var step, deltas := [-1, 0, 0], [Fin(1.0), Inf, Inf];
    var pos0, inters0 := [0, 0, 0], [Fin(-0.5), Inf, Inf];
    assert MinExit(inters0, 0.6) == -0.5;
    MarchStep(g, step, deltas, 0.6, pos0, inters0, 0.0);
    var n1 := Advance(pos0, inters0, step, deltas, -0.5);
    assert n1.1[0] == Fin(0.5) && n1.1[1] == Inf && n1.1[2] == Inf;
    assert MinExit(n1.1, 0.6) == 0.5;
    MarchStep(g, step, deltas, 0.6, n1.0, n1.1, -0.5);
    var n2 := Advance(n1.0, n1.1, step, deltas, 0.5);
    assert n2.1[0] == Fin(1.5) && n2.1[1] == Inf && n2.1[2] == Inf;
    assert MinExit(n2.1, 0.6) == 0.6;
    MarchStep(g, step, deltas, 0.6, n2.0, n2.1, 0.5);
    var n3 := Advance(n2.0, n2.1, step, deltas, 0.6);
    assert March(g, step, deltas, 0.6, n3.0, n3.1, 0.6) == [];
    var s1, s2 := Segment(KindAt(g, n1.0), 1.0), Segment(KindAt(g, n2.0), 0.1);
    var r := Recorded(March(g, step, deltas, 0.6, pos0, inters0, 0.0));
    assert r == [] + ([s1] + ([s2] + []));
    assert r == [s1, s2];
    assert r[1..] == [s2] && [s2][1..] == [];
    assert Total([s2]) == 0.1;
  }

  // ---------------------------------------------------------------------------
  // Loss and strength

  /// The `density` table: loss per metre of each material.
  function Density(name: string): (r: Option<real>)
    ensures r.Some? <==> name in {"empty", "shelf", "pile", "wall"}
  {
    if name == "empty" then Some(1.0)
    else if name == "shelf" then Some(2.0)
    else if name == "pile" then Some(3.0)
    else if name == "wall" then Some(5.0)
    else None
  }

  /// `density[KINDS[code]]`, or None where KINDS raises KeyError. Every
  /// material costs between 1 (air) and 5 (wall) per metre.
  function DensityOf(code: int): (r: Option<real>)
    ensures r.Some? <==> 0 <= code <= 3
    ensures r.Some? ==> 1.0 <= r.value <= 5.0
  {
    match KindName(code)
    case None => None
    case Some(name) => Density(name)
  }

  /// `sum(density[KINDS[o[0]]]*o[1] for o in obstacles)`, failing with
  /// KeyError at the first segment whose material is not a key of KINDS.
  function Loss(obs: seq<Segment>): (r: Result<real>)
    ensures r.Err? <==> exists k :: 0 <= k < |obs| && !(0 <= obs[k].kind <= 3)
    ensures r.Err? ==> r.error == KeyError
  {
    if obs == [] then Ok(0.0)
    else
      match DensityOf(obs[0].kind)
      case None => Err(KeyError)
      case Some(d) =>
        var rest := Loss(obs[1..]);
        if rest.Err? then
          var k :| 0 <= k < |obs[1..]| && !(0 <= obs[1..][k].kind <= 3);
          assert obs[k + 1] == obs[1..][k];
          rest
        else
          assert forall k :: 1 <= k < |obs| ==> obs[k] == obs[1..][k - 1];
          Ok(d * obs[0].length + rest.value)
  }

  /// Weighting each length by a density between 1 and 5 puts the loss between
  /// the recorded length and five times it.
  lemma {:induction false} LossBounds(obs: seq<Segment>)
    requires Loss(obs).Ok?
    requires forall k :: 0 <= k < |obs| ==> obs[k].length >= 0.0
    ensures Total(obs) <= Loss(obs).value <= 5.0 * Total(obs)
  {
    if obs != [] {
      var d := DensityOf(obs[0].kind).value;
      var l := obs[0].length;
      LossBounds(obs[1..]);
      assert (d - 1.0) * l >= 0.0;
      assert (5.0 - d) * l >= 0.0;
    }
  }

  const MaxStren: real := 100.0

  /// `signal(cA, cB, cloud)` for controllers at a and b, with ray = dist(a, b):
  /// no link (None) when the two are farther apart than MAX_STREN, checked
  /// before any tracing, or when the loss along the line of sight exceeds
  /// MAX_STREN; otherwise the strength MAX_STREN - loss, which lies in
  /// [0, MAX_STREN]. Coinciding controllers raise ZeroDivisionError in the
  /// march, an unknown material KeyError.
  function Signal(a: Point, b: Point, g: Voxels, ray: real): (r: Result<Option<real>>)
    requires IsDistance(ray, a, b)
    ensures ray > MaxStren ==> r == Ok(None)
    ensures a == b ==> r == Err(ZeroDivisionError)
    ensures r.Err? ==> r.error == ZeroDivisionError || r.error == KeyError
    ensures r.Ok? && r.value.Some? ==> 0.0 <= r.value.value <= MaxStren
    ensures ray <= MaxStren ==> (r.Ok? <==> Obstacles(a, b, g, ray).Ok? && Loss(Obstacles(a, b, g, ray).value).Ok?)
    ensures ray <= MaxStren && r.Ok? ==>
      && Obstacles(a, b, g, ray).Ok? && Loss(Obstacles(a, b, g, ray).value).Ok?
      && (r.value.None? <==> Loss(Obstacles(a, b, g, ray).value).value > MaxStren)
      && (r.value.Some? ==> r.value.value == MaxStren - Loss(Obstacles(a, b, g, ray).value).value)
  {
    if ray > MaxStren then Ok(None)
    else
      match Obstacles(a, b, g, ray)
      case Err(e) => Err(e)
      case Ok(obs) =>
        match Loss(obs)
        case Err(e) => Err(e)
        case Ok(loss) =>
          LossBounds(obs);
          if loss > MaxStren then Ok(None) else Ok(Some(MaxStren - loss))
  }

  /// A returned strength is at most MAX_STREN minus the recorded length; from a
  /// start with non-negative coordinates it is at least MAX_STREN - 5·dist(a, b),
  /// the strength of a line of sight entirely through walls.
  lemma SignalStrength(a: Point, b: Point, g: Voxels, ray: real)
    requires IsDistance(ray, a, b)
    requires Signal(a, b, g, ray).Ok? && Signal(a, b, g, ray).value.Some?
    ensures Obstacles(a, b, g, ray).Ok?
    ensures Signal(a, b, g, ray).value.value <= MaxStren - Total(Obstacles(a, b, g, ray).value)
    ensures (forall x :: 0 <= x < 3 ==> a[x] >= 0.0) ==> Signal(a, b, g, ray).value.value >= MaxStren - 5.0 * ray
  {
    var obs := Obstacles(a, b, g, ray).value;
    var loss := Loss(obs).value;
    assert Signal(a, b, g, ray).value.value == MaxStren - loss;
    LossBounds(obs);
    if forall x :: 0 <= x < 3 ==> a[x] >= 0.0 {
      ObstaclesWithinRay(a, b, g, ray);
    }
  }

  /// The recorded segments carry the materials of voxels of the grid, or 0.
  lemma {:induction false} RecordedKinds(g: Voxels, sp: seq<Span>)
    requires ValidKinds(g)
    requires forall k :: 0 <= k < |sp| ==> |sp[k].cell| == 3 && sp[k].kind == KindAt(g, sp[k].cell)
    ensures forall k :: 0 <= k < |Recorded(sp)| ==> 0 <= Recorded(sp)[k].kind <= 3
  {
    if sp != [] {
      RecordedKinds(g, sp[1..]);
      var cell := sp[0].cell;
      if Lookup(g, cell).Some? {
        var x, y, z :| InBounds(g, x, y, z) && Lookup(g, cell).value == At(g, x, y, z);
      }
    }
  }

  /// Distinct controllers within 20 m of each other, the first at non-negative
  /// coordinates, always hear each other in a grid of known materials: even
  /// a line of sight entirely through walls loses at most 5 × 20 = MAX_STREN.
  lemma SignalWithinReach(a: Point, b: Point, g: Voxels, ray: real)
    requires IsDistance(ray, a, b) && a != b && ray <= 20.0
    requires forall x :: 0 <= x < 3 ==> a[x] >= 0.0
    requires ValidKinds(g)
    ensures Signal(a, b, g, ray).Ok? && Signal(a, b, g, ray).value.Some?
  {
    var sp := Spans(a, b, g, ray);
    var diff := Direction(a, b, ray);
    InitConsistent(a, diff);
    MarchShape(g, InitStep(diff), InitDeltas(diff), ray, InitPos(a), InitInters(a, diff), 0.0);
    RecordedKinds(g, sp);
    var obs := Obstacles(a, b, g, ray).value;
    assert Loss(obs).Ok?;
    LossBounds(obs);
    ObstaclesWithinRay(a, b, g, ray);
  }

  // ---------------------------------------------------------------------------
  // The connectivity pass

  /// `delayed(signal)(cA, cB, cloud)` for the controllers at indices i and j.
  function Link(mesh: seq<Controller<real>>, g: Voxels, dist: (Point, Point) -> real): (nat, nat) -> Result<Option<real>>
    requires forall p, q :: IsDistance(dist(p, q), p, q)
  {
    (i: nat, j: nat) =>
      if i < |mesh| && j < |mesh| then Signal(mesh[i].pos, mesh[j].pos, g, dist(mesh[i].pos, mesh[j].pos))
      else Ok(None)
  }

  /// `sigStren(cloud, mesh, callback)`: the strengths of all unordered pairs
  /// are computed first, and an exception in any of them aborts the pass
  /// before anything is written (the error is returned); otherwise every
  /// link is written into both controllers' `hears`. `reports` lists the
  /// progress values passed to the callback.
  method SigStren(cloud: Voxels, mesh: seq<Controller<real>>, dist: (Point, Point) -> real)
    returns (err: Option<PyError>, reports: seq<real>)
    requires DistinctObjects(mesh)
    requires forall p, q :: IsDistance(dist(p, q), p, q)
    modifies mesh
    ensures var conns := Collect(Pairs(|mesh|), Link(mesh, cloud, dist));
      && (err.None? <==> conns.Ok?)
      && (err.Some? ==> reports == [0.0] && forall k :: 0 <= k < |mesh| ==> mesh[k].hears == old(mesh[k].hears))
      && (err.None? ==> reports == [0.0, 1.0] && ConnsWithin(conns.value, |mesh|))
      && (err.None? ==> forall k :: 0 <= k < |mesh| ==>
            mesh[k].hears == HearsAfter(old(mesh[k].hears), k, Names(mesh), conns.value))
  {
    reports := [0.0];
    var link := Link(mesh, cloud, dist);
    var connections := Collect(Pairs(|mesh|), link);
    if connections.Err? {
      return Some(connections.error), reports;
    }
    var conns := connections.value;
    CollectSound(Pairs(|mesh|), link);
    forall x | 0 <= x < |conns| ensures conns[x].i < |mesh| && conns[x].j < |mesh| {
      PairsComplete(|mesh|, conns[x].i, conns[x].j);
    }
    WriteBack(mesh, conns);
    reports := reports + [1.0];
    err := None;
  }
}
