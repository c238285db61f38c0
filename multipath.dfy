/// sim/sig.py: the multipath connectivity pass. For each pair of controllers
/// the traced paths are ranked by loss, the five best are kept, and the link
/// figure is either the beamformed power over the best path or the omni power
/// of the kept paths combined with a penalty for late arrival. The pass visits
/// every unordered pair in turn, reports progress once per controller, and
/// writes the links into both controllers' `hears` at the end.
///
/// Loading the scene and tracing (`trimesh.load`, `signal.Tracer`,
/// `signal.calcLoss`) come in as `trace`, the loss and delay of every path
/// between two positions; exp, log10 and powers of ten come in as `Numerics`.
module Multipath {
  import opened Wrappers
  import opened Mesh
  import opened Seqs

  /// The loss (dB) and delay (ns) of one traced path.
  datatype Path = Path(loss: real, delay: real)

  /// `sim.rep.Signal`: a strength percentage and the power it is computed from.
  datatype Signal = Signal(perc: real, dBm: real)

  type Positive = x: real | x > 0.0 witness 1.0

  /// `exp`, `log10` and `10 ** x`; exp and powers of ten are positive.
  datatype Numerics = Numerics(exp: real -> Positive, log10: real -> real, pow10: real -> Positive)

  const Power: real := 4.0
  const BfGain: real := 6.0
  /// The decay rate of the lateness penalty (per ns).
  const Decay: real := 0.0023
  /// How many paths calcSignal keeps.
  const Kept: nat := 5

  // ---------------------------------------------------------------------------
  // Ranking the paths

  predicate SortedByLoss(ps: seq<Path>) {
    forall j, k :: 0 <= j < k < |ps| ==> ps[j].loss <= ps[k].loss
  }

  /// Inserts p before the first path whose loss is not smaller, so p stays
  /// ahead of the paths of equal loss that came after it.
  function Insert(p: Path, s: seq<Path>): (r: seq<Path>)
    ensures |r| == |s| + 1
    ensures multiset(r) == multiset(s) + multiset{p}
    ensures |s| > 0 ==> r[0] == p || r[0] == s[0]
  {
    if |s| == 0 || p.loss <= s[0].loss then [p] + s
    else
      assert s == [s[0]] + s[1..];
      [s[0]] + Insert(p, s[1..])
  }

  /// `sorted(paths, key=loss)`, a stable sort.
  function SortByLoss(ps: seq<Path>): (r: seq<Path>)
    ensures |r| == |ps|
    ensures multiset(r) == multiset(ps)
  {
    if |ps| == 0 then []
    else
      assert ps == [ps[0]] + ps[1..];
      Insert(ps[0], SortByLoss(ps[1..]))
  }

  lemma {:induction false} InsertSorted(p: Path, s: seq<Path>)
    requires SortedByLoss(s)
    ensures SortedByLoss(Insert(p, s))
  {
    if |s| > 0 && p.loss > s[0].loss {
      InsertSorted(p, s[1..]);
      var r := Insert(p, s[1..]);
      // r starts with p or with s[1], both no smaller than s[0], and is sorted.
      assert s[0].loss <= r[0].loss;
      var out := [s[0]] + r;
      forall j, k | 0 <= j < k < |out| ensures out[j].loss <= out[k].loss {
        if j == 0 {
          assert out[k] == r[k - 1];
        }
      }
    }
  }

  lemma {:induction false} SortSorted(ps: seq<Path>)
    ensures SortedByLoss(SortByLoss(ps))
  {
    if |ps| > 0 {
      SortSorted(ps[1..]);
      InsertSorted(ps[0], SortByLoss(ps[1..]));
    }
  }

  /// `sorted(paired, key=lambda x: x[1])[:5]`
  function Best(ps: seq<Path>): (best: seq<Path>)
    ensures |best| == if |ps| < Kept then |ps| else Kept
  {
    var s := SortByLoss(ps);
    s[..if |s| < Kept then |s| else Kept]
  }

  /// The kept paths are the (at most) five of smallest loss, in ascending
  /// order of loss: together with the dropped ones they are all the paths,
  /// and none of them has a larger loss than a dropped one.
  lemma BestSelection(ps: seq<Path>)
    ensures var best := Best(ps);
      var dropped := SortByLoss(ps)[|best|..];
      |best| == (if |ps| < Kept then |ps| else Kept) &&
      SortedByLoss(best) &&
      multiset(best) + multiset(dropped) == multiset(ps) &&
      (forall a, b :: a in best && b in dropped ==> a.loss <= b.loss)
  {
    var s := SortByLoss(ps);
    SortSorted(ps);
    var best := Best(ps);
    var dropped := s[|best|..];
    assert s == best + dropped;
    forall a, b | a in best && b in dropped
      ensures a.loss <= b.loss
    {
      var x :| 0 <= x < |best| && best[x] == a;
      var y :| 0 <= y < |dropped| && dropped[y] == b;
      assert s[x] == a && s[|best| + y] == b;
    }
  }

  /// The first kept path has the smallest loss of all paths.
  lemma BestFirst(ps: seq<Path>)
    requires |ps| > 0
    ensures Best(ps)[0] in ps
    ensures forall k :: 0 <= k < |ps| ==> Best(ps)[0].loss <= ps[k].loss
  {
    var s := SortByLoss(ps);
    SortSorted(ps);
    assert s[0] in multiset(ps);
    forall k | 0 <= k < |ps|
      ensures s[0].loss <= ps[k].loss
    {
      assert ps[k] in multiset(s);
      var x :| 0 <= x < |s| && s[x] == ps[k];
    }
  }

  // ---------------------------------------------------------------------------
  // Combining the kept paths

  /// `min(delays)`
  function MinOf(ds: seq<real>): (m: real)
    requires |ds| > 0
    ensures m in ds
    ensures forall k :: 0 <= k < |ds| ==> m <= ds[k]
  {
    if |ds| == 1 then ds[0]
    else
      var m := MinOf(ds[1..]);
      assert forall k :: 1 <= k < |ds| ==> ds[k] == ds[1..][k - 1];
      if ds[0] <= m then ds[0] else m
  }

  function MinLen(a: nat, b: nat): nat {
    if a < b then a else b
  }

  /// The received power of the first n paths in mW, each scaled by
  /// exp(-a·(delay - tFirst)).
  function OmniTotal(recv: seq<real>, delays: seq<real>, tFirst: real, n: nat, num: Numerics): real
    requires n <= |recv| && n <= |delays|
  {
    if n == 0 then 0.0
    else OmniTotal(recv, delays, tFirst, n - 1, num) + num.pow10(recv[n - 1] / 10.0) * num.exp(-Decay * (delays[n - 1] - tFirst))
  }

  /// What `omniSignal(recv, delays)` returns: `min` of no delays and `log10`
  /// of a total that is not positive raise ValueError.
  function OmniOf(recv: seq<real>, delays: seq<real>, num: Numerics): Result<real> {
    if |delays| == 0 then Err(ValueError)
    else
      var total := OmniTotal(recv, delays, MinOf(delays), MinLen(|recv|, |delays|), num);
      if total <= 0.0 then Err(ValueError) else Ok(10.0 * num.log10(total))
  }

  method OmniSignal(recv: seq<real>, delays: seq<real>, num: Numerics) returns (r: Result<real>)
    ensures r == OmniOf(recv, delays, num)
  {
    if |delays| == 0 {
      return Err(ValueError);
    }
    var total: real := 0.0;
    var tFirst := MinOf(delays);
    for k := 0 to MinLen(|recv|, |delays|)
      invariant total == OmniTotal(recv, delays, tFirst, k, num)
    {
      var mW := num.pow10(recv[k] / 10.0);
      var tardiness := num.exp(-Decay * (delays[k] - tFirst));
      total := total + mW * tardiness;
    }
    if total <= 0.0 {
      return Err(ValueError);
    }
    r := Ok(10.0 * num.log10(total));
  }

  /// The sum of the received powers in mW, without the lateness penalty.
  function PowerSum(recv: seq<real>, n: nat, num: Numerics): real
    requires n <= |recv|
  {
    if n == 0 then 0.0 else PowerSum(recv, n - 1, num) + num.pow10(recv[n - 1] / 10.0)
  }

  /// exp is at most 1 on the non-positive reals.
  ghost predicate Damping(num: Numerics) {
    forall x :: x <= 0.0 ==> num.exp(x) <= 1.0
  }

  lemma ScaledDown(m: real, t: real) returns (p: real)
    requires m > 0.0 && 0.0 < t <= 1.0
    ensures p == m * t && 0.0 < p <= m
  {
    assert m * (1.0 - t) >= 0.0;
    p := m * t;
  }

  /// No path arrives before the first, so the penalty only ever reduces a
  /// path's contribution: the combined power is positive and at most the
  /// plain sum of the paths' powers.
  lemma {:induction false} OmniTotalBounds(recv: seq<real>, delays: seq<real>, tFirst: real, n: nat, num: Numerics)
    requires 0 < n <= |recv| && n <= |delays|
    requires forall k :: 0 <= k < |delays| ==> tFirst <= delays[k]
    requires Damping(num)
    ensures 0.0 < OmniTotal(recv, delays, tFirst, n, num) <= PowerSum(recv, n, num)
  {
    var mW := num.pow10(recv[n - 1] / 10.0);
    var late := delays[n - 1] - tFirst;
    assert -Decay * late <= 0.0;
    var tardiness := num.exp(-Decay * late);
    assert tardiness <= 1.0;
    var contribution := ScaledDown(mW, tardiness);
    var prev := OmniTotal(recv, delays, tFirst, n - 1, num);
    var prevSum := PowerSum(recv, n - 1, num);
    if n > 1 {
      OmniTotalBounds(recv, delays, tFirst, n - 1, num);
    } else {
      assert prev == 0.0 && prevSum == 0.0;
    }
    assert 0.0 <= prev <= prevSum;
    assert 0.0 < prev + contribution <= prevSum + mW;
  }

  /// omniSignal never raises on paths given with their delays.
  lemma OmniDefined(recv: seq<real>, delays: seq<real>, num: Numerics)
    requires 0 < |recv| == |delays|
    requires Damping(num)
    ensures OmniOf(recv, delays, num).Ok?
  {
    OmniTotalBounds(recv, delays, MinOf(delays), |recv|, num);
  }

  lemma QuotientBelow(d: real)
    requires d > 1.0
    ensures 0.0 < 100.0 / d < 100.0
  {
    assert 100.0 / d * d == 100.0;
  }

  /// `recvStren(dBm)`: a logistic curve from dBm to a percentage.
  function RecvStren(dBm: real, num: Numerics): (r: real)
    ensures 0.0 < r < 100.0
  {
    var d := 1.0 + num.exp(-0.2 * (dBm + 70.0));
    QuotientBelow(d);
    100.0 / d
  }

  // ---------------------------------------------------------------------------
  // One pair

  /// `recv = [power - loss for loss in losses]`
  function Received(best: seq<Path>): (recv: seq<real>)
    ensures |recv| == |best|
    ensures forall k :: 0 <= k < |best| ==> recv[k] == Power - best[k].loss
  {
    seq(|best|, k requires 0 <= k < |best| => Power - best[k].loss)
  }

  /// The delays of the kept paths.
  function Delays(best: seq<Path>): (delays: seq<real>)
    ensures |delays| == |best|
    ensures forall k :: 0 <= k < |best| ==> delays[k] == best[k].delay
  {
    seq(|best|, k requires 0 <= k < |best| => best[k].delay)
  }

  /// What `calcSignal(cA, cB)` returns: the two names and the link figure.
  /// No traced path at all makes the unpacking raise ValueError.
  function CalcSignal(cA: Controller<Signal>, cB: Controller<Signal>, trace: (Point, Point) -> seq<Path>, num: Numerics)
    : Result<(string, string, Signal)>
  {
    var paths := trace(cA.pos, cB.pos);
    if |paths| == 0 then Err(ValueError)
    else
      var best := Best(paths);
      match OmniOf(Received(best), Delays(best), num)
      case Err(e) => Err(e)
      case Ok(omniDbm) =>
        var bfDbm := Power + BfGain - best[0].loss;
        var dBm := if cA.bf then bfDbm else omniDbm;
        Ok((cA.name, cB.name, Signal(RecvStren(dBm, num), dBm)))
  }

  /// With at least one path the link is always computed. The figure is the
  /// beamformed one iff cA has beamforming: 10 dB minus the smallest loss of
  /// all paths; otherwise it is the omni figure of the kept paths' received
  /// powers and delays. Either way the percentage is recvStren of the figure.
  lemma CalcSignalChoice(cA: Controller<Signal>, cB: Controller<Signal>, trace: (Point, Point) -> seq<Path>, num: Numerics)
    requires |trace(cA.pos, cB.pos)| > 0 && Damping(num)
    ensures var r := CalcSignal(cA, cB, trace, num);
      var paths := trace(cA.pos, cB.pos);
      r.Ok? && r.value.0 == cA.name && r.value.1 == cB.name &&
      r.value.2.perc == RecvStren(r.value.2.dBm, num) &&
      (cA.bf ==> (exists k :: 0 <= k < |paths| && r.value.2.dBm == 10.0 - paths[k].loss) &&
                 (forall k :: 0 <= k < |paths| ==> r.value.2.dBm >= 10.0 - paths[k].loss)) &&
      (!cA.bf ==> r.value.2.dBm == OmniOf(Received(Best(paths)), Delays(Best(paths)), num).value)
  {
    var paths := trace(cA.pos, cB.pos);
    var best := Best(paths);
    BestSelection(paths);
    BestFirst(paths);
    OmniDefined(Received(best), Delays(best), num);
    var x :| 0 <= x < |paths| && paths[x] == best[0];
  }

  /// cB's beamforming flag plays no part.
  lemma CalcSignalIgnoresB(cA: Controller<Signal>, cB: Controller<Signal>, cB': Controller<Signal>,
                           trace: (Point, Point) -> seq<Path>, num: Numerics)
    requires cB.pos == cB'.pos && cB.name == cB'.name && cB.bf != cB'.bf
    ensures CalcSignal(cA, cB, trace, num) == CalcSignal(cA, cB', trace, num)
  {
  }

  // ---------------------------------------------------------------------------
  // The pass

  /// `calcSignal(cA, cB)` for the controllers at indices i and j; the link
  /// always exists once computed.
  function Link(mesh: seq<Controller<Signal>>, trace: (Point, Point) -> seq<Path>, num: Numerics): (nat, nat) -> Result<Option<Signal>> {
    (i: nat, j: nat) =>
      if i < |mesh| && j < |mesh| then
        match CalcSignal(mesh[i], mesh[j], trace, num)
        case Err(e) => Err(e)
        case Ok(conn) => Ok(Some(conn.2))
      else Ok(None)
  }

  /// The number of pairs, `len(controllers) * (len(controllers) - 1) // 2`.
  function EdgeCount(n: nat): nat {
    n * (n - 1) / 2
  }

  /// The progress values reported after the first i controllers.
  function RowProgress(n: nat, i: nat): (ps: seq<real>)
    requires 2 <= n && i <= n
    ensures |ps| == i
  {
    seq(i, k requires 0 <= k < i => EdgesBefore(n, k + 1) as real / EdgeCount(n) as real)
  }

  lemma RowProgressSnoc(n: nat, i: nat)
    requires 2 <= n && i < n
    ensures RowProgress(n, i + 1) == RowProgress(n, i) + [EdgesBefore(n, i + 1) as real / EdgeCount(n) as real]
  {
  }

  lemma DivMono(a: real, b: real, d: real)
    requires d > 0.0 && a <= b
    ensures a / d <= b / d
  {
    assert b / d - a / d == (b - a) / d;
  }

  lemma {:induction false} EdgesBeforeLow(n: nat, i: nat)
    requires 1 <= i <= n
    ensures n - 1 <= EdgesBefore(n, i)
  {
    if i > 1 {
      EdgesBeforeLow(n, i - 1);
    }
  }

  lemma {:induction false} EdgesBeforeHigh(n: nat, i: nat)
    requires i <= n
    ensures EdgesBefore(n, i) <= EdgesBefore(n, n)
    decreases n - i
  {
    if i < n {
      EdgesBeforeHigh(n, i + 1);
    }
  }

  /// `n_edges` is the number of pairs the loops visit.
  lemma EdgeCountIsTotal(n: nat)
    ensures EdgeCount(n) == EdgesBefore(n, n) == |Pairs(n)|
  {
    PairsBeforeCount(n, n);
    var m := n * (n - 1);
    assert m == 2 * EdgesBefore(n, n);
  }

  lemma ProgressAt(n: nat, i: nat)
    requires 2 <= n && 1 <= i <= n
    ensures 0.0 < EdgesBefore(n, i) as real / EdgeCount(n) as real <= 1.0
  {
    EdgeCountIsTotal(n);
    EdgesBeforeLow(n, i);
    EdgesBeforeHigh(n, i);
    var total := EdgeCount(n) as real;
    DivMono(EdgesBefore(n, i) as real, total, total);
    DivMono(1.0, EdgesBefore(n, i) as real, total);
  }

  /// With two or more controllers, one progress value is reported per
  /// controller, each in (0, 1].
  lemma ProgressBounded(n: nat)
    requires 2 <= n
    ensures var ps := RowProgress(n, n);
      |ps| == n && forall k :: 0 <= k < n ==> 0.0 < ps[k] <= 1.0
  {
    var ps := RowProgress(n, n);
    forall k | 0 <= k < n
      ensures 0.0 < ps[k] <= 1.0
    {
      ProgressAt(n, k + 1);
    }
  }

  /// The progress values never decrease.
  lemma ProgressMonotone(n: nat)
    requires 2 <= n
    ensures var ps := RowProgress(n, n);
      forall j, k :: 0 <= j && k == j + 1 && k < n ==> ps[j] <= ps[k]
  {
    EdgeCountIsTotal(n);
    EdgesBeforeLow(n, n);
    var total := EdgeCount(n) as real;
    var ps := RowProgress(n, n);
    forall j, k | 0 <= j && k == j + 1 && k < n
      ensures ps[j] <= ps[k]
    {
      DivMono(EdgesBefore(n, j + 1) as real, EdgesBefore(n, k + 1) as real, total);
    }
  }

  /// The last progress value, after the last controller, is 1.
  lemma ProgressEnds(n: nat)
    requires 2 <= n
    ensures RowProgress(n, n)[n - 1] == 1.0
  {
    EdgeCountIsTotal(n);
    EdgesBeforeLow(n, n);
    var e := EdgesBefore(n, n) as real;
    assert RowProgress(n, n)[n - 1] == e / e;
    assert e / e == 1.0;
  }

  /// Row i up to j starts row i.
  lemma {:induction false} RowSplit(i: nat, j: nat, n: nat) returns (tail: seq<(nat, nat)>)
    requires i < j <= n
    ensures Row(i, n) == Row(i, j) + tail
  {
    if n == j {
      tail := [];
    } else {
      var t := RowSplit(i, j, n - 1);
      tail := t + [(i, n - 1)];
    }
  }

  /// The pairs of the first i rows start the whole enumeration.
  lemma {:induction false} PairsSplit(n: nat, i: nat) returns (rest: seq<(nat, nat)>)
    requires i <= n
    ensures Pairs(n) == PairsBefore(n, i) + rest
    decreases n - i
  {
    if i == n {
      rest := [];
    } else {
      var r := PairsSplit(n, i + 1);
      var row := Row(i, n);
      assert PairsBefore(n, i + 1) == PairsBefore(n, i) + row;
      Assoc(PairsBefore(n, i), row, r);
      rest := row + r;
    }
  }

  /// Once the pairs up to (i, j) raise, so does the whole pass, with the
  /// same error.
  lemma {:induction false} CollectErrAppend<V>(ps: seq<(nat, nat)>, qs: seq<(nat, nat)>, link: (nat, nat) -> Result<Option<V>>)
    requires Collect(ps, link).Err?
    ensures Collect(ps + qs, link) == Collect(ps, link)
  {
    if |qs| > 0 {
      var init := qs[..|qs| - 1];
      assert (ps + qs)[..|ps + qs| - 1] == ps + init;
      CollectErrAppend(ps, init, link);
    } else {
      assert ps + qs == ps;
    }
  }

  lemma PairsBeforeStep(n: nat, i: nat)
    requires i < n
    ensures PairsBefore(n, i + 1) == PairsBefore(n, i) + Row(i, n)
  {
  }

  /// The pairs up to and including (i, j) start the whole enumeration.
  lemma PairsPrefixAt(n: nat, i: nat, j: nat) returns (rest: seq<(nat, nat)>)
    requires i < j < n
    ensures Pairs(n) == PairsBefore(n, i) + Row(i, j) + [(i, j)] + rest
  {
    var tail := RowSplit(i, j + 1, n);
    var rest0 := PairsSplit(n, i + 1);
    var before := PairsBefore(n, i);
    var rowJ := Row(i, j + 1);
    assert Row(i, j) + [(i, j)] == rowJ;
    Assoc(before, Row(i, j), [(i, j)]);
    PairsBeforeStep(n, i);
    Regroup(before, rowJ, tail, rest0);
    rest := tail + rest0;
  }

  /// A pair that raises makes the whole pass raise with its error.
  lemma RowErr<V>(n: nat, i: nat, j: nat, link: (nat, nat) -> Result<Option<V>>)
    requires i < j < n
    requires Collect(PairsBefore(n, i) + Row(i, j), link).Ok? && link(i, j).Err?
    ensures Collect(Pairs(n), link) == Err(link(i, j).error)
  {
    var ps := PairsBefore(n, i) + Row(i, j);
    CollectSnoc(ps, (i, j), link);
    var rest := PairsPrefixAt(n, i, j);
    CollectErrAppend(ps + [(i, j)], rest, link);
  }

  /// A pair that does not raise adds its link, if any, to those so far.
  lemma RowOk<V>(n: nat, i: nat, j: nat, link: (nat, nat) -> Result<Option<V>>, cs: seq<Conn<V>>)
    requires i < j < n
    requires Collect(PairsBefore(n, i) + Row(i, j), link) == Ok(cs) && link(i, j).Ok?
    ensures Collect(PairsBefore(n, i) + Row(i, j + 1), link) ==
      Ok(if link(i, j).value.Some? then cs + [Conn(i, j, link(i, j).value.value)] else cs)
  {
    var ps := PairsBefore(n, i) + Row(i, j);
    RowStep(n, i, j, link);
    CollectSnoc(ps, (i, j), link);
  }

  /// One step of the inner loop: the pairs up to (i, j), then (i, j) itself.
  lemma RowStep<V>(n: nat, i: nat, j: nat, link: (nat, nat) -> Result<Option<V>>)
    requires i < j < n
    ensures var before := PairsBefore(n, i) + Row(i, j);
      Collect(PairsBefore(n, i) + Row(i, j + 1), link) == Collect(before + [(i, j)], link)
  {
    var p := PairsBefore(n, i);
    assert Row(i, j + 1) == Row(i, j) + [(i, j)];
    Assoc(p, Row(i, j), [(i, j)]);
  }

  lemma EdgeCountZero(n: nat)
    ensures EdgeCount(n) == 0 <==> n <= 1
  {
    EdgeCountIsTotal(n);
    if n >= 2 {
      EdgesBeforeLow(n, n);
    }
  }

  /// One iteration of the inner loop: `link` (calcSignal) on the pair (i, j),
  /// whose link, if any, joins those so far; an exception ends the pass.
  method PairStep<V>(n: nat, link: (nat, nat) -> Result<Option<V>>, i: nat, j: nat, connections: seq<Conn<V>>)
    returns (err: Option<PyError>, connections': seq<Conn<V>>)
    requires i < j < n
    requires Collect(PairsBefore(n, i) + Row(i, j), link) == Ok(connections)
    ensures err.None? ==> Collect(PairsBefore(n, i) + Row(i, j + 1), link) == Ok(connections')
    ensures err.Some? ==> Collect(Pairs(n), link) == Err(err.value)
  {
    var conn := link(i, j);
    if conn.Err? {
      RowErr(n, i, j, link);
      return Some(conn.error), connections;
    }
    RowOk(n, i, j, link, connections);
    connections' := connections;
    if conn.value.Some? {
      connections' := connections + [Conn(i, j, conn.value.value)];
    }
    err := None;
  }

  /// The inner loop for controller i: `link` (calcSignal) on the pairs
  /// (i, j) for j > i in turn. Its first exception is the whole pass's.
  method PairRow<V>(n: nat, link: (nat, nat) -> Result<Option<V>>, i: nat, edge: nat, connections: seq<Conn<V>>)
    returns (err: Option<PyError>, edge': nat, connections': seq<Conn<V>>)
    requires i < n
    requires Collect(PairsBefore(n, i), link) == Ok(connections)
    ensures err.None? ==> Collect(PairsBefore(n, i + 1), link) == Ok(connections')
    ensures err.None? ==> edge' == edge + (n - i - 1)
    ensures err.Some? ==> Collect(Pairs(n), link) == Err(err.value)
  {
    edge' := edge;
    connections' := connections;
    assert PairsBefore(n, i) + Row(i, i + 1) == PairsBefore(n, i);
    for j := i + 1 to n
      invariant edge' == edge + (j - i - 1)
      invariant Collect(PairsBefore(n, i) + Row(i, j), link) == Ok(connections')
    {
      err, connections' := PairStep(n, link, i, j, connections');
      if err.Some? {
        return;
      }
      edge' := edge' + 1;
    }
    PairsBeforeStep(n, i);
    err := None;
  }

  /// One step of Collect: the links so far, then the next pair's.
  lemma CollectSnoc<V>(ps: seq<(nat, nat)>, p: (nat, nat), link: (nat, nat) -> Result<Option<V>>)
    requires Collect(ps, link).Ok?
    ensures link(p.0, p.1).Err? ==> Collect(ps + [p], link) == Err(link(p.0, p.1).error)
    ensures link(p.0, p.1) == Ok(None) ==> Collect(ps + [p], link) == Collect(ps, link)
    ensures link(p.0, p.1).Ok? && link(p.0, p.1).value.Some? ==>
      Collect(ps + [p], link) == Ok(Collect(ps, link).value + [Conn(p.0, p.1, link(p.0, p.1).value.value)])
  {
    assert (ps + [p])[..|ps|] == ps;
  }

  /// The loops of `sigStren` for n controllers: every pair in turn, the
  /// progress after each controller, and the links collected. They stop at
  /// the first exception from `link`, or at the division by zero pairs when
  /// there is a single controller.
  method Pass<V>(n: nat, link: (nat, nat) -> Result<Option<V>>)
    returns (err: Option<PyError>, reports: seq<real>, connections: seq<Conn<V>>)
    ensures var conns := Collect(Pairs(n), link);
      && (err.None? <==> conns.Ok? && n != 1)
      && (conns.Err? ==> err == Some(conns.error))
      && (conns.Ok? && n == 1 ==> err == Some(ZeroDivisionError) && reports == [0.0])
      && |reports| >= 1 && reports[0] == 0.0
      && (err.Some? && n >= 2 ==> exists i :: 0 <= i <= n && reports == [0.0] + RowProgress(n, i))
      && (err.None? ==> reports == [0.0] + (if n >= 2 then RowProgress(n, n) else []))
      && (err.None? ==> connections == conns.value)
  {
    reports := [0.0];
    var nEdges := EdgeCount(n);
    var edge := 0;
    connections := [];
    for i := 0 to n
      invariant |reports| >= 1 && reports[0] == 0.0
      invariant edge == EdgesBefore(n, i)
      invariant Collect(PairsBefore(n, i), link) == Ok(connections)
      invariant n >= 2 ==> reports == [0.0] + RowProgress(n, i)
      invariant n < 2 ==> reports == [0.0] && i == 0
    {
      var e;
      e, edge, connections := PairRow(n, link, i, edge, connections);
      if e.Some? {
        if n >= 2 {
          assert reports == [0.0] + RowProgress(n, i);
        }
        return e, reports, connections;
      }
      if nEdges == 0 {
        EdgeCountZero(n);
        assert Pairs(n) == [];
        return Some(ZeroDivisionError), reports, connections;
      }
      EdgeCountZero(n);
      RowProgressSnoc(n, i);
      Assoc([0.0], RowProgress(n, i), [edge as real / nEdges as real]);
      reports := reports + [edge as real / nEdges as real];
    }
    err := None;
  }

  /// `sigStren(mesh, callback)`: every unordered pair of controllers is
  /// computed in turn and the links are written into both controllers'
  /// `hears` only at the end. An exception from calcSignal aborts the pass,
  /// and so does the progress division with a single controller (no pairs);
  /// either way nothing is written. `reports` lists the progress values
  /// passed to the callback.
  method SigStren(mesh: seq<Controller<Signal>>, trace: (Point, Point) -> seq<Path>, num: Numerics)
    returns (err: Option<PyError>, reports: seq<real>)
    requires DistinctObjects(mesh)
    modifies mesh
    ensures var n := |mesh|;
      var conns := Collect(Pairs(n), Link(mesh, trace, num));
      && (err.None? <==> conns.Ok? && n != 1)
      && (conns.Err? ==> err == Some(conns.error))
      && (conns.Ok? && n == 1 ==> err == Some(ZeroDivisionError) && reports == [0.0])
      && |reports| >= 1 && reports[0] == 0.0
      && (err.Some? && n >= 2 ==> exists i :: 0 <= i <= n && reports == [0.0] + RowProgress(n, i))
      && (err.Some? ==> forall k :: 0 <= k < n ==> mesh[k].hears == old(mesh[k].hears))
      && (err.None? ==> reports == [0.0] + (if n >= 2 then RowProgress(n, n) else []) + [1.0])
      && (err.None? ==> ConnsWithin(conns.value, n) && forall k :: 0 <= k < n ==>
            mesh[k].hears == HearsAfter(old(mesh[k].hears), k, Names(mesh), conns.value))
  {
    var n := |mesh|;
    var connections;
    err, reports, connections := Pass(n, Link(mesh, trace, num));
    if err.Some? {
      return;
    }
    CollectSound(Pairs(n), Link(mesh, trace, num));
    forall x | 0 <= x < |connections|
      ensures connections[x].i < n && connections[x].j < n
    {
      PairsComplete(n, connections[x].i, connections[x].j);
    }
    WriteBack(mesh, connections);
    reports := reports + [1.0];
  }
}
