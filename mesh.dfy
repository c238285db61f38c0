/// The controllers of the simulated mesh and the two steps both connectivity
/// passes share: enumerating the unordered pairs of controllers in the order of
/// the nested `for i ... for cB in controllers[i+1:]` loops, and writing each
/// computed link symmetrically into both controllers' `hears` dictionaries.
module Mesh {
  import opened Wrappers

  /// A node position: three coordinates.
  type Point = p: seq<real> | |p| == 3 witness [0.0, 0.0, 0.0]

  /// A controller of the mesh. Only `hears` changes during a pass; V is the
  /// type of the link figure stored in it (a float strength or a Signal).
  class Controller<V> {
    const name: string
    const pos: Point
    const bf: bool
    var hears: map<string, V>

    constructor (name: string, pos: Point, bf: bool)
      ensures this.name == name && this.pos == pos && this.bf == bf
      ensures hears == map[]
    {
      this.name := name;
      this.pos := pos;
      this.bf := bf;
      hears := map[];
    }
  }

  /// The names of the controllers, in dictionary order.
  function Names<V>(mesh: seq<Controller<V>>): (names: seq<string>)
    ensures |names| == |mesh|
    ensures forall k :: 0 <= k < |mesh| ==> names[k] == mesh[k].name
  {
    seq(|mesh|, k requires 0 <= k < |mesh| => mesh[k].name)
  }

  predicate DistinctNames(names: seq<string>) {
    forall p, q :: 0 <= p < q < |names| ==> names[p] != names[q]
  }

  /// Distinct dictionary entries are distinct controller objects.
  predicate DistinctObjects<V>(mesh: seq<Controller<V>>) {
    forall p, q :: 0 <= p < q < |mesh| ==> mesh[p] != mesh[q]
  }

  // ---------------------------------------------------------------------------
  // Pair enumeration

  /// Strict lexicographic order on index pairs.
  predicate LexLess(p: (nat, nat), q: (nat, nat)) {
    p.0 < q.0 || (p.0 == q.0 && p.1 < q.1)
  }

  predicate Ordered(ps: seq<(nat, nat)>) {
    forall x, y :: 0 <= x < y < |ps| ==> LexLess(ps[x], ps[y])
  }

  /// The pairs (i, k) for i < k < j: the inner loop `for cB in controllers[i+1:]`
  /// stopped before index j.
  function Row(i: nat, j: nat): (r: seq<(nat, nat)>)
    ensures |r| == if j <= i + 1 then 0 else j - i - 1
    ensures forall x :: 0 <= x < |r| ==> r[x] == (i, i + 1 + x)
  {
    if j <= i + 1 then [] else Row(i, j - 1) + [(i, j - 1)]
  }

  /// The pairs visited by the outer loop before it reaches index i.
  function PairsBefore(n: nat, i: nat): (ps: seq<(nat, nat)>)
    requires i <= n
  {
    if i == 0 then [] else PairsBefore(n, i - 1) + Row(i - 1, n)
  }

  /// The pairs before row i all start below i, and come in strict order.
  lemma {:induction false} PairsBeforeOrdered(n: nat, i: nat)
    requires i <= n
    ensures forall x :: 0 <= x < |PairsBefore(n, i)| ==>
      PairsBefore(n, i)[x].0 < i && PairsBefore(n, i)[x].0 < PairsBefore(n, i)[x].1 < n
    ensures Ordered(PairsBefore(n, i))
  {
    if i > 0 {
      PairsBeforeOrdered(n, i - 1);
      var before := PairsBefore(n, i - 1);
      var row := Row(i - 1, n);
      var ps := before + row;
      forall x | 0 <= x < |ps| ensures ps[x].0 < i && ps[x].0 < ps[x].1 < n {
        if x >= |before| {
          assert ps[x] == row[x - |before|];
        } else {
          assert ps[x] == before[x];
        }
      }
      forall x, y | 0 <= x < y < |ps| ensures LexLess(ps[x], ps[y]) {
        if y < |before| {
          assert ps[x] == before[x] && ps[y] == before[y];
        } else if x >= |before| {
          assert ps[x] == row[x - |before|] && ps[y] == row[y - |before|];
        } else {
          assert ps[x] == before[x] && ps[y] == row[y - |before|];
        }
      }
    }
  }

  /// Every unordered pair i < j < n, in loop order.
  function Pairs(n: nat): seq<(nat, nat)> {
    PairsBefore(n, n)
  }

  /// The number of pairs visited before row i: (n-1) + (n-2) + ... + (n-i).
  function EdgesBefore(n: nat, i: nat): nat
    requires i <= n
  {
    if i == 0 then 0 else EdgesBefore(n, i - 1) + (n - i)
  }

  lemma {:induction false} PairsBeforeCount(n: nat, i: nat)
    requires i <= n
    ensures |PairsBefore(n, i)| == EdgesBefore(n, i)
    ensures 2 * EdgesBefore(n, i) == i * (2 * n - i - 1)
  {
    if i > 0 {
      PairsBeforeCount(n, i - 1);
      assert (i - 1) * (2 * n - i) == i * (2 * n - i) - (2 * n - i);
      assert i * (2 * n - i - 1) == i * (2 * n - i) - i;
    }
  }

  /// There are n(n-1)/2 pairs.
  lemma PairsCount(n: nat)
    ensures |Pairs(n)| * 2 == n * (n - 1)
  {
    PairsBeforeCount(n, n);
  }

  /// Every pair i < j < n is visited, and only those.
  lemma {:induction false} PairsBeforeComplete(n: nat, i: nat, a: nat, b: nat)
    requires i <= n
    ensures (a, b) in PairsBefore(n, i) <==> a < i && a < b < n
  {
    if i > 0 {
      PairsBeforeComplete(n, i - 1, a, b);
      PairsBeforeOrdered(n, i - 1);
      var row := Row(i - 1, n);
      if a == i - 1 && a < b < n {
        assert row[b - i] == (a, b);
      }
    }
  }

  lemma PairsComplete(n: nat, a: nat, b: nat)
    ensures (a, b) in Pairs(n) <==> a < b < n
  {
    PairsBeforeComplete(n, n, a, b);
  }

  // ---------------------------------------------------------------------------
  // Collecting the links of a pass

  /// One computed link: controllers i and j hear each other with figure value.
  datatype Conn<V> = Conn(i: nat, j: nat, value: V)

  /// Evaluates `link` on each pair in order, keeping the pairs that produced a
  /// link (`filter(None, connections)`); the first pair whose evaluation raises
  /// makes the whole pass raise.
  function Collect<V>(ps: seq<(nat, nat)>, link: (nat, nat) -> Result<Option<V>>): (r: Result<seq<Conn<V>>>)
    ensures r.Ok? ==> |r.value| <= |ps|
  {
    if ps == [] then Ok([])
    else
      var last := ps[|ps| - 1];
      var init := ps[..|ps| - 1];
      match Collect(init, link)
      case Err(e) => Err(e)
      case Ok(cs) =>
        match link(last.0, last.1)
        case Err(e) => Err(e)
        case Ok(None) => Ok(cs)
        case Ok(Some(v)) => Ok(cs + [Conn(last.0, last.1, v)])
  }

  /// The pass succeeds exactly when no pair raises, and then every collected
  /// link is the link of one of the pairs.
  lemma {:induction false} CollectSound<V>(ps: seq<(nat, nat)>, link: (nat, nat) -> Result<Option<V>>)
    ensures var r := Collect(ps, link);
      r.Ok? ==> forall x :: 0 <= x < |r.value| ==> (r.value[x].i, r.value[x].j) in ps && link(r.value[x].i, r.value[x].j) == Ok(Some(r.value[x].value))
    ensures Collect(ps, link).Ok? <==> forall p :: p in ps ==> link(p.0, p.1).Ok?
  {
    if ps != [] {
      var last := ps[|ps| - 1];
      var init := ps[..|ps| - 1];
      assert forall p :: p in ps <==> p in init || p == last;
      CollectSound(init, link);
    }
  }

  /// The links of an ordered pair list come out in the same strict order, so
  /// each pair is written at most once.
  lemma {:induction false} CollectOrdered<V>(ps: seq<(nat, nat)>, link: (nat, nat) -> Result<Option<V>>)
    requires Ordered(ps)
    requires Collect(ps, link).Ok?
    ensures var cs := Collect(ps, link).value;
      forall x, y :: 0 <= x < y < |cs| ==> LexLess((cs[x].i, cs[x].j), (cs[y].i, cs[y].j))
  {
    if ps != [] {
      var last := ps[|ps| - 1];
      var init := ps[..|ps| - 1];
      assert Ordered(init);
      CollectOrdered(init, link);
      CollectSound(init, link);
      var cs := Collect(init, link).value;
      forall z | 0 <= z < |cs| ensures LexLess((cs[z].i, cs[z].j), last) {
        var x :| 0 <= x < |init| && init[x] == (cs[z].i, cs[z].j);
        assert ps[x] == init[x];
      }
    }
  }

  /// Every pair that produced a link is among the collected links.
  lemma {:induction false} CollectComplete<V>(ps: seq<(nat, nat)>, link: (nat, nat) -> Result<Option<V>>, p: (nat, nat))
    requires Collect(ps, link).Ok?
    requires p in ps && link(p.0, p.1).Ok? && link(p.0, p.1).value.Some?
    ensures exists x :: 0 <= x < |Collect(ps, link).value| && Collect(ps, link).value[x] == Conn(p.0, p.1, link(p.0, p.1).value.value)
  {
    var last := ps[|ps| - 1];
    var init := ps[..|ps| - 1];
    assert p in init || p == last;
    var cs := Collect(init, link).value;
    var all := Collect(ps, link).value;
    assert all[..|cs|] == cs;
    if p != last {
      CollectComplete(init, link, p);
      var x :| 0 <= x < |cs| && cs[x] == Conn(p.0, p.1, link(p.0, p.1).value.value);
      assert all[x] == cs[x];
    } else {
      assert all[|all| - 1] == Conn(p.0, p.1, link(p.0, p.1).value.value);
    }
  }

  // ---------------------------------------------------------------------------
  // Symmetric write-back

  predicate ConnsWithin<V>(conns: seq<Conn<V>>, n: nat) {
    forall x :: 0 <= x < |conns| ==> conns[x].i < n && conns[x].j < n
  }

  /// Controller k's `hears` after `mesh[a].hears[b] = mesh[b].hears[a] = v`
  /// has run for each link (a, b, v) of conns, in order, starting from h.
  function HearsAfter<V>(h: map<string, V>, k: nat, names: seq<string>, conns: seq<Conn<V>>): map<string, V>
    requires ConnsWithin(conns, |names|)
  {
    if conns == [] then h
    else
      var c := conns[|conns| - 1];
      var h' := HearsAfter(h, k, names, conns[..|conns| - 1]);
      var h'' := if c.i == k then h'[names[c.j] := c.value] else h';
      if c.j == k then h''[names[c.i] := c.value] else h''
  }

  predicate Touches<V>(c: Conn<V>, k: nat, m: nat) {
    (c.i == k && c.j == m) || (c.i == m && c.j == k)
  }

  /// A controller's entry for another controller changes only through a link
  /// between the two: every other entry keeps its presence and value.
  lemma {:induction false} HearsOther<V>(h: map<string, V>, k: nat, m: nat, names: seq<string>, conns: seq<Conn<V>>)
    requires ConnsWithin(conns, |names|) && DistinctNames(names)
    requires k < |names| && m < |names|
    requires forall x :: 0 <= x < |conns| ==> !Touches(conns[x], k, m)
    ensures var h' := HearsAfter(h, k, names, conns);
      (names[m] in h' <==> names[m] in h) && (names[m] in h ==> h'[names[m]] == h[names[m]])
  {
    if conns != [] {
      var init := conns[..|conns| - 1];
      assert forall x :: 0 <= x < |init| ==> init[x] == conns[x];
      HearsOther(h, k, m, names, init);
      var c := conns[|conns| - 1];
      if c.i == k { assert c.j != m && names[c.j] != names[m]; }
      if c.j == k { assert c.i != m && names[c.i] != names[m]; }
    }
  }

  /// A controller that no link touches keeps its `hears` unchanged.
  lemma {:induction false} HearsUntouched<V>(h: map<string, V>, k: nat, names: seq<string>, conns: seq<Conn<V>>)
    requires ConnsWithin(conns, |names|)
    requires forall x :: 0 <= x < |conns| ==> conns[x].i != k && conns[x].j != k
    ensures HearsAfter(h, k, names, conns) == h
  {
    if conns != [] {
      var init := conns[..|conns| - 1];
      assert forall x :: 0 <= x < |init| ==> init[x] == conns[x];
      HearsUntouched(h, k, names, init);
    }
  }

  /// A link (a, b, v) that is the only link between a and b ends up as
  /// v in both a's entry for b and b's entry for a.
  lemma {:induction false} HearsLink<V>(h: map<string, V>, k: nat, names: seq<string>, conns: seq<Conn<V>>, x: nat)
    requires ConnsWithin(conns, |names|) && DistinctNames(names)
    requires x < |conns| && conns[x].i != conns[x].j && (conns[x].i == k || conns[x].j == k)
    requires forall y :: 0 <= y < |conns| && y != x ==> !Touches(conns[y], conns[x].i, conns[x].j)
    ensures var c := conns[x];
      var other := if c.i == k then c.j else c.i;
      var h' := HearsAfter(h, k, names, conns);
      names[other] in h' && h'[names[other]] == c.value
  {
    var c := conns[x];
    var other := if c.i == k then c.j else c.i;
    var last := |conns| - 1;
    var init := conns[..last];
    if x == last {
      // the last write is the link itself
    } else {
      HearsLink(h, k, names, init, x);
      var d := conns[last];
      assert !Touches(d, c.i, c.j);
      if d.i == k { assert d.j != other && names[d.j] != names[other]; }
      if d.j == k { assert d.i != other && names[d.i] != names[other]; }
    }
  }

  /// Links with strictly ordered pairs touch each unordered pair at most once.
  lemma OrderedUnique<V>(conns: seq<Conn<V>>, x: nat)
    requires forall p, q :: 0 <= p < q < |conns| ==> LexLess((conns[p].i, conns[p].j), (conns[q].i, conns[q].j))
    requires forall x :: 0 <= x < |conns| ==> conns[x].i < conns[x].j
    requires x < |conns|
    ensures forall y :: 0 <= y < |conns| && y != x ==> !Touches(conns[y], conns[x].i, conns[x].j)
  {
    forall y | 0 <= y < |conns| && y != x ensures !Touches(conns[y], conns[x].i, conns[x].j) {
      assert conns[y].i < conns[y].j && conns[x].i < conns[x].j;
    }
  }

  /// After a pass over all unordered pairs, a's entry for b and b's entry for a
  /// both hold the value of the pair (a, b) when it produced a link, and are as
  /// before when it produced none.
  lemma PairWritten<V>(h: map<string, V>, k: nat, names: seq<string>, link: (nat, nat) -> Result<Option<V>>, a: nat, b: nat)
    requires DistinctNames(names) && a < b < |names| && (k == a || k == b)
    requires Collect(Pairs(|names|), link).Ok?
    ensures link(a, b).Ok?
    ensures ConnsWithin(Collect(Pairs(|names|), link).value, |names|)
    ensures var h' := HearsAfter(h, k, names, Collect(Pairs(|names|), link).value);
      var other := if k == a then b else a;
      match link(a, b).value
      case Some(v) => names[other] in h' && h'[names[other]] == v
      case None => (names[other] in h' <==> names[other] in h) && (names[other] in h ==> h'[names[other]] == h[names[other]])
  {
    var n := |names|;
    var ps := Pairs(n);
    var conns := Collect(ps, link).value;
    var other := if k == a then b else a;
    CollectSound(ps, link);
    PairsComplete(n, a, b);
    forall x | 0 <= x < |conns| ensures conns[x].i < conns[x].j < n {
      PairsComplete(n, conns[x].i, conns[x].j);
    }
    PairsBeforeOrdered(n, n);
    CollectOrdered(ps, link);
    match link(a, b).value {
      case Some(v) =>
        CollectComplete(ps, link, (a, b));
        var x :| 0 <= x < |conns| && conns[x] == Conn(a, b, v);
        OrderedUnique(conns, x);
        HearsLink(h, k, names, conns, x);
      case None =>
        forall x | 0 <= x < |conns| ensures !Touches(conns[x], k, other) {
          assert (conns[x].i, conns[x].j) in ps;
        }
        HearsOther(h, k, other, names, conns);
    }
  }

  /// `for a, b, v in connections: mesh[a].hears[b] = mesh[b].hears[a] = v`
  method WriteBack<V>(mesh: seq<Controller<V>>, conns: seq<Conn<V>>)
    requires ConnsWithin(conns, |mesh|) && DistinctObjects(mesh)
    modifies mesh
    ensures forall k :: 0 <= k < |mesh| ==>
      mesh[k].hears == HearsAfter(old(mesh[k].hears), k, Names(mesh), conns)
  {
    var names := Names(mesh);
    for x := 0 to |conns|
      invariant forall k :: 0 <= k < |mesh| ==>
        mesh[k].hears == HearsAfter(old(mesh[k].hears), k, names, conns[..x])
    {
      var c := conns[x];
      assert conns[..x + 1][..x] == conns[..x];
      mesh[c.i].hears := mesh[c.i].hears[names[c.j] := c.value];
      mesh[c.j].hears := mesh[c.j].hears[names[c.i] := c.value];
    }
    assert conns[..|conns|] == conns;
  }
}
