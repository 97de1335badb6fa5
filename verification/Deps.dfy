/** Dependency graphs: `DependencyGraph` of `python/src/trlog/_deps.py`.  Depth-first searches find a
    cycle or an order in which inputs come before their consumers. */
module Deps {
  import opened Bytes
  import opened Lists

  /** A node's inputs; a node without an entry has none. */
  type Graph = map<nat, seq<nat>>

  function Inputs(g: Graph, n: nat): seq<nat> {
    if n in g then g[n] else []
  }

  ghost predicate Edge(g: Graph, a: nat, b: nat) {
    b in Inputs(g, a)
  }

  ghost function Nodes(g: Graph): set<nat> {
    g.Keys + set a, b | a in g && b in g[a] :: b
  }

  // ---- Walks and cycles ----

  ghost predicate Walk(g: Graph, p: seq<nat>) {
    p != [] && forall i :: 0 <= i < |p| - 1 ==> Edge(g, p[i], p[i + 1])
  }

  ghost predicate Cycle(g: Graph, p: seq<nat>) {
    |p| >= 2 && Walk(g, p) && p[0] == p[|p| - 1]
  }

  ghost predicate Acyclic(g: Graph) {
    forall p :: !Cycle(g, p)
  }

  ghost predicate Distinct(s: seq<nat>) {
    forall i, j :: 0 <= i < j < |s| ==> s[i] != s[j]
  }

  /** Each node once, and only after all its inputs. */
  ghost predicate InputsFirst(g: Graph, order: seq<nat>) {
    Distinct(order) && forall i :: 0 <= i < |order| ==> forall m :: m in Inputs(g, order[i]) ==> m in order[..i]
  }

  lemma WalkSnoc(g: Graph, p: seq<nat>, n: nat)
    requires p == [] || (Walk(g, p) && Edge(g, p[|p| - 1], n))
    ensures Walk(g, p + [n])
  {
    var q := p + [n];
    forall i | 0 <= i < |q| - 1
      ensures Edge(g, q[i], q[i + 1])
    {
      if i < |p| - 1 {
        assert q[i] == p[i] && q[i + 1] == p[i + 1];
      }
    }
  }

  lemma WalkFrom(g: Graph, p: seq<nat>, i: nat)
    requires Walk(g, p) && i < |p|
    ensures Walk(g, p[i..])
  {
    forall k | 0 <= k < |p[i..]| - 1
      ensures Edge(g, p[i..][k], p[i..][k + 1])
    {
      assert Edge(g, p[i + k], p[i + k + 1]);
    }
  }

  /** An edge back to a node of the walk closes a cycle. */
  lemma ClosesCycle(g: Graph, p: seq<nat>, i: nat, m: nat)
    requires Walk(g, p) && i < |p| && p[i] == m && Edge(g, p[|p| - 1], m)
    ensures Cycle(g, p[i..] + [m])
  {
    WalkFrom(g, p, i);
    WalkSnoc(g, p[i..], m);
  }

  /** Along a walk the position in an inputs-first order falls. */
  lemma {:induction false} WalkDescends(g: Graph, order: seq<nat>, p: seq<nat>, i: nat, j: nat)
    requires InputsFirst(g, order) && Walk(g, p) && |p| >= 2 && i < |order| && order[i] == p[0]
    requires j < |order| && order[j] == p[|p| - 1]
    ensures j < i
    decreases |p|
  {
    assert Edge(g, p[0], p[1]);
    assert p[1] in order[..i];
    var k :| 0 <= k < i && order[k] == p[1];
    if |p| == 2 {
      assert k == j;
    } else {
      WalkFrom(g, p, 1);
      WalkDescends(g, order, p[1..], k, j);
    }
  }

  lemma {:induction false} WalkStaysIn(g: Graph, order: seq<nat>, p: seq<nat>, k: nat)
    requires InputsFirst(g, order) && Walk(g, p) && p[0] in order && k < |p|
    ensures p[k] in order
  {
    if k > 0 {
      WalkStaysIn(g, order, p, k - 1);
      var i :| 0 <= i < |order| && order[i] == p[k - 1];
      assert Edge(g, p[k - 1], p[k]);
      assert p[k] in order[..i];
    }
  }

  /** A graph whose nodes have an inputs-first order has no cycle. */
  lemma OrderedIsAcyclic(g: Graph, order: seq<nat>)
    requires InputsFirst(g, order) && forall n :: n in Nodes(g) ==> n in order
    ensures Acyclic(g)
  {
    forall p | Cycle(g, p)
      ensures false
    {
      assert Edge(g, p[0], p[1]);
      assert p[0] in g && p[0] in Nodes(g);
      WalkStaysIn(g, order, p, |p| - 1);
      var i :| 0 <= i < |order| && order[i] == p[0];
      WalkDescends(g, order, p, i, i);
    }
  }

  // ---- Cycle search ----

  datatype Color = Gray | Black

  /** The gray nodes are the walk under way; the black ones are finished, inputs first. */
  ghost predicate SearchOk(g: Graph, color: map<nat, Color>, path: seq<nat>, done: seq<nat>) {
    && color.Keys <= Nodes(g)
    && (path == [] || Walk(g, path))
    && Distinct(path)
    && (forall n :: n in path <==> n in color && color[n] == Gray)
    && InputsFirst(g, done)
    && (forall n :: n in done <==> n in color && color[n] == Black)
  }

  lemma FinishOk(g: Graph, color: map<nat, Color>, path: seq<nat>, done: seq<nat>, n: nat)
    requires SearchOk(g, color, path + [n], done)
    requires forall m :: m in Inputs(g, n) ==> m in color && color[m] == Black
    ensures n in color && SearchOk(g, color[n := Black], path, done + [n])
  {
    hide Nodes, Walk, InputsFirst;
    var p := path + [n];
    assert p[|path|] == n && n in p;
    if path != [] {
      CycleSearch.WalkInit(g, p);
      assert p[..|p| - 1] == path;
    }
    assert Distinct(path) by {
      assert forall i :: 0 <= i < |path| ==> p[i] == path[i];
    }
    assert n !in path by {
      assert forall i :: 0 <= i < |path| ==> p[i] == path[i] && p[i] != p[|path|];
    }
    assert forall m :: m in p <==> m in path || m == n;
    CycleSearch.OrderSnoc(g, done, n);
  }

  /** The state that the nested `visit` of `find_cycle` shares; a node without a colour is white. */
  class CycleSearch {
    const g: Graph
    var color: map<nat, Color>
    var path: seq<nat>
    ghost var done: seq<nat>   // black nodes in the order they were finished

    constructor (g: Graph)
      ensures this.g == g && color == map[] && path == [] && done == [] && Valid()
    {
      this.g, color, path, done := g, map[], [], [];
    }

    ghost predicate Valid()
      reads this
    {
      SearchOk(g, color, path, done)
    }

    ghost function White(): set<nat>
      reads this
    {
      Nodes(g) - color.Keys
    }

    /** Grays `n`, looks below it, and either comes back with a cycle or leaves `n` and everything
        below it black. */
    method Visit(n: nat) returns (cycle: Option<seq<nat>>)
      requires Valid() && n in White() && (path == [] || Edge(g, path[|path| - 1], n))
      modifies this
      ensures cycle.Some? ==> Cycle(g, cycle.value)
      ensures cycle.None? ==> Valid() && path == old(path) && n in color && color[n] == Black
      ensures cycle.None? ==> White() < old(White())
      ensures cycle.None? ==> forall m :: m in old(color) ==> m in color && color[m] == old(color)[m]
      decreases White()
    {
      hide Walk, InputsFirst, Nodes, Cycle, Distinct, SearchOk;
      ghost var path0, color0, white0 := path, color, White();
      Begin(n);
      var below := Inputs(g, n);
      for i := 0 to |below|
        invariant Valid() && path == path0 + [n]
        invariant White() <= white0 - {n}
        invariant forall m :: m in color0 ==> m in color && color[m] == color0[m]
        invariant forall k :: 0 <= k < i ==> below[k] in color && color[below[k]] == Black
      {
        var m := below[i];
        InputIsNode(g, n, m);
        GrayOnPath(g, color, path, done);
        if m in color && color[m] == Gray {
          var at := FindIn(path, m);
          ClosesCycle(g, path, at, m);
          return Some(path[at..] + [m]);
        }
        if m !in color {
          var c := Visit(m);
          if c.Some? {
            return c;
          }
        }
      }
      Finish(n, path0);
      cycle := None;
    }

    static lemma GrayOnPath(g: Graph, color: map<nat, Color>, path: seq<nat>, done: seq<nat>)
      requires SearchOk(g, color, path, done)
      ensures path != [] ==> Walk(g, path)
      ensures forall n :: n in path <==> n in color && color[n] == Gray
    {
      hide Walk, InputsFirst, Nodes, Distinct;
    }

    method Begin(n: nat)
      requires Valid() && n in White() && (path == [] || Edge(g, path[|path| - 1], n))
      modifies this
      ensures Valid() && path == old(path) + [n] && color == old(color)[n := Gray] && done == old(done)
    {
      hide InputsFirst, Nodes;
      WalkSnoc(g, path, n);
      color := color[n := Gray];
      path := path + [n];
    }

    method Finish(n: nat, ghost rest: seq<nat>)
      requires Valid() && path == rest + [n]
      requires forall m :: m in Inputs(g, n) ==> m in color && color[m] == Black
      modifies this
      ensures Valid() && path == rest && color == old(color)[n := Black] && n in old(color)
    {
      hide SearchOk;
      FinishOk(g, color, rest, done, n);
      path := path[..|path| - 1];
      color := color[n := Black];
      done := done + [n];
    }

    static lemma WalkInit(g: Graph, p: seq<nat>)
      requires Walk(g, p) && |p| > 1
      ensures Walk(g, p[..|p| - 1])
    {
    }

    static lemma OrderSnoc(g: Graph, order: seq<nat>, n: nat)
      requires InputsFirst(g, order) && n !in order && forall m :: m in Inputs(g, n) ==> m in order
      ensures InputsFirst(g, order + [n])
    {
      var q := order + [n];
      forall i | 0 <= i < |q|
        ensures forall m :: m in Inputs(g, q[i]) ==> m in q[..i]
      {
        if i < |order| {
          assert q[..i] == order[..i];
        } else {
          assert q[..i] == order;
        }
      }
    }
  }

  method FindIn(s: seq<nat>, m: nat) returns (at: nat)
    requires m in s
    ensures at < |s| && s[at] == m
  {
    at := 0;
    while s[at] != m
      invariant at < |s| && m in s[at..]
      decreases |s| - at
    {
      at := at + 1;
    }
  }

  lemma InputIsNode(g: Graph, n: nat, m: nat)
    requires m in Inputs(g, n)
    ensures n in Nodes(g) && m in Nodes(g)
  {
  }

  // ---- Orders ----

  /** The state that the nested `visit` of `topo_order` shares. */
  class OrderSearch {
    const g: Graph
    var seen: set<nat>
    var order: seq<nat>

    constructor (g: Graph)
      ensures this.g == g && seen == {} && order == [] && Valid([])
    {
      this.g, seen, order := g, {}, [];
    }

    /** `path` is the chain of visits under way. */
    ghost predicate Valid(path: seq<nat>)
      reads this
    {
      && (path == [] || Walk(g, path))
      && seen <= Nodes(g)
      && (forall n :: n in seen <==> n in path || n in order)
      && (forall n :: n in path ==> n !in order)
      && InputsFirst(g, order)
    }

    method Visit(n: nat, ghost path: seq<nat>)
      requires Acyclic(g) && Valid(path) && n in Nodes(g) && (path == [] || Edge(g, path[|path| - 1], n))
      modifies this
      ensures Valid(path) && n in order && old(seen) <= seen
      ensures forall m :: m in old(order) ==> m in order
      decreases Nodes(g) - seen
    {
      hide Walk, InputsFirst, Nodes, Acyclic;
      if n in seen {
        NotOnPath(g, path, n);
        return;
      }
      ghost var seen0, order0 := seen, order;
      ghost var deeper := path + [n];
      WalkSnoc(g, path, n);
      seen := seen + {n};
      var below := Inputs(g, n);
      for i := 0 to |below|
        invariant Valid(deeper) && seen0 + {n} <= seen
        invariant forall m :: m in order0 ==> m in order
        invariant forall k :: 0 <= k < i ==> below[k] in order
      {
        InputIsNode(g, n, below[i]);
        assert deeper[|deeper| - 1] == n;
        Visit(below[i], deeper);
      }
      CycleSearch.OrderSnoc(g, order, n);
      assert n in deeper && forall m :: m in deeper <==> m in path || m == n;
      NotOnPath(g, path, n);
      order := order + [n];
    }

    static lemma NotOnPath(g: Graph, path: seq<nat>, n: nat)
      requires Acyclic(g) && (path == [] || (Walk(g, path) && Edge(g, path[|path| - 1], n)))
      ensures n !in path
    {
      if n in path {
        var i :| 0 <= i < |path| && path[i] == n;
        ClosesCycle(g, path, i, n);
      }
    }
  }

  /** Sorted, as `nodes` returns them. */
  function NodeList(g: Graph): (r: seq<nat>)
    ensures forall n :: n in r <==> n in g.Keys + set a, b | a in g && b in g[a] :: b
  {
    Ascending(g.Keys + set a, b | a in g && b in g[a] :: b)
  }

  lemma CycleRefutes(g: Graph, p: seq<nat>)
    requires Cycle(g, p)
    ensures !Acyclic(g)
  {
  }

  lemma AllDone(g: Graph, color: map<nat, Color>, done: seq<nat>, nodes: seq<nat>)
    requires SearchOk(g, color, [], done) && nodes == NodeList(g) && forall k :: 0 <= k < |nodes| ==> nodes[k] in color
    ensures InputsFirst(g, done) && forall n :: n in Nodes(g) ==> n in done
  {
    hide InputsFirst;
    forall n | n in Nodes(g)
      ensures n in done
    {
      assert n in nodes && n !in [];
    }
  }

  lemma NodeListIsNodes(g: Graph)
    ensures forall n :: n in NodeList(g) <==> n in Nodes(g)
  {
  }

  /** `find_cycle`: nothing exactly when the graph has no cycle, otherwise one of its cycles. */
  method FindCycle(g: Graph) returns (cycle: Option<seq<nat>>)
    ensures cycle.None? <==> Acyclic(g)
    ensures cycle.Some? ==> Cycle(g, cycle.value)
  {
    hide Walk, InputsFirst, Cycle, Acyclic, Nodes, NodeList, SearchOk;
    var search := new CycleSearch(g);
    var nodes := NodeList(g);
    for i := 0 to |nodes|
      invariant search.Valid() && search.path == []
      invariant forall k :: 0 <= k < i ==> nodes[k] in search.color
    {
      if nodes[i] !in search.color {
        NodeListIsNodes(g);
        var c := search.Visit(nodes[i]);
        if c.Some? {
          CycleRefutes(g, c.value);
          return c;
        }
      }
    }
    AllDone(g, search.color, search.done, nodes);
    OrderedIsAcyclic(g, search.done);
    cycle := None;
  }

  /** `topo_order`: raises on a cycle, otherwise every node once, inputs first. */
  method TopoOrder(g: Graph) returns (order: Option<seq<nat>>)
    ensures order.Some? <==> Acyclic(g)
    ensures order.Some? ==> InputsFirst(g, order.value) && forall n :: n in order.value <==> n in Nodes(g)
  {
    hide Walk, InputsFirst, Acyclic;
    var cycle := FindCycle(g);
    if cycle.Some? {
      return None;
    }
    var search := new OrderSearch(g);
    var nodes := NodeList(g);
    for i := 0 to |nodes|
      invariant search.Valid([])
      invariant forall k :: 0 <= k < i ==> nodes[k] in search.order
    {
      assert nodes[i] in Nodes(g);
      search.Visit(nodes[i], []);
    }
    forall n | n in Nodes(g)
      ensures n in search.order
    {
      assert n in nodes;
    }
    order := Some(search.order);
  }

  function Reversed(s: seq<nat>): (r: seq<nat>)
    ensures |r| == |s| && forall i :: 0 <= i < |s| ==> r[i] == s[|s| - 1 - i]
  {
    if s == [] then [] else Reversed(s[1..]) + [s[0]]
  }

  /** Each node once, and before all of its inputs. */
  ghost predicate InputsLast(g: Graph, order: seq<nat>) {
    Distinct(order) &&
    forall i, j :: 0 <= i < |order| && 0 <= j < |order| && Edge(g, order[i], order[j]) ==> i < j
  }

  lemma ReversedIsInputsLast(g: Graph, order: seq<nat>)
    requires InputsFirst(g, order)
    ensures InputsLast(g, Reversed(order)) && forall n :: n in Reversed(order) <==> n in order
  {
    hide InputsFirst, Reversed, Edge, Distinct;
    var r, n := Reversed(order), |order| - 1;
    assert Distinct(r) by {
      ReversedDistinct(g, order);
    }
    forall i, j | 0 <= i < |r| && 0 <= j < |r| && Edge(g, r[i], r[j])
      ensures i < j
    {
      LaterEdge(g, order, n - i, n - j);
    }
    forall x | x in order
      ensures x in r
    {
      var i :| 0 <= i < |order| && order[i] == x;
      assert r[n - i] == x;
    }
  }

  lemma ReversedDistinct(g: Graph, order: seq<nat>)
    requires InputsFirst(g, order)
    ensures Distinct(Reversed(order))
  {
    hide Reversed;
    var r, n := Reversed(order), |order| - 1;
    forall i, j | 0 <= i < j < |r|
      ensures r[i] != r[j]
    {
      assert order[n - j] != order[n - i];
    }
  }

  /** An input comes earlier. */
  lemma LaterEdge(g: Graph, order: seq<nat>, i: nat, j: nat)
    requires InputsFirst(g, order) && i < |order| && j < |order| && Edge(g, order[i], order[j])
    ensures j < i
  {
    assert order[j] in order[..i];
    var k :| 0 <= k < i && order[k] == order[j];
  }

  /** `finalize_order`: the reverse, so a shared stream comes after every stream that feeds on it. */
  method FinalizeOrder(g: Graph) returns (order: Option<seq<nat>>)
    ensures order.Some? <==> Acyclic(g)
    ensures order.Some? ==> InputsLast(g, order.value) && forall n :: n in order.value <==> n in Nodes(g)
  {
    hide InputsFirst, InputsLast, Acyclic, Nodes;
    var topo := TopoOrder(g);
    if topo.None? {
      return None;
    }
    ReversedIsInputsLast(g, topo.value);
    order := Some(Reversed(topo.value));
  }
}
