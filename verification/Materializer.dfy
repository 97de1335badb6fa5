/** Lazy, memoised evaluation over a dependency graph: `Materializer` of
    `python/src/trlog/_deps.py`. */
module Materializer {
  import opened Bytes
  import opened Deps

  /** What a node computes from its inputs' results, by input id. */
  type Compute<!V> = (nat, map<nat, V>) -> V

  ghost function Range(s: seq<nat>): set<nat> {
    set n | n in s
  }

  // ---- The recursive value of a node ----

  /** One result for every input of the node, and for nothing else. */
  ghost predicate Feeds<V(!new)>(g: Graph, n: nat, inputs: map<nat, V>) {
    inputs.Keys == Range(Inputs(g, n))
  }

  /** `v` is what the node computes from what its inputs compute, no more than `fuel` levels down. */
  ghost predicate ValueIn<V(!new)>(g: Graph, compute: Compute<V>, n: nat, v: V, fuel: nat)
    decreases fuel
  {
    fuel > 0 && exists inputs: map<nat, V> ::
      Feeds(g, n, inputs) && v == compute(n, inputs) && forall m :: m in inputs ==> ValueIn(g, compute, m, inputs[m], fuel - 1)
  }

  lemma InputsOf<V(!new)>(g: Graph, compute: Compute<V>, n: nat, v: V, fuel: nat) returns (inputs: map<nat, V>)
    requires ValueIn(g, compute, n, v, fuel)
    ensures fuel > 0 && Feeds(g, n, inputs) && v == compute(n, inputs)
    ensures forall m :: m in inputs ==> ValueIn(g, compute, m, inputs[m], fuel - 1)
  {
    inputs :| Feeds(g, n, inputs) && v == compute(n, inputs) &&
      forall m :: m in inputs ==> ValueIn(g, compute, m, inputs[m], fuel - 1);
  }

  ghost predicate HasValue<V(!new)>(g: Graph, compute: Compute<V>, n: nat, v: V) {
    exists fuel: nat :: ValueIn(g, compute, n, v, fuel)
  }

  lemma {:induction false} MoreFuel<V(!new)>(g: Graph, compute: Compute<V>, n: nat, v: V, j: nat, k: nat)
    requires j <= k && ValueIn(g, compute, n, v, j)
    ensures ValueIn(g, compute, n, v, k)
    decreases j
  {
    var inputs := InputsOf(g, compute, n, v, j);
    forall m | m in inputs
      ensures ValueIn(g, compute, m, inputs[m], k - 1)
    {
      MoreFuel(g, compute, m, inputs[m], j - 1, k - 1);
    }
  }

  lemma {:induction false} ValueInUnique<V(!new)>(g: Graph, compute: Compute<V>, n: nat, v: V, j: nat, w: V, k: nat)
    requires ValueIn(g, compute, n, v, j) && ValueIn(g, compute, n, w, k)
    ensures v == w
    decreases j
  {
    hide ValueIn;
    var a := InputsOf(g, compute, n, v, j);
    var b := InputsOf(g, compute, n, w, k);
    forall m | m in a
      ensures a[m] == b[m]
    {
      assert m in b;
      ValueInUnique(g, compute, m, a[m], j - 1, b[m], k - 1);
    }
    assert a == b;
  }

  /** A node has at most one value. */
  lemma ValueUnique<V(!new)>(g: Graph, compute: Compute<V>, n: nat, v: V, w: V)
    requires HasValue(g, compute, n, v) && HasValue(g, compute, n, w)
    ensures v == w
  {
    hide ValueIn;
    var j: nat :| ValueIn(g, compute, n, v, j);
    var k: nat :| ValueIn(g, compute, n, w, k);
    ValueInUnique(g, compute, n, v, j, w, k);
  }

  // ---- Nodes below a node ----

  ghost predicate Reaches(g: Graph, a: nat, b: nat) {
    exists p :: Walk(g, p) && p[0] == a && p[|p| - 1] == b
  }

  /** A walk from the node that comes back to where it has been: a cycle is reachable. */
  ghost predicate Lasso(g: Graph, p: seq<nat>) {
    Walk(g, p) && |p| >= 2 && p[|p| - 1] in p[..|p| - 1]
  }

  ghost predicate CycleBelow(g: Graph, n: nat) {
    exists p :: Lasso(g, p) && p[0] == n
  }

  lemma WalkCons(g: Graph, n: nat, p: seq<nat>)
    requires Walk(g, p) && Edge(g, n, p[0])
    ensures Walk(g, [n] + p)
  {
    var q := [n] + p;
    forall i | 0 <= i < |q| - 1
      ensures Edge(g, q[i], q[i + 1])
    {
      if i > 0 {
        assert Edge(g, p[i - 1], p[i]);
      }
    }
  }

  lemma ReachesSelf(g: Graph, n: nat)
    ensures Reaches(g, n, n)
  {
    var p := [n];
    assert Walk(g, p) && p[0] == n && p[|p| - 1] == n;
  }

  lemma ReachesOn(g: Graph, n: nat, m: nat, b: nat)
    requires Edge(g, n, m) && Reaches(g, m, b)
    ensures Reaches(g, n, b)
  {
    var p :| Walk(g, p) && p[0] == m && p[|p| - 1] == b;
    WalkCons(g, n, p);
    var q := [n] + p;
    assert q[0] == n && q[|q| - 1] == b;
  }

  /** A cycle below an input is a cycle below the node. */
  lemma CycleBelowInput(g: Graph, n: nat, m: nat)
    requires Edge(g, n, m) && CycleBelow(g, m)
    ensures CycleBelow(g, n)
  {
    var p :| Lasso(g, p) && p[0] == m;
    WalkCons(g, n, p);
    var q := [n] + p;
    assert q[..|q| - 1] == [n] + p[..|p| - 1];
    assert Lasso(g, q) && q[0] == n;
  }

  /** A cycle below a node is a cycle below one of its inputs. */
  lemma CycleBelowStep(g: Graph, n: nat) returns (m: nat)
    requires CycleBelow(g, n)
    ensures Edge(g, n, m) && CycleBelow(g, m)
  {
    var p :| Lasso(g, p) && p[0] == n;
    assert Edge(g, p[0], p[1]);
    m := p[1];
    var last := p[|p| - 1];
    var i :| 0 <= i < |p| - 1 && p[i] == last;
    WalkFrom(g, p, 1);
    var q := p[1..];
    if i == 0 {
      WalkSnoc(g, q, m);
      q := q + [m];
      assert q[0] == m && q[|q| - 1] == m && q[..|q| - 1] == p[1..];
      assert m in q[..|q| - 1] by {
        assert p[1..][0] == m;
      }
    } else {
      assert q[i - 1] == last && q[|q| - 1] == last && i - 1 < |q| - 1;
      assert q[..|q| - 1][i - 1] == last;
    }
    assert q[|q| - 1] in q[..|q| - 1];
    assert Lasso(g, q) && q[0] == m;
  }

  /** Above a cycle there is no value. */
  lemma {:induction false} CycleHasNoValue<V(!new)>(g: Graph, compute: Compute<V>, n: nat, v: V, fuel: nat)
    requires CycleBelow(g, n)
    ensures !ValueIn(g, compute, n, v, fuel)
    decreases fuel
  {
    hide CycleBelow;
    if ValueIn(g, compute, n, v, fuel) {
      var m := CycleBelowStep(g, n);
      var inputs := InputsOf(g, compute, n, v, fuel);
      assert m in inputs;
      CycleHasNoValue(g, compute, m, inputs[m], fuel - 1);
    }
  }

  lemma ValueMeansNoCycle<V(!new)>(g: Graph, compute: Compute<V>, n: nat, v: V)
    requires HasValue(g, compute, n, v)
    ensures !CycleBelow(g, n)
  {
    hide CycleBelow, ValueIn;
    if CycleBelow(g, n) {
      var k: nat :| ValueIn(g, compute, n, v, k);
      CycleHasNoValue(g, compute, n, v, k);
    }
  }

  /** One depth is enough for finitely many nodes. */
  lemma {:induction false} EnoughFuel<V(!new)>(g: Graph, compute: Compute<V>, ids: seq<nat>, vals: map<nat, V>)
    returns (k: nat)
    requires forall m :: m in ids ==> m in vals && HasValue(g, compute, m, vals[m])
    ensures forall m :: m in ids ==> ValueIn(g, compute, m, vals[m], k)
  {
    hide ValueIn;
    if ids == [] {
      k := 0;
    } else {
      var n := |ids| - 1;
      var j := EnoughFuel(g, compute, ids[..n], vals);
      var i: nat :| ValueIn(g, compute, ids[n], vals[ids[n]], i);
      k := if i > j then i else j;
      MoreFuel(g, compute, ids[n], vals[ids[n]], i, k);
      forall m | m in ids
        ensures ValueIn(g, compute, m, vals[m], k)
      {
        if m != ids[n] {
          assert m in ids[..n];
          MoreFuel(g, compute, m, vals[m], j, k);
        }
      }
    }
  }

  /** Computing from the inputs' values gives the node's value. */
  lemma Computed<V(!new)>(g: Graph, compute: Compute<V>, n: nat, inputs: map<nat, V>)
    requires Feeds(g, n, inputs)
    requires forall m :: m in inputs ==> HasValue(g, compute, m, inputs[m])
    ensures HasValue(g, compute, n, compute(n, inputs))
  {
    hide HasValue;
    var k := EnoughFuel(g, compute, Inputs(g, n), inputs);
    ComputedAt(g, compute, n, inputs, k);
  }

  lemma ComputedAt<V(!new)>(g: Graph, compute: Compute<V>, n: nat, inputs: map<nat, V>, k: nat)
    requires Feeds(g, n, inputs)
    requires forall m :: m in Inputs(g, n) ==> ValueIn(g, compute, m, inputs[m], k)
    ensures HasValue(g, compute, n, compute(n, inputs))
  {
    assert ValueIn(g, compute, n, compute(n, inputs), k + 1);
  }

  lemma FeedsAll<V(!new)>(g: Graph, n: nat, inputs: map<nat, V>)
    requires forall m :: m in inputs <==> m in Inputs(g, n)
    ensures Feeds(g, n, inputs)
  {
  }

  /** Meeting a node whose call is under way shows a cycle through it. */
  lemma BackOnPath(g: Graph, path: seq<nat>, n: nat)
    requires n in path && Walk(g, path) && Edge(g, path[|path| - 1], n)
    ensures CycleBelow(g, n)
  {
    var i :| 0 <= i < |path| && path[i] == n;
    ClosesCycle(g, path, i, n);
    var q := path[i..] + [n];
    assert q[0] == n && q[..|q| - 1] == path[i..] && q[..|q| - 1][0] == n;
    assert Lasso(g, q);
  }

  lemma ReachesMore<V>(g: Graph, n: nat, m: nat, before: map<nat, V>, after: map<nat, V>)
    requires Edge(g, n, m) && forall b :: b in after && b !in before ==> Reaches(g, m, b)
    ensures forall b :: b in after && b !in before ==> Reaches(g, n, b)
  {
    forall b | b in after && b !in before
      ensures Reaches(g, n, b)
    {
      ReachesOn(g, n, m, b);
    }
  }

  // ---- The materializer ----

  class Materializer<V(!new)> {
    const g: Graph
    const compute: Compute<V>
    var cache: map<nat, V>
    var inProgress: set<nat>
    /** The nodes computed so far, in order. */
    ghost var computed: seq<nat>

    constructor (g: Graph, compute: Compute<V>)
      ensures this.g == g && this.compute == compute && cache == map[] && inProgress == {} && computed == [] && Valid()
    {
      this.g, this.compute, cache, inProgress, computed := g, compute, map[], {}, [];
    }

    /** Everything cached has its recursive value and was computed once, and nothing else was. */
    ghost predicate Valid()
      reads this
    {
      && (forall n :: n in cache ==> HasValue(g, compute, n, cache[n]))
      && Distinct(computed) && (forall n :: n in computed <==> n in cache)
      && cache.Keys !! inProgress
    }

    /** `path` is the chain of calls under way; `all` bounds the nodes the search can meet. */
    method Materialize(n: nat, ghost path: seq<nat>, ghost all: set<nat>) returns (r: Option<V>)
      requires Valid() && inProgress == Range(path) && (path == [] || (Walk(g, path) && Edge(g, path[|path| - 1], n)))
      requires n in all && Nodes(g) <= all
      modifies this
      ensures Valid() && inProgress == old(inProgress)
      ensures r.Some? ==> HasValue(g, compute, n, r.value) && n in cache && cache[n] == r.value
      ensures r.None? ==> CycleBelow(g, n)
      ensures forall m :: m in old(cache) ==> m in cache && cache[m] == old(cache)[m]
      ensures old(computed) <= computed
      ensures forall m :: m in cache && m !in old(cache) ==> Reaches(g, n, m)
      decreases all - inProgress
    {
      hide HasValue, Walk, Nodes, CycleBelow, Reaches, Distinct, Feeds, Valid;
      if n in cache {
        CachedValue(n);
        return Some(cache[n]);
      }
      if n in inProgress {
        BackOnPath(g, path, n);
        return None;
      }
      ghost var cache0, computed0, progress0 := cache, computed, inProgress;
      ghost var deeper := path + [n];
      WalkSnoc(g, path, n);
      Enter(n);
      assert inProgress == Range(deeper) && deeper[|deeper| - 1] == n;
      var ids := Inputs(g, n);
      var inputs: map<nat, V> := map[];
      for i := 0 to |ids|
        invariant Valid() && inProgress == Range(deeper)
        invariant forall m :: m in inputs <==> m in ids[..i]
        invariant forall m :: m in inputs ==> HasValue(g, compute, m, inputs[m])
        invariant forall m :: m in cache0 ==> m in cache && cache[m] == cache0[m]
        invariant computed0 <= computed
        invariant forall m :: m in cache && m !in cache0 ==> Reaches(g, n, m)
      {
        ghost var before := cache;
        InputIsNode(g, n, ids[i]);
        var v := Materialize(ids[i], deeper, all);
        ReachesMore(g, n, ids[i], before, cache);
        if v.None? {
          CycleBelowInput(g, n, ids[i]);
          Leave(n);
          return None;
        }
        inputs := inputs[ids[i] := v.value];
        assert ids[..i + 1] == ids[..i] + [ids[i]];
      }
      assert ids[..|ids|] == ids;
      FeedsAll(g, n, inputs);
      var result := Finish(n, inputs);
      ReachesSelf(g, n);
      r := Some(result);
    }

    lemma CachedValue(n: nat)
      requires Valid() && n in cache
      ensures HasValue(g, compute, n, cache[n])
    {
    }

    method Enter(n: nat)
      requires Valid() && n !in cache
      modifies this`inProgress
      ensures Valid() && inProgress == old(inProgress) + {n}
    {
      inProgress := inProgress + {n};
    }

    method Leave(n: nat)
      requires Valid()
      modifies this`inProgress
      ensures Valid() && inProgress == old(inProgress) - {n}
    {
      inProgress := inProgress - {n};
    }

    method Finish(n: nat, inputs: map<nat, V>) returns (result: V)
      requires Valid() && n in inProgress && Feeds(g, n, inputs)
      requires forall m :: m in inputs ==> HasValue(g, compute, m, inputs[m])
      modifies this
      ensures Valid() && inProgress == old(inProgress) - {n} && HasValue(g, compute, n, result)
      ensures n !in old(cache) && cache == old(cache)[n := result] && computed == old(computed) + [n]
    {
      hide HasValue;
      assert n !in cache && n !in computed;
      Computed(g, compute, n, inputs);
      result := compute(n, inputs);
      cache := cache[n := result];
      computed := computed + [n];
      inProgress := inProgress - {n};
    }

    /** A request from outside: no call is under way. */
    method Request(n: nat) returns (r: Option<V>)
      requires Valid() && inProgress == {}
      modifies this
      ensures Valid() && inProgress == {}
      ensures r.None? <==> CycleBelow(g, n)
      ensures r.Some? ==> HasValue(g, compute, n, r.value)
      ensures old(computed) <= computed && Distinct(computed)
      ensures forall m :: m in cache && m !in old(cache) ==> Reaches(g, n, m)
    {
      hide HasValue, Nodes, CycleBelow, Reaches;
      r := Materialize(n, [], Nodes(g) + {n});
      if r.Some? {
        ValueMeansNoCycle(g, compute, n, r.value);
      }
    }

    method IsMaterialized(n: nat) returns (b: bool)
      ensures b == (n in cache)
    {
      b := n in cache;
    }
  }
}
