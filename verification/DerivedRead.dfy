/** Reading a derived signal: `read_derived` of `python/src/trlog/_reader.py`.  The lazy evaluation over
    the dependency graph, each node by its event-driven sweep, is at every instant what evaluating the
    whole graph of expressions at that instant would give. */
module DerivedRead {
  import opened Bits
  import opened Bytes
  import opened Derived
  import Lists
  import opened Sweep
  import opened Deps
  import opened M = Materializer

  /** A derived signal, with the expression its stored bytecode was compiled from. */
  datatype Derivation = Derivation(bitWidth: nat, inputs: seq<nat>, expr: Expr)

  /** The derived signals of a trace, and the changes its base signals read as. */
  datatype Trace = Trace(defs: map<nat, Derivation>, base: nat -> seq<Change>)

  ghost predicate WellMade(d: Derivation) {
    SlotsExist(d.expr, |d.inputs|) && OperandsFit(d.expr)
  }

  ghost predicate Valid(tr: Trace) {
    (forall n :: n in tr.defs ==> WellMade(tr.defs[n])) && forall n :: Sorted(tr.base(n))
  }

  function Stored(d: Derivation): Definition {
    Definition(d.bitWidth, d.inputs, Code(d.expr), 0)
  }

  function Catalog(tr: Trace): Graph {
    map n | n in tr.defs :: tr.defs[n].inputs
  }

  function Gather(ids: seq<nat>, results: map<nat, seq<Change>>): (ins: seq<seq<Change>>)
    ensures |ins| == |ids|
    ensures forall i :: 0 <= i < |ids| && ids[i] in results ==> ins[i] == results[ids[i]]
  {
    seq(|ids|, i requires 0 <= i < |ids| => if ids[i] in results then results[ids[i]] else [])
  }

  /** What `read_derived` computes at a node; a sweep over compiled code does not raise. */
  function ReadNode(tr: Trace, n: nat, results: map<nat, seq<Change>>): seq<Change> {
    if n in tr.defs then
      match Evaluate(Stored(tr.defs[n]), Gather(tr.defs[n].inputs, results))
      case Some(cs) => cs
      case None => []
    else tr.base(n)
  }

  function Reader(tr: Trace): Compute<seq<Change>> {
    (n, results) => ReadNode(tr, n, results)
  }

  // ---- The value of every node at one instant ----

  function OrZero(v: Option<int>): int {
    match v case Some(x) => x case None => 0
  }

  /** The value at `t`, by evaluating the expressions below the node at `t` alone: none before the
      first change of any base signal below it.  `fuel` bounds the depth. */
  ghost function ValueAt(tr: Trace, n: nat, t: nat, fuel: nat): Option<int>
    requires Valid(tr)
    decreases fuel, 0
  {
    if fuel == 0 then None
    else if n !in tr.defs then Last(tr.base(n), t)
    else Combine(tr.defs[n], InputsAt(tr, tr.defs[n].inputs, t, fuel - 1))
  }

  ghost function InputsAt(tr: Trace, ids: seq<nat>, t: nat, fuel: nat): (vs: seq<Option<int>>)
    requires Valid(tr)
    ensures |vs| == |ids|
    decreases fuel, |ids|
  {
    if ids == [] then [] else [ValueAt(tr, ids[0], t, fuel)] + InputsAt(tr, ids[1..], t, fuel)
  }

  ghost function Combine(d: Derivation, vs: seq<Option<int>>): Option<int>
    requires WellMade(d) && |vs| == |d.inputs|
  {
    if forall i :: 0 <= i < |vs| ==> vs[i].None? then None
    else Some(Value(d.expr, seq(|vs|, i requires 0 <= i < |vs| => OrZero(vs[i])))
              % Pow2(if d.bitWidth > 0 then d.bitWidth else 64))
  }

  lemma {:induction false} InputsAtIndex(tr: Trace, ids: seq<nat>, t: nat, fuel: nat, i: nat)
    requires Valid(tr) && i < |ids|
    ensures InputsAt(tr, ids, t, fuel)[i] == ValueAt(tr, ids[i], t, fuel)
  {
    hide ValueAt, Valid;
    if i > 0 {
      InputsAtIndex(tr, ids[1..], t, fuel, i - 1);
    }
  }

  // ---- The sweep of one node ----

  /** Sweeping compiled code over any inputs succeeds. */
  lemma {:induction false} StepsSucceed(d: Derivation, ins: seq<seq<Change>>, times: seq<nat>, last: Option<int>)
    requires WellMade(d) && |ins| == |d.inputs|
    ensures Steps(Stored(d), ins, times, last).Some?
    decreases |times|
  {
    hide Eval, Code, SlotsExist, OperandsFit;
    if times != [] {
      EvalCorrect(d.expr, Sample(ins, times[0]), d.bitWidth);
      StepsSucceed(d, ins, times[1..], Eval(Code(d.expr), Sample(ins, times[0]), d.bitWidth));
    }
  }

  lemma {:induction false} LastStarted(cs: seq<Change>, t: nat)
    ensures Last(cs, t).Some? <==> exists k :: 0 <= k < |cs| && cs[k].time <= t
  {
    if cs != [] {
      var init := cs[..|cs| - 1];
      LastStarted(init, t);
      assert forall k :: 0 <= k < |init| ==> init[k] == cs[k];
    }
  }

  lemma StartedInputs(ins: seq<seq<Change>>, t: nat)
    ensures Started(ins, t) <==> exists i :: 0 <= i < |ins| && Last(ins[i], t).Some?
  {
    hide Last;
    forall i | 0 <= i < |ins|
      ensures Last(ins[i], t).Some? <==> exists k :: 0 <= k < |ins[i]| && ins[i][k].time <= t
    {
      LastStarted(ins[i], t);
    }
  }

  /** Whenever the inputs' lists hold the inputs' values at `t`, the swept list holds the node's. */
  lemma SweepCombines(d: Derivation, ins: seq<seq<Change>>, t: nat, vs: seq<Option<int>>)
    requires WellMade(d) && |ins| == |d.inputs| == |vs|
    requires forall i :: 0 <= i < |vs| ==> vs[i] == Last(ins[i], t)
    ensures Evaluate(Stored(d), ins).Some? && Sorted(Evaluate(Stored(d), ins).value)
    ensures Last(Evaluate(Stored(d), ins).value, t) == Combine(d, vs)
  {
    hide Last, Eval, Code, SlotsExist, OperandsFit, Started, Times;
    StepsSucceed(d, ins, Lists.Ascending(Times(ins)), None);
    SweepIsSampling(Stored(d), ins, t);
    LeanIsSorted(Evaluate(Stored(d), ins).value, None);
    StartedInputs(ins, t);
    EvalCorrect(d.expr, Sample(ins, t), d.bitWidth);
    assert Sample(ins, t) == seq(|vs|, i requires 0 <= i < |vs| => OrZero(vs[i]));
  }

  // ---- The whole graph ----

  /** The list a node reads as holds, at every instant, the value its expressions have there. */
  lemma {:induction false} ReadsPointwise(tr: Trace, n: nat, cs: seq<Change>, fuel: nat, k: nat, t: nat)
    requires Valid(tr) && ValueIn(Catalog(tr), Reader(tr), n, cs, fuel) && fuel <= k
    ensures Sorted(cs) && Last(cs, t) == ValueAt(tr, n, t, k)
    decreases fuel
  {
    hide ValueIn, Last, Sorted, WellMade, Evaluate, Combine;
    var results := InputsOf(Catalog(tr), Reader(tr), n, cs, fuel);
    if n in tr.defs {
      var d := tr.defs[n];
      var ins, vs := Gather(d.inputs, results), InputsAt(tr, d.inputs, t, k - 1);
      forall i | 0 <= i < |ins|
        ensures vs[i] == Last(ins[i], t)
      {
        assert d.inputs[i] in results;
        ReadsPointwise(tr, d.inputs[i], results[d.inputs[i]], fuel - 1, k - 1, t);
        InputsAtIndex(tr, d.inputs, t, k - 1, i);
      }
      SweepCombines(d, ins, t, vs);
    }
  }

  ghost predicate Pointwise(tr: Trace, n: nat, cs: seq<Change>)
    requires Valid(tr)
  {
    exists depth: nat :: PointwiseFrom(tr, n, cs, depth)
  }

  ghost predicate PointwiseFrom(tr: Trace, n: nat, cs: seq<Change>, depth: nat)
    requires Valid(tr)
  {
    forall t: nat, k: nat :: depth <= k ==> Last(cs, t) == ValueAt(tr, n, t, k)
  }

  /** Every node that has a recursive value reads as a sorted list with the right value everywhere. */
  lemma EveryNodePointwise(tr: Trace, n: nat, cs: seq<Change>)
    requires Valid(tr) && HasValue(Catalog(tr), Reader(tr), n, cs)
    ensures Sorted(cs) && Pointwise(tr, n, cs)
  {
    hide ValueIn, Last, Sorted, Valid, ValueAt;
    var depth: nat :| ValueIn(Catalog(tr), Reader(tr), n, cs, depth);
    forall t: nat, k: nat | depth <= k
      ensures Last(cs, t) == ValueAt(tr, n, t, k)
    {
      ReadsPointwise(tr, n, cs, depth, k, t);
    }
    assert PointwiseFrom(tr, n, cs, depth);
    ReadsPointwise(tr, n, cs, depth, depth, 0);
  }

  datatype Reading = Changes(list: seq<Change>) | NoSuchSignal | CycleHit

  method ReadDerived(tr: Trace, n: nat) returns (r: Reading)
    requires Valid(tr)
    ensures r.NoSuchSignal? <==> n !in tr.defs
    ensures r.CycleHit? <==> n in tr.defs && CycleBelow(Catalog(tr), n)
    ensures r.Changes? ==> Sorted(r.list) && Pointwise(tr, n, r.list)
  {
    hide Valid, Pointwise, Sorted, CycleBelow, HasValue;
    if n !in tr.defs {
      return NoSuchSignal;
    }
    var materializer := new M.Materializer(Catalog(tr), Reader(tr));
    var cs := materializer.Request(n);
    if cs.None? {
      return CycleHit;
    }
    EveryNodePointwise(tr, n, cs.value);
    r := Changes(cs.value);
  }
}
