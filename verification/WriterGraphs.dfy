/** The dependency graphs a writer keeps: `declare_dependencies` and `add_derived_signal` of
    `python/src/trlog/_writer.py`, over the stream declarations of
    `python/src/trlog/_type_registry.py`. */
module WriterGraphs {
  import opened Bytes
  import opened Deps

  const DERIVED_VAR_BASE: nat := 0x40000000

  // ---- Reference: what a writer's calls do to the graphs ----

  /** Declared streams with their inputs, and defined derived signals with theirs. */
  datatype State = State(streams: map<nat, seq<nat>>, nextStream: nat, derived: Graph, nextDerived: nat)

  datatype Op =
    | AddStream
    | DeclareDependencies(stream: nat, inputs: seq<nat>)
    | AddDerived(inputs: seq<nat>)

  const START: State := State(map[], 1, map[], 0)

  /** `dependency_catalog`: the streams that have inputs. */
  function StreamCatalog(streams: map<nat, seq<nat>>): Graph {
    map s | s in streams && streams[s] != [] :: streams[s]
  }

  /** A call that raises leaves both graphs as they were; a rejected derived signal still uses up its id. */
  ghost function Step(s: State, op: Op): State {
    match op
    case AddStream => s.(streams := s.streams[s.nextStream := []], nextStream := s.nextStream + 1)
    case DeclareDependencies(id, inputs) =>
      if Acyclic(StreamCatalog(s.streams)[id := inputs]) && id in s.streams
      then s.(streams := s.streams[id := inputs])
      else s
    case AddDerived(inputs) =>
      var id := DERIVED_VAR_BASE + s.nextDerived;
      s.(nextDerived := s.nextDerived + 1,
         derived := if Acyclic(s.derived[id := inputs]) then s.derived[id := inputs] else s.derived)
  }

  ghost function Run(s: State, ops: seq<Op>): State
    decreases |ops|
  {
    if ops == [] then s else Run(Step(s, ops[0]), ops[1..])
  }

  ghost predicate Sound(s: State) {
    && Acyclic(StreamCatalog(s.streams)) && Acyclic(s.derived)
    && (forall id :: id in s.streams ==> id < s.nextStream)
    && (forall id :: id in s.derived ==> DERIVED_VAR_BASE <= id < DERIVED_VAR_BASE + s.nextDerived)
  }

  // ---- Acyclicity over runs ----

  /** A graph with no more edges has no more cycles. */
  lemma FewerEdges(small: Graph, big: Graph)
    requires Acyclic(big) && forall a, b :: Edge(small, a, b) ==> Edge(big, a, b)
    ensures Acyclic(small)
  {
    forall p | Cycle(small, p)
      ensures false
    {
      forall i | 0 <= i < |p| - 1
        ensures Edge(big, p[i], p[i + 1])
      {
        assert Edge(small, p[i], p[i + 1]);
      }
      assert Cycle(big, p);
    }
  }

  lemma {:induction false} StepKeepsSound(s: State, op: Op)
    requires Sound(s)
    ensures Sound(Step(s, op))
  {
    hide Acyclic;
    match op
    case AddStream =>
      FewerEdges(StreamCatalog(Step(s, op).streams), StreamCatalog(s.streams));
    case DeclareDependencies(id, inputs) =>
      if Acyclic(StreamCatalog(s.streams)[id := inputs]) && id in s.streams {
        FewerEdges(StreamCatalog(Step(s, op).streams), StreamCatalog(s.streams)[id := inputs]);
      }
    case AddDerived(inputs) =>
  }

  lemma StartIsSound()
    ensures Sound(START)
  {
    OrderedIsAcyclic(map[], []);
    assert StreamCatalog(START.streams) == map[];
  }

  /** After any calls, accepted or rejected, neither graph has a cycle. */
  lemma {:induction false} RunKeepsSound(s: State, ops: seq<Op>)
    requires Sound(s)
    ensures Sound(Run(s, ops))
    decreases |ops|
  {
    hide Step, Sound;
    if ops != [] {
      StepKeepsSound(s, ops[0]);
      RunKeepsSound(Step(s, ops[0]), ops[1..]);
    }
  }

  lemma AlwaysAcyclic(ops: seq<Op>)
    ensures Acyclic(StreamCatalog(Run(START, ops).streams)) && Acyclic(Run(START, ops).derived)
  {
    hide Run, Acyclic;
    StartIsSound();
    RunKeepsSound(START, ops);
  }

  /** Ids used up without a definition stay undefined. */
  lemma {:induction false} UsedUpStaysOut(s: State, ops: seq<Op>, id: nat)
    requires id !in s.derived && id < DERIVED_VAR_BASE + s.nextDerived
    ensures id !in Run(s, ops).derived
    decreases |ops|
  {
    hide Acyclic;
    if ops != [] {
      UsedUpStaysOut(Step(s, ops[0]), ops[1..], id);
    }
  }

  /** A defined signal may refer forward to an id that is not yet defined.  If the definition of that
      id would lead back to itself through such a reference, it is rejected, and the id is never
      defined afterwards. */
  lemma ForwardReferenceNeverCloses(s: State, inputs: seq<nat>, back: seq<nat>, later: seq<Op>)
    requires Sound(s)
    requires var id := DERIVED_VAR_BASE + s.nextDerived;
             Walk(s.derived, back) && back[0] in inputs && back[|back| - 1] == id
    ensures var after := Step(s, AddDerived(inputs));
            after.derived == s.derived &&
            DERIVED_VAR_BASE + s.nextDerived !in Run(after, later).derived
  {
    var id := DERIVED_VAR_BASE + s.nextDerived;
    var candidate := s.derived[id := inputs];
    assert id !in s.derived;
    forall i | 0 <= i < |back| - 1
      ensures Edge(candidate, back[i], back[i + 1])
    {
      assert Edge(s.derived, back[i], back[i + 1]);
      assert back[i] in s.derived;
    }
    var cycle := [id] + back;
    forall i | 0 <= i < |cycle| - 1
      ensures Edge(candidate, cycle[i], cycle[i + 1])
    {
      if i > 0 {
        assert Edge(candidate, back[i - 1], back[i]);
      }
    }
    assert Cycle(candidate, cycle);
    UsedUpStaysOut(Step(s, AddDerived(inputs)), later, id);
  }

  // ---- The writer ----

  datatype Outcome = Accepted(id: nat) | CycleRejected(cycle: seq<nat>) | Undeclared

  class Writer {
    var streams: map<nat, seq<nat>>
    var nextStream: nat
    var derivedInputs: Graph
    var nextDerived: nat

    constructor ()
      ensures Now() == START
    {
      streams, nextStream, derivedInputs, nextDerived := map[], 1, map[], 0;
    }

    function Now(): State
      reads this
    {
      State(streams, nextStream, derivedInputs, nextDerived)
    }

    method AddStreamType() returns (id: nat)
      modifies this
      ensures Now() == Step(old(Now()), AddStream) && id == old(nextStream)
    {
      id := nextStream;
      nextStream := nextStream + 1;
      streams := streams[id := []];
    }

    /** Raises on a cycle before it looks the stream up. */
    method DeclareDependencies(id: nat, inputs: seq<nat>) returns (r: Outcome)
      modifies this
      ensures Now() == Step(old(Now()), Op.DeclareDependencies(id, inputs))
      ensures r.CycleRejected? <==> !Acyclic(StreamCatalog(old(streams))[id := inputs])
      ensures r.CycleRejected? ==> Cycle(StreamCatalog(old(streams))[id := inputs], r.cycle)
      ensures r.Undeclared? ==> id !in old(streams)
      ensures r.Accepted? ==> id in old(streams) && r.id == id
    {
      hide Acyclic, Cycle;
      var cycle := FindCycle(StreamCatalog(streams)[id := inputs]);
      if cycle.Some? {
        return CycleRejected(cycle.value);
      }
      if id !in streams {
        return Undeclared;
      }
      streams := streams[id := inputs];
      r := Accepted(id);
    }

    method AddDerivedSignal(inputs: seq<nat>) returns (r: Outcome)
      modifies this
      ensures Now() == Step(old(Now()), AddDerived(inputs))
      ensures var id := DERIVED_VAR_BASE + old(nextDerived);
              match r
              case Accepted(got) => got == id && Acyclic(old(derivedInputs)[id := inputs])
              case CycleRejected(cycle) => Cycle(old(derivedInputs)[id := inputs], cycle)
              case Undeclared => false
    {
      hide Acyclic, Cycle;
      var id := DERIVED_VAR_BASE + nextDerived;
      nextDerived := nextDerived + 1;
      var candidate := derivedInputs[id := inputs];
      var cycle := FindCycle(candidate);
      if cycle.Some? {
        return CycleRejected(cycle.value);
      }
      derivedInputs := candidate;
      r := Accepted(id);
    }
  }
}
