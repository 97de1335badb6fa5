/** What a value-change block holds after its builder's calls, told by the calls. */
module VcBuild {
  import opened Bytes
  import opened VcValues
  import opened VcWave
  import opened VcBlock
  import opened VcDataBlocks

  datatype Call = SetInitial(id: nat, value: Value) | AddChange(id: nat, time: nat, value: Value)

  /** The builder's calls one after another, on a block that has just begun. */
  function Built(start: nat, calls: seq<Call>): Block {
    if calls == [] then Block(start, start, map[], map[])
    else
      var b := Built(start, calls[..|calls| - 1]);
      match calls[|calls| - 1]
      case SetInitial(id, value) => b.(init := b.init[id := value])
      case AddChange(id, time, value) => Added(b, id, time, value)
  }

  /** A variable's changes in the order of the calls. */
  function Recorded(calls: seq<Call>, id: nat): seq<Change> {
    if calls == [] then []
    else
      var c := calls[|calls| - 1];
      Recorded(calls[..|calls| - 1], id) + if c.AddChange? && c.id == id then [Change(c.time, c.value)] else []
  }

  /** The latest initial value that was set. */
  function LatestSet(calls: seq<Call>, id: nat): Option<Value> {
    if calls == [] then None
    else
      var c := calls[|calls| - 1];
      if c.SetInitial? && c.id == id then Some(c.value) else LatestSet(calls[..|calls| - 1], id)
  }

  /** Its initial value: the latest that was set, or else the value of its first change. */
  function StartsWith(calls: seq<Call>, id: nat): Option<Value> {
    if LatestSet(calls, id).Some? then LatestSet(calls, id)
    else if Recorded(calls, id) != [] then Some(Recorded(calls, id)[0].value)
    else None
  }

  /** A block covers the time from its start to the latest change, or just its start. */
  ghost predicate EndsAt(start: nat, calls: seq<Call>, end: nat) {
    && end >= start && (forall c :: c in calls && c.AddChange? ==> c.time <= end)
    && (end == start || exists c :: c in calls && c.AddChange? && c.time == end)
  }

  lemma {:induction false} BuiltFromCalls(start: nat, calls: seq<Call>, id: nat)
    ensures var b := Built(start, calls);
            && b.start == start && EndsAt(start, calls, b.end) && ChangesOf(b, id) == Recorded(calls, id)
            && (id in b.init <==> StartsWith(calls, id).Some?) && (id in b.init ==> b.init[id] == StartsWith(calls, id).value)
  {
    hide EndsAt;
    BuiltEnd(start, calls);
    BuiltChanges(start, calls, id);
    BuiltInit(start, calls, id);
  }

  lemma {:induction false} BuiltEnd(start: nat, calls: seq<Call>)
    ensures Built(start, calls).start == start && EndsAt(start, calls, Built(start, calls).end)
    decreases |calls|
  {
    if calls != [] {
      var before, c := calls[..|calls| - 1], calls[|calls| - 1];
      BuiltEnd(start, before);
      assert calls == before + [c];
      assert forall x :: x in calls <==> x in before || x == c;
    }
  }

  lemma {:induction false} BuiltChanges(start: nat, calls: seq<Call>, id: nat)
    ensures ChangesOf(Built(start, calls), id) == Recorded(calls, id)
    decreases |calls|
  {
    if calls != [] {
      var before := calls[..|calls| - 1];
      BuiltChanges(start, before, id);
      assert Recorded(before, id) + [] == Recorded(before, id);
    }
  }

  lemma {:induction false} BuiltInit(start: nat, calls: seq<Call>, id: nat)
    ensures var b := Built(start, calls);
            (id in b.init <==> StartsWith(calls, id).Some?) && (id in b.init ==> b.init[id] == StartsWith(calls, id).value)
    decreases |calls|
  {
    if calls != [] {
      var before, c := calls[..|calls| - 1], calls[|calls| - 1];
      BuiltInit(start, before, id);
      hide Built;
      var was, b := Built(start, before), Built(start, calls);
      assert b.init == (if c.SetInitial? then was.init[c.id := c.value]
                        else if c.id in was.init then was.init else was.init[c.id := c.value]) by {
        OneCall(start, calls);
      }
    }
  }

  lemma OneCall(start: nat, calls: seq<Call>)
    requires calls != []
    ensures var was, c := Built(start, calls[..|calls| - 1]), calls[|calls| - 1];
            Built(start, calls).init == (if c.SetInitial? then was.init[c.id := c.value]
                                         else if c.id in was.init then was.init else was.init[c.id := c.value])
  {
  }
}
