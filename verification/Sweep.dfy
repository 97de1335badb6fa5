/** Evaluating a derived signal over time: `evaluate_changes` of `python/src/trlog/_derived.py`.  An
    event-driven sweep with a cursor per input computes what sampling every input at every instant
    would. */
module Sweep {
  import opened Bytes
  import opened Lists
  import opened Derived

  datatype Change = Change(time: nat, value: int)

  ghost predicate Sorted(cs: seq<Change>) {
    forall i, j :: 0 <= i < j < |cs| ==> cs[i].time <= cs[j].time
  }

  ghost predicate AllSorted(inputs: seq<seq<Change>>) {
    forall i :: 0 <= i < |inputs| ==> Sorted(inputs[i])
  }

  // ---- Sampling ----

  /** The last change at or before `t`. */
  function Last(cs: seq<Change>, t: nat): Option<int> {
    if cs == [] then None
    else if cs[|cs| - 1].time <= t then Some(cs[|cs| - 1].value)
    else Last(cs[..|cs| - 1], t)
  }

  /** A signal's value at an instant: 0 before its first change. */
  function At(cs: seq<Change>, t: nat): int {
    match Last(cs, t) case Some(v) => v case None => 0
  }

  function Sample(inputs: seq<seq<Change>>, t: nat): (vs: seq<int>)
    ensures |vs| == |inputs|
    ensures forall i :: 0 <= i < |inputs| ==> vs[i] == At(inputs[i], t)
  {
    seq(|inputs|, i requires 0 <= i < |inputs| => At(inputs[i], t))
  }

  /** Some input has changed by `t`. */
  ghost predicate Started(inputs: seq<seq<Change>>, t: nat) {
    exists i, k :: 0 <= i < |inputs| && 0 <= k < |inputs[i]| && inputs[i][k].time <= t
  }

  // ---- The sweep, by instants ----

  function TimesOf(cs: seq<Change>): set<nat> {
    set k | 0 <= k < |cs| :: cs[k].time
  }

  function Times(inputs: seq<seq<Change>>): set<nat> {
    set i, k | 0 <= i < |inputs| && 0 <= k < |inputs[i]| :: inputs[i][k].time
  }

  /** Values at the given instants, dropping repeats; raises if an evaluation does. */
  function Steps(d: Definition, inputs: seq<seq<Change>>, times: seq<nat>, last: Option<int>): Option<seq<Change>> {
    if times == [] then Some([])
    else match Eval(d.code, Sample(inputs, times[0]), d.bitWidth)
      case None => None
      case Some(v) =>
        match Steps(d, inputs, times[1..], Some(v))
        case None => None
        case Some(more) => Some(if last == Some(v) then more else [Change(times[0], v)] + more)
  }

  /** `evaluate_changes`. */
  function Evaluate(d: Definition, inputs: seq<seq<Change>>): Option<seq<Change>> {
    Steps(d, inputs, Ascending(Times(inputs)), None)
  }

  // ---- Sweep equals sampling ----

  /** Between two change times nothing changes. */
  lemma {:induction false} LastSteady(cs: seq<Change>, t: nat, u: nat)
    requires t <= u && forall k :: 0 <= k < |cs| ==> !(t < cs[k].time <= u)
    ensures Last(cs, u) == Last(cs, t)
  {
    if cs != [] {
      LastSteady(cs[..|cs| - 1], t, u);
    }
  }

  lemma SampleSteady(inputs: seq<seq<Change>>, t: nat, u: nat)
    requires t <= u && forall x :: x in Times(inputs) ==> !(t < x <= u)
    ensures Sample(inputs, u) == Sample(inputs, t)
  {
    forall i | 0 <= i < |inputs|
      ensures At(inputs[i], u) == At(inputs[i], t)
    {
      forall k | 0 <= k < |inputs[i]|
        ensures !(t < inputs[i][k].time <= u)
      {
        assert inputs[i][k].time in Times(inputs);
      }
      LastSteady(inputs[i], t, u);
    }
  }

  /** Strictly increasing times, and no value twice in a row. */
  ghost predicate Lean(cs: seq<Change>, last: Option<int>) {
    (forall i, j :: 0 <= i < j < |cs| ==> cs[i].time < cs[j].time) &&
    (cs != [] ==> last != Some(cs[0].value)) &&
    (forall i :: 0 <= i < |cs| - 1 ==> cs[i].value != cs[i + 1].value)
  }

  lemma {:induction false} LastAppend(a: seq<Change>, b: seq<Change>, t: nat)
    ensures Last(a + b, t) == if Last(b, t).Some? then Last(b, t) else Last(a, t)
  {
    if b == [] {
      assert a + b == a;
    } else {
      assert (a + b)[..|a + b| - 1] == a + b[..|b| - 1];
      LastAppend(a, b[..|b| - 1], t);
    }
  }

  lemma {:induction false} NoneBefore(cs: seq<Change>, t: nat)
    requires forall k :: 0 <= k < |cs| ==> cs[k].time > t
    ensures Last(cs, t) == None
  {
    if cs != [] {
      NoneBefore(cs[..|cs| - 1], t);
    }
  }

  /** The steps over rising times are lean, and at each instant from the first on the last step holds
      the value computed at the latest of the times. */
  lemma {:induction false} StepsLean(d: Definition, inputs: seq<seq<Change>>, times: seq<nat>, last: Option<int>)
    requires Rising(times) && Steps(d, inputs, times, last).Some?
    ensures var cs := Steps(d, inputs, times, last).value;
            Lean(cs, last) && forall c :: c in cs ==> c.time in times
  {
    hide Eval, Sample, Lean;
    if times == [] {
      NothingLean(last);
    } else {
      var v := Eval(d.code, Sample(inputs, times[0]), d.bitWidth).value;
      StepsLean(d, inputs, times[1..], Some(v));
      var more := Steps(d, inputs, times[1..], Some(v)).value;
      forall k | 0 <= k < |more|
        ensures more[k].time > times[0]
      {
        assert more[k] in more && more[k].time in times[1..];
      }
      LeanFirst(Change(times[0], v), more, last);
      assert Steps(d, inputs, times, last).value == if last == Some(v) then more else [Change(times[0], v)] + more;
    }
  }

  lemma NothingLean(last: Option<int>)
    ensures Lean([], last)
  {
  }

  /** A step in front, if it changes something. */
  lemma LeanFirst(c: Change, more: seq<Change>, last: Option<int>)
    requires Lean(more, Some(c.value)) && forall k :: 0 <= k < |more| ==> more[k].time > c.time
    ensures if last == Some(c.value) then Lean(more, last) else Lean([c] + more, last)
  {
  }

  lemma {:induction false} StepsSample(d: Definition, inputs: seq<seq<Change>>, times: seq<nat>, last: Option<int>, t: nat)
    requires Rising(times) && Steps(d, inputs, times, last).Some?
    requires forall x :: x in Times(inputs) && times != [] && x > times[0] ==> x in times
    ensures var cs := Steps(d, inputs, times, last).value;
            times != [] && times[0] <= t ==>
              (match Last(cs, t) case Some(v) => Some(v) case None => last)
              == Eval(d.code, Sample(inputs, t), d.bitWidth)
    decreases |times|
  {
    hide Eval, Sample, Times, Lean, Last;
    if times != [] && times[0] <= t {
      var v := Eval(d.code, Sample(inputs, times[0]), d.bitWidth).value;
      var later := times[1..];
      var more := Steps(d, inputs, later, Some(v)).value;
      assert times == [times[0]] + later;
      StepsLean(d, inputs, later, Some(v));
      var head := if last == Some(v) then [] else [Change(times[0], v)];
      assert Steps(d, inputs, times, last).value == head + more;
      LastAppend(head, more, t);
      HeadLast(head, times[0], v, t);
      if later != [] && later[0] <= t {
        StepsSample(d, inputs, later, Some(v), t);
      } else {
        NothingLater(inputs, times, more, t);
      }
    }
  }

  lemma NothingLater(inputs: seq<seq<Change>>, times: seq<nat>, more: seq<Change>, t: nat)
    requires Rising(times) && times != [] && times[0] <= t && (|times| > 1 ==> times[1] > t)
    requires forall c :: c in more ==> c.time in times[1..]
    requires forall x :: x in Times(inputs) && x > times[0] ==> x in times
    ensures Last(more, t) == None && Sample(inputs, t) == Sample(inputs, times[0])
  {
    hide Times, Sample;
    forall x | x in times[1..]
      ensures x > t
    {
      FirstIsLeast(times[1..], x);
    }
    forall k | 0 <= k < |more|
      ensures more[k].time > t
    {
      assert more[k] in more;
    }
    NoneBefore(more, t);
    assert forall x :: x in times ==> x == times[0] || x in times[1..];
    SampleSteady(inputs, times[0], t);
  }

  lemma FirstIsLeast(times: seq<nat>, x: nat)
    requires Rising(times) && x in times
    ensures times[0] <= x
  {
  }

  lemma HeadLast(head: seq<Change>, time: nat, v: int, t: nat)
    requires time <= t && (head == [] || head == [Change(time, v)])
    ensures Last(head, t) == if head == [] then None else Some(v)
  {
  }

  /** At every instant from the first input change on, the last derived change holds the bytecode's
      value on the inputs sampled at that instant; before it there is none.  Output times strictly
      increase and neighbouring values differ. */
  lemma SweepIsSampling(d: Definition, inputs: seq<seq<Change>>, t: nat)
    requires Evaluate(d, inputs).Some?
    ensures Last(Evaluate(d, inputs).value, t) ==
            if Started(inputs, t) then Eval(d.code, Sample(inputs, t), d.bitWidth) else None
    ensures Lean(Evaluate(d, inputs).value, None)
  {
    hide Eval, Sample, Steps;
    var times := Ascending(Times(inputs));
    StepsLean(d, inputs, times, None);
    var cs := Evaluate(d, inputs).value;
    if Started(inputs, t) {
      var i, k :| 0 <= i < |inputs| && 0 <= k < |inputs[i]| && inputs[i][k].time <= t;
      assert inputs[i][k].time in times;
      FirstIsLeast(times, inputs[i][k].time);
      StepsSample(d, inputs, times, None, t);
    } else {
      forall k | 0 <= k < |cs|
        ensures cs[k].time > t
      {
        assert cs[k] in cs && cs[k].time in Times(inputs);
      }
      NoneBefore(cs, t);
    }
  }

  lemma LeanIsSorted(cs: seq<Change>, last: Option<int>)
    requires Lean(cs, last)
    ensures Sorted(cs)
  {
  }

  // ---- The cursors ----

  /** A cursor at `c` has passed exactly the changes up to `t`. */
  ghost predicate Passed(cs: seq<Change>, c: nat, t: nat) {
    c <= |cs| && (forall k :: 0 <= k < c ==> cs[k].time <= t) && (c < |cs| ==> cs[c].time > t)
  }

  lemma {:induction false} PassedValue(cs: seq<Change>, c: nat, t: nat)
    requires Sorted(cs) && Passed(cs, c, t)
    ensures At(cs, t) == if c == 0 then 0 else cs[c - 1].value
    decreases |cs|
  {
    if cs != [] && cs[|cs| - 1].time > t {
      var init := cs[..|cs| - 1];
      assert c < |cs| && Sorted(init) && Passed(init, c, t);
      PassedValue(init, c, t);
    }
  }

  /** One input's cursor moves up to `t`, and its current value with it. */
  method MoveCursor(cs: seq<Change>, from: nat, value: int, t: nat) returns (c: nat, v: int)
    requires Sorted(cs) && from <= |cs| && (forall k :: 0 <= k < from ==> cs[k].time <= t)
    requires value == if from == 0 then 0 else cs[from - 1].value
    ensures Passed(cs, c, t) && v == (if c == 0 then 0 else cs[c - 1].value) && v == At(cs, t)
  {
    c, v := from, value;
    while c < |cs| && cs[c].time <= t
      invariant c <= |cs| && forall k :: 0 <= k < c ==> cs[k].time <= t
      invariant v == if c == 0 then 0 else cs[c - 1].value
    {
      v := cs[c].value;
      c := c + 1;
    }
    PassedValue(cs, c, t);
  }

  /** All cursors stand within what `t` allows, each with its current value. */
  ghost predicate Cursors(inputs: seq<seq<Change>>, cursors: seq<nat>, vals: seq<int>, t: nat) {
    |cursors| == |inputs| == |vals| &&
    forall i :: 0 <= i < |inputs| ==> CursorOk(inputs[i], cursors[i], vals[i], t)
  }

  ghost predicate CursorOk(cs: seq<Change>, c: nat, v: int, t: nat) {
    c <= |cs| && (forall k :: 0 <= k < c ==> cs[k].time <= t) && v == if c == 0 then 0 else cs[c - 1].value
  }

  method MoveCursors(inputs: seq<seq<Change>>, cursors: seq<nat>, vals: seq<int>, t: nat)
    returns (cursors': seq<nat>, vals': seq<int>)
    requires AllSorted(inputs) && Cursors(inputs, cursors, vals, t)
    ensures Cursors(inputs, cursors', vals', t) && vals' == Sample(inputs, t)
  {
    hide Sorted, At;
    cursors', vals' := cursors, vals;
    for i := 0 to |inputs|
      invariant Cursors(inputs, cursors', vals', t)
      invariant forall k :: 0 <= k < i ==> vals'[k] == At(inputs[k], t)
    {
      var c, v := MoveCursor(inputs[i], cursors'[i], vals'[i], t);
      cursors', vals' := cursors'[i := c], vals'[i := v];
    }
  }

  lemma CursorsLater(inputs: seq<seq<Change>>, cursors: seq<nat>, vals: seq<int>, t: nat, u: nat)
    requires Cursors(inputs, cursors, vals, t) && t <= u
    ensures Cursors(inputs, cursors, vals, u)
  {
    forall i | 0 <= i < |inputs|
      ensures CursorOk(inputs[i], cursors[i], vals[i], u)
    {
      assert CursorOk(inputs[i], cursors[i], vals[i], t);
    }
  }

  /** The union of all change times, gathered input by input. */
  method AllTimes(inputs: seq<seq<Change>>) returns (times: seq<nat>)
    ensures times == Ascending(Times(inputs))
  {
    var all: set<nat> := {};
    for i := 0 to |inputs|
      invariant all == Times(inputs[..i])
    {
      var here := set k | 0 <= k < |inputs[i]| :: inputs[i][k].time;
      TimesSnoc(inputs[..i], inputs[i]);
      assert inputs[..i + 1] == inputs[..i] + [inputs[i]];
      all := all + here;
    }
    assert inputs[..|inputs|] == inputs;
    times := Ascending(all);
  }

  lemma TimesSnoc(inputs: seq<seq<Change>>, cs: seq<Change>)
    ensures Times(inputs + [cs]) == Times(inputs) + TimesOf(cs)
  {
    var all := inputs + [cs];
    forall x | x in Times(inputs)
      ensures x in Times(all)
    {
      var i, k :| 0 <= i < |inputs| && 0 <= k < |inputs[i]| && inputs[i][k].time == x;
      assert all[i][k].time == x;
    }
    forall x | x in TimesOf(cs)
      ensures x in Times(all)
    {
      var k :| 0 <= k < |cs| && cs[k].time == x;
      assert all[|inputs|][k].time == x;
    }
  }

  method EvaluateChanges(d: Definition, inputs: seq<seq<Change>>) returns (r: Option<seq<Change>>)
    requires AllSorted(inputs)
    ensures r == Evaluate(d, inputs)
  {
    hide Eval, Sample, Cursors, AllSorted, Times, Rising, Behind, Steps;
    var times := AllTimes(inputs);
    var cursors: seq<nat> := seq(|inputs|, _ => 0);
    var vals: seq<int> := seq(|inputs|, _ => 0);
    var out: seq<Change>, last: Option<int> := [], None;
    ghost var whole := Steps(d, inputs, times, None);
    ghost var bound: nat := 0;
    assert times[0..] == times;
    BehindNone(whole);
    CursorsStart(inputs, cursors, vals);
    for i := 0 to |times|
      invariant Cursors(inputs, cursors, vals, bound) && (i < |times| ==> bound <= times[i])
      invariant whole == Behind(out, Steps(d, inputs, times[i..], last))
    {
      assert times[i..][0] == times[i] && times[i..][1..] == times[i + 1..];
      CursorsLater(inputs, cursors, vals, bound, times[i]);
      bound := times[i];
      Turn(d, inputs, times[i..], out, last);
      cursors, vals := MoveCursors(inputs, cursors, vals, times[i]);
      var v := EvalBytecode(d.code, vals, d.bitWidth);
      if v.None? {
        return None;
      }
      if last != v {
        out := out + [Change(times[i], v.value)];
        last := v;
      }
      NextRises(times, i);
    }
    BehindNone(Some(out));
    StepsNone(d, inputs, last);
    assert times[|times|..] == [];
    r := Some(out);
  }

  lemma StepsNone(d: Definition, inputs: seq<seq<Change>>, last: Option<int>)
    ensures Steps(d, inputs, [], last) == Some([])
  {
  }

  /** One turn: the value at the first time comes out if it is new. */
  lemma Turn(d: Definition, inputs: seq<seq<Change>>, times: seq<nat>, out: seq<Change>, last: Option<int>)
    requires times != []
    ensures Behind(out, Steps(d, inputs, times, last)) ==
            match Eval(d.code, Sample(inputs, times[0]), d.bitWidth)
            case None => None
            case Some(v) =>
              Behind(if last == Some(v) then out else out + [Change(times[0], v)], Steps(d, inputs, times[1..], Some(v)))
  {
    hide Eval, Sample;
    match Eval(d.code, Sample(inputs, times[0]), d.bitWidth)
    case None =>
    case Some(v) => BehindOne(out, Change(times[0], v), Steps(d, inputs, times[1..], Some(v)));
  }

  /** Changes already put out, in front of the outcome for the rest. */
  ghost function Behind(out: seq<Change>, r: Option<seq<Change>>): Option<seq<Change>> {
    match r case None => None case Some(more) => Some(out + more)
  }

  lemma BehindNone(r: Option<seq<Change>>)
    ensures Behind([], r) == r && (r.Some? ==> Behind(r.value, Some([])) == r)
    ensures forall out :: Behind(out, None) == None
  {
    if r.Some? {
      assert [] + r.value == r.value && r.value + [] == r.value;
    }
  }

  lemma BehindOne(out: seq<Change>, c: Change, r: Option<seq<Change>>)
    ensures Behind(out + [c], r) == Behind(out, match r case None => None case Some(more) => Some([c] + more))
  {
    if r.Some? {
      assert out + ([c] + r.value) == (out + [c]) + r.value;
    }
  }

  lemma CursorsStart(inputs: seq<seq<Change>>, cursors: seq<nat>, vals: seq<int>)
    requires |cursors| == |inputs| == |vals|
    requires forall i :: 0 <= i < |inputs| ==> cursors[i] == 0 && vals[i] == 0
    ensures Cursors(inputs, cursors, vals, 0)
  {
  }

  lemma NextRises(times: seq<nat>, i: nat)
    requires Rising(times) && i < |times|
    ensures i + 1 < |times| ==> times[i] <= times[i + 1]
  {
  }
}
