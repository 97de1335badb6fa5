/** The change stream of one variable: `_encode_wave` and `_decode_wave` of
    `python/src/trlog/_vc_data.py`.  Wide two-state signals go through XOR deltas and run lengths, all
    others write one entry a change. */
module VcWave {
  import opened Bits
  import opened Bytes
  import opened Lists
  import opened Varint
  import opened VcValues

  /** A change, its time given by its place in the block's time table. */
  datatype Entry = Entry(tidx: nat, value: Value)

  /** Time places strictly increase, from `next` on. */
  ghost predicate Climbs(es: seq<Entry>, next: nat) {
    es == [] || (es[0].tidx >= next && Climbs(es[1..], es[0].tidx + 1))
  }

  ghost predicate FitsBytes(v: Value, width: nat) {
    v.Int? && 0 <= v.n < Pow2(8 * ByteCount(width))
  }

  /** What the encoder accepts without raising. */
  ghost predicate Storable(sig: Sig, v: Value) {
    match sig.enc
    case TwoState => if sig.width == 1 then v.Int? else if sig.width > 1 then v.Int? && 0 <= v.n < LIMIT else FitsBytes(v, 0)
    case FourState => sig.width == 1 || !v.Int? || FitsBytes(v, sig.width)
    case NineState => (v.Int? && v.n >= 0) ==> FitsBytes(v, sig.width)
    case Real => v.Dbl? && |v.raw| == 8
    case Analog => v.Dbl? && |v.raw| == 8
    case Str => v.Text? && |v.utf8| < LIMIT
    case BitVec => FitsBytes(v, sig.width)
  }

  ghost predicate EntryOk(sig: Sig, e: Entry) {
    Storable(sig, e.value) && e.tidx < WORD
  }

  ghost predicate EntriesOk(sig: Sig, es: seq<Entry>) {
    |es| < WORD && forall i :: 0 <= i < |es| ==> EntryOk(sig, es[i])
  }

  /** What a change reads back as. */
  function Seen(sig: Sig, v: Value): Value {
    match sig.enc
    case TwoState => if sig.width == 1 && v.Int? then Int(v.n % 2) else v
    case FourState => if sig.width == 1 then FourValue(FourCode(v)) else if v.Int? then v else FourBack(v, sig.width)
    case NineState => if v.Int? && v.n >= 0 then v else NineBack(v, sig.width)
    case _ => v
  }

  function SeenEntries(sig: Sig, es: seq<Entry>): (r: seq<Entry>)
    ensures |r| == |es| && forall i :: 0 <= i < |es| ==> r[i] == Entry(es[i].tidx, Seen(sig, es[i].value))
  {
    seq(|es|, i requires 0 <= i < |es| => Entry(es[i].tidx, Seen(sig, es[i].value)))
  }

  // ---- One entry a change ----

  ghost function EncBytes(width: nat, v: Value): bytes
    requires FitsBytes(v, width)
  {
    EncBe(ByteCount(width), v.n)
  }

  ghost function EncEntry(sig: Sig, delta: nat, v: Value): bytes
    requires Storable(sig, v) && (sig.enc == TwoState ==> sig.width <= 1)
  {
    match sig.enc
    case TwoState =>
      if sig.width == 1 then EncU(4 * delta + 2 * (v.n % 2) + 1) else EncU(2 * delta + 1) + EncBytes(0, v)
    case FourState =>
      if sig.width == 1 then EncU(8 * delta + 2 * FourCode(v) + 1)
      else if v.Int? then EncU(2 * delta + 1) + EncBytes(sig.width, v)
      else EncU(2 * delta) + PackFour(FourCodes(v, sig.width), FourSize(sig.width))
    case NineState =>
      if v.Int? && v.n >= 0 then EncU(2 * delta + 1) + EncBytes(sig.width, v)
      else EncU(2 * delta) + PackNine(NineCodes(v, sig.width), NineSize(sig.width))
    case Real => EncU(delta) + v.raw
    case Analog => EncU(delta) + v.raw
    case Str => EncU(delta) + (EncU(|v.utf8|) + v.utf8)
    case BitVec => EncU(2 * delta + 1) + EncBytes(sig.width, v)
  }

  function DecBytes(width: nat, s: bytes): Parse<Value> {
    var (data, rest) :- DecSlice(ByteCount(width), s);
    Ok(Int(BeValue(data)), rest)
  }

  function DecDouble(s: bytes): Parse<Value> {
    if |s| < 8 then Fail(Truncated) else Ok(Dbl(s[..8]), s[8..])
  }

  function DecText(s: bytes): Parse<Value> {
    var (size, s1) :- DecU(s);
    var (raw, rest) :- DecSlice(size, s1);
    Ok(Text(raw), rest)
  }

  /** The time-index delta and the value. */
  function DecEntry(sig: Sig, s: bytes): Parse<(nat, Value)> {
    var (header, s1) :- DecU(s);
    match sig.enc
    case TwoState =>
      if sig.width == 1 then Ok((header / 4, Int(header / 2 % 2)), s1) else WithDelta(header / 2, DecBytes(sig.width, s1))
    case FourState =>
      if sig.width == 1 then Ok((header / 8, FourValue(header / 2 % 4)), s1)
      else if header % 2 == 1 then WithDelta(header / 2, DecBytes(sig.width, s1))
      else WithDelta(header / 2, DecFour(sig.width, s1))
    case NineState =>
      if header % 2 == 1 then WithDelta(header / 2, DecBytes(sig.width, s1))
      else WithDelta(header / 2, DecNine(sig.width, s1))
    case Real => WithDelta(header, DecDouble(s1))
    case Analog => WithDelta(header, DecDouble(s1))
    case Str => WithDelta(header, DecText(s1))
    case BitVec => WithDelta(header / 2, DecBytes(sig.width, s1))
  }

  function WithDelta(delta: nat, p: Parse<Value>): Parse<(nat, Value)> {
    var (v, rest) :- p;
    Ok((delta, v), rest)
  }

  ghost function EncEntries(sig: Sig, es: seq<Entry>, next: nat): bytes
    requires EntriesOk(sig, es) && Climbs(es, next) && (sig.enc == TwoState ==> sig.width <= 1)
  {
    if es == [] then []
    else assert EntryOk(sig, es[0]);
         EncEntry(sig, es[0].tidx - next, es[0].value) + EncEntries(sig, es[1..], es[0].tidx + 1)
  }

  function DecEntries(n: nat, sig: Sig, s: bytes, next: nat): Parse<seq<Entry>> {
    if n == 0 then Ok([], s)
    else
      var (e, s1) :- DecEntry(sig, s);
      var tidx := next + e.0;
      var (more, rest) :- DecEntries(n - 1, sig, s1, tidx + 1);
      Ok([Entry(tidx, e.1)] + more, rest)
  }

  lemma BytesRead(width: nat, v: Value, t: bytes)
    requires FitsBytes(v, width)
    ensures DecBytes(width, EncBytes(width, v) + t) == Ok(v, t)
  {
    hide EncBe, BeValue, Pow2;
    BeRoundTrip(ByteCount(width), v.n);
    SliceRoundTrip(EncBytes(width, v), t);
  }

  lemma HeaderReads(header: nat, s: bytes, t: bytes)
    requires header < LIMIT
    ensures DecU((EncU(header) + s) + t) == Ok(header, s + t)
  {
    hide EncU, DecU;
    assert (EncU(header) + s) + t == EncU(header) + (s + t);
    URoundTrip(header, s + t);
  }

  /** Each entry reads back as the change it came from, whatever follows it. */
  lemma EntryReads(sig: Sig, delta: nat, v: Value, t: bytes)
    requires Storable(sig, v) && delta < WORD && (sig.enc == TwoState ==> sig.width <= 1)
    ensures DecEntry(sig, EncEntry(sig, delta, v) + t) == Ok((delta, Seen(sig, v)), t)
  {
    hide EncU, DecU, EncBytes, DecBytes, DecFour, DecNine, PackFour, PackNine, FourCodes, NineCodes, FourBack, NineBack, Pow2;
    match sig.enc
    case TwoState => TwoStateReads(sig, delta, v, t);
    case FourState => FourStateReads(sig, delta, v, t);
    case NineState => NineStateReads(sig, delta, v, t);
    case Real =>
      HeaderReads(delta, v.raw, t);
      SliceRoundTrip(v.raw, t);
    case Analog =>
      HeaderReads(delta, v.raw, t);
      SliceRoundTrip(v.raw, t);
    case Str =>
      HeaderReads(delta, EncU(|v.utf8|) + v.utf8, t);
      HeaderReads(|v.utf8|, v.utf8, t);
      SliceRoundTrip(v.utf8, t);
    case BitVec =>
      HeaderReads(2 * delta + 1, EncBytes(sig.width, v), t);
      BytesRead(sig.width, v, t);
  }

  lemma TwoStateReads(sig: Sig, delta: nat, v: Value, t: bytes)
    requires sig.enc == TwoState && sig.width <= 1 && Storable(sig, v) && delta < WORD
    ensures DecEntry(sig, EncEntry(sig, delta, v) + t) == Ok((delta, Seen(sig, v)), t)
  {
    hide EncU, DecU, EncBytes, DecBytes, Pow2;
    if sig.width == 1 {
      var header := 4 * delta + 2 * (v.n % 2) + 1;
      assert header / 4 == delta && header / 2 == 2 * delta + v.n % 2 && header / 2 % 2 == v.n % 2;
      URoundTrip(header, t);
    } else {
      HeaderReads(2 * delta + 1, EncBytes(0, v), t);
      BytesRead(0, v, t);
    }
  }

  lemma FourStateReads(sig: Sig, delta: nat, v: Value, t: bytes)
    requires sig.enc == FourState && Storable(sig, v) && delta < WORD
    ensures DecEntry(sig, EncEntry(sig, delta, v) + t) == Ok((delta, Seen(sig, v)), t)
  {
    hide EncU, DecU, EncBytes, DecBytes, DecFour, PackFour, FourCodes, FourCode, FourValue, FourBack, Pow2;
    if sig.width == 1 {
      var code: nat := FourCode(v);
      var header := 8 * delta + 2 * code + 1;
      assert header / 8 == delta && header / 2 == 4 * delta + code && header / 2 % 4 == code;
      URoundTrip(header, t);
    } else if v.Int? {
      HeaderReads(2 * delta + 1, EncBytes(sig.width, v), t);
      BytesRead(sig.width, v, t);
    } else {
      HeaderReads(2 * delta, PackFour(FourCodes(v, sig.width), FourSize(sig.width)), t);
      FourReads(v, sig.width, t);
    }
  }

  lemma NineStateReads(sig: Sig, delta: nat, v: Value, t: bytes)
    requires sig.enc == NineState && Storable(sig, v) && delta < WORD
    ensures DecEntry(sig, EncEntry(sig, delta, v) + t) == Ok((delta, Seen(sig, v)), t)
  {
    hide EncU, DecU, EncBytes, DecBytes, DecNine, PackNine, NineCodes, NineBack, Pow2;
    if v.Int? && v.n >= 0 {
      HeaderReads(2 * delta + 1, EncBytes(sig.width, v), t);
      BytesRead(sig.width, v, t);
    } else {
      HeaderReads(2 * delta, PackNine(NineCodes(v, sig.width), NineSize(sig.width)), t);
      NineReads(v, sig.width, t);
    }
  }

  lemma {:induction false} EntriesRead(sig: Sig, es: seq<Entry>, next: nat, t: bytes)
    requires EntriesOk(sig, es) && Climbs(es, next) && (sig.enc == TwoState ==> sig.width <= 1)
    ensures DecEntries(|es|, sig, EncEntries(sig, es, next) + t, next) == Ok(SeenEntries(sig, es), t)
    decreases |es|
  {
    hide EncEntry, DecEntry, Storable, Seen;
    if es != [] {
      assert EntryOk(sig, es[0]);
      var a, b := EncEntry(sig, es[0].tidx - next, es[0].value), EncEntries(sig, es[1..], es[0].tidx + 1);
      assert EncEntries(sig, es, next) + t == a + (b + t);
      EntryReads(sig, es[0].tidx - next, es[0].value, b + t);
      EntriesRead(sig, es[1..], es[0].tidx + 1, t);
      assert SeenEntries(sig, es) == [Entry(es[0].tidx, Seen(sig, es[0].value))] + SeenEntries(sig, es[1..]);
    }
  }

  // ---- XOR deltas in runs ----

  datatype Step = Step(delta: nat, xor: nat)
  datatype Group = Group(step: Step, count: nat)

  function XorNat(a: nat, b: nat): nat {
    XorCancel(a, b);
    Xor(a, b)
  }

  ghost predicate Wide(es: seq<Entry>) {
    forall i :: 0 <= i < |es| ==> es[i].value.Int? && 0 <= es[i].value.n < LIMIT
  }

  /** From one change to the next: how far in time places, and which bits flip. */
  ghost function Steps(es: seq<Entry>, next: nat, prev: nat): (r: seq<Step>)
    requires Wide(es) && Climbs(es, next)
    ensures |r| == |es|
  {
    if es == [] then []
    else [Step(es[0].tidx - next, XorNat(es[0].value.n, prev))] + Steps(es[1..], es[0].tidx + 1, es[0].value.n)
  }

  /** Taking the steps one after another. */
  function Replay(steps: seq<Step>, next: nat, prev: nat): seq<Entry> {
    if steps == [] then []
    else
      var tidx, v := next + steps[0].delta, XorNat(prev, steps[0].xor);
      [Entry(tidx, Int(v))] + Replay(steps[1..], tidx + 1, v)
  }

  /** Where a reader stands after some steps. */
  function NextAfter(steps: seq<Step>, next: nat): nat {
    if steps == [] then next else NextAfter(steps[1..], next + steps[0].delta + 1)
  }

  function ValueAfter(steps: seq<Step>, prev: nat): nat {
    if steps == [] then prev else ValueAfter(steps[1..], XorNat(prev, steps[0].xor))
  }

  /** A run of `count` equal steps has been seen; what follows either lengthens it or closes it. */
  function CollapseFrom(rest: seq<Step>, run: Step, count: nat): (gs: seq<Group>)
    ensures |gs| >= 1
  {
    if rest == [] then [Group(run, count)]
    else if rest[0] == run then CollapseFrom(rest[1..], run, count + 1)
    else [Group(run, count)] + CollapseFrom(rest[1..], rest[0], 1)
  }

  function Collapse(steps: seq<Step>): seq<Group> {
    if steps == [] then [] else CollapseFrom(steps[1..], steps[0], 1)
  }

  function Repeat(step: Step, n: nat): (r: seq<Step>)
    ensures |r| == n && forall i :: 0 <= i < n ==> r[i] == step
  {
    seq(n, _ => step)
  }

  function Expand(gs: seq<Group>): seq<Step> {
    if gs == [] then [] else Repeat(gs[0].step, gs[0].count) + Expand(gs[1..])
  }

  /** No group is empty, and neighbouring groups differ: each is as long as it can be. */
  ghost predicate Maximal(gs: seq<Group>) {
    (forall i :: 0 <= i < |gs| ==> gs[i].count >= 1) &&
    forall i :: 0 <= i < |gs| - 1 ==> gs[i].step != gs[i + 1].step
  }

  lemma OneMaximal(g: Group)
    requires g.count >= 1
    ensures Maximal([g])
  {
  }

  lemma MaximalCons(g: Group, more: seq<Group>)
    requires g.count >= 1 && more != [] && g.step != more[0].step && Maximal(more)
    ensures Maximal([g] + more)
  {
    var gs := [g] + more;
    assert forall i :: 1 <= i < |gs| ==> gs[i] == more[i - 1];
  }

  lemma {:induction false} CollapseLaws(rest: seq<Step>, run: Step, count: nat)
    requires count >= 1
    ensures Expand(CollapseFrom(rest, run, count)) == Repeat(run, count) + rest
    ensures Maximal(CollapseFrom(rest, run, count)) && CollapseFrom(rest, run, count)[0].step == run
    ensures forall g :: g in CollapseFrom(rest, run, count) ==> g.count <= count + |rest|
    ensures |CollapseFrom(rest, run, count)| <= 1 + |rest|
    decreases |rest|
  {
    hide Maximal;
    if rest == [] {
      assert Expand([Group(run, count)]) == Repeat(run, count) + [];
      OneMaximal(Group(run, count));
    } else if rest[0] == run {
      CollapseLaws(rest[1..], run, count + 1);
      assert Repeat(run, count + 1) + rest[1..] == Repeat(run, count) + rest;
    } else {
      CollapseLaws(rest[1..], rest[0], 1);
      var more := CollapseFrom(rest[1..], rest[0], 1);
      assert Repeat(rest[0], 1) + rest[1..] == rest;
      assert ([Group(run, count)] + more)[1..] == more;
      MaximalCons(Group(run, count), more);
    }
  }

  /** The groups are the maximal runs of the steps. */
  lemma CollapseIsMaximal(steps: seq<Step>)
    ensures Expand(Collapse(steps)) == steps && Maximal(Collapse(steps))
    ensures |Collapse(steps)| <= |steps| && forall g :: g in Collapse(steps) ==> g.count <= |steps|
  {
    if steps != [] {
      CollapseLaws(steps[1..], steps[0], 1);
      assert Repeat(steps[0], 1) + steps[1..] == steps;
    }
  }

  function EncGroup(g: Group): bytes
    requires g.count >= 1
  {
    EncU(2 * g.step.delta + 1) + (EncU(g.step.xor) + EncU(g.count - 1))
  }

  ghost function EncGroups(gs: seq<Group>): bytes
    requires Maximal(gs)
  {
    if gs == [] then [] else EncGroup(gs[0]) + EncGroups(gs[1..])
  }

  function DecGroup(s: bytes): (r: Parse<Group>)
    ensures r.Ok? ==> r.value.count >= 1
  {
    var (header, s1) :- DecU(s);
    var (xor, s2) :- DecU(s1);
    var (more, rest) :- DecU(s2);
    Ok(Group(Step(header / 2, xor), more + 1), rest)
  }

  function DecGroups(n: nat, s: bytes, next: nat, prev: nat): Parse<seq<Entry>> {
    if n == 0 then Ok([], s)
    else
      var (g, s1) :- DecGroup(s);
      var run := Repeat(g.step, g.count);
      var (more, rest) :- DecGroups(n - 1, s1, NextAfter(run, next), ValueAfter(run, prev));
      Ok(Replay(run, next, prev) + more, rest)
  }

  ghost predicate GroupOk(g: Group) {
    g.step.delta < WORD && g.step.xor < LIMIT && 1 <= g.count < LIMIT
  }

  lemma GroupReads(g: Group, t: bytes)
    requires GroupOk(g)
    ensures DecGroup(EncGroup(g) + t) == Ok(g, t)
  {
    hide EncU, DecU;
    var a, b, c := EncU(2 * g.step.delta + 1), EncU(g.step.xor), EncU(g.count - 1);
    assert EncGroup(g) + t == a + (b + (c + t));
    URoundTrip(2 * g.step.delta + 1, b + (c + t));
    URoundTrip(g.step.xor, c + t);
    URoundTrip(g.count - 1, t);
  }

  lemma {:induction false} ReplayAppend(a: seq<Step>, b: seq<Step>, next: nat, prev: nat)
    ensures Replay(a + b, next, prev) == Replay(a, next, prev) + Replay(b, NextAfter(a, next), ValueAfter(a, prev))
    decreases |a|
  {
    hide XorNat;
    if a == [] {
      assert a + b == b;
    } else {
      assert (a + b)[1..] == a[1..] + b;
      ReplayAppend(a[1..], b, next + a[0].delta + 1, XorNat(prev, a[0].xor));
    }
  }

  lemma {:induction false} GroupsRead(gs: seq<Group>, next: nat, prev: nat, t: bytes)
    requires Maximal(gs) && forall i :: 0 <= i < |gs| ==> GroupOk(gs[i])
    ensures DecGroups(|gs|, EncGroups(gs) + t, next, prev) == Ok(Replay(Expand(gs), next, prev), t)
    decreases |gs|
  {
    hide EncGroup, DecGroup, GroupOk, Replay, NextAfter, ValueAfter, Repeat;
    if gs == [] {
      assert EncGroups(gs) + t == t && Replay([], next, prev) == [] by {
        ReplayNothing(next, prev);
      }
    } else {
      var a, b := EncGroup(gs[0]), EncGroups(gs[1..]);
      assert EncGroups(gs) + t == a + (b + t);
      GroupReads(gs[0], b + t);
      var run := Repeat(gs[0].step, gs[0].count);
      GroupsRead(gs[1..], NextAfter(run, next), ValueAfter(run, prev), t);
      ReplayAppend(run, Expand(gs[1..]), next, prev);
    }
  }

  lemma ReplayNothing(next: nat, prev: nat)
    ensures Replay([], next, prev) == []
  {
  }

  /** Replaying the steps gives the changes back: flipping the same bits twice. */
  lemma {:induction false} StepsReplay(es: seq<Entry>, next: nat, prev: nat)
    requires Wide(es) && Climbs(es, next)
    ensures Replay(Steps(es, next, prev), next, prev) == es
    decreases |es|
  {
    hide Xor;
    if es != [] {
      var v := es[0].value.n;
      XorCancel(v, prev);
      XorCommutes(prev, XorNat(v, prev));
      StepsReplay(es[1..], es[0].tidx + 1, v);
    }
  }

  lemma {:induction false} StepsFit(es: seq<Entry>, next: nat, prev: nat)
    requires Wide(es) && Climbs(es, next) && prev < LIMIT && forall i :: 0 <= i < |es| ==> es[i].tidx < WORD
    ensures forall i :: 0 <= i < |es| ==> Steps(es, next, prev)[i].delta < WORD && Steps(es, next, prev)[i].xor < LIMIT
    decreases |es|
  {
    hide Xor, Pow2;
    if es != [] {
      Pow2Values();
      XorBound(es[0].value.n, prev, 70);
      StepsFit(es[1..], es[0].tidx + 1, es[0].value.n);
    }
  }

  lemma {:induction false} GroupsFit(gs: seq<Group>, steps: seq<Step>)
    requires Expand(gs) == steps && Maximal(gs) && |steps| < WORD
    requires forall s :: s in steps ==> s.delta < WORD && s.xor < LIMIT
    ensures forall i :: 0 <= i < |gs| ==> GroupOk(gs[i])
    decreases |gs|
  {
    if gs != [] {
      var run := Repeat(gs[0].step, gs[0].count);
      assert steps == run + Expand(gs[1..]);
      assert run[0] in steps;
      GroupsFit(gs[1..], Expand(gs[1..]));
    }
  }

  // ---- A whole wave ----

  predicate Runs(sig: Sig) {
    sig.enc == TwoState && sig.width > 1
  }

  ghost function EncRuns(es: seq<Entry>): bytes
    requires Wide(es) && Climbs(es, 0)
  {
    var gs := Collapse(Steps(es, 0, 0));
    CollapseIsMaximal(Steps(es, 0, 0));
    EncU(|gs|) + EncGroups(gs)
  }

  ghost function EncWave(sig: Sig, es: seq<Entry>): (s: bytes)
    requires EntriesOk(sig, es) && Climbs(es, 0)
    ensures |s| >= 1
  {
    if Runs(sig) then WideIfRuns(sig, es); EncRuns(es)
    else EncU(|es|) + EncEntries(sig, es, 0)
  }

  lemma WideIfRuns(sig: Sig, es: seq<Entry>)
    requires EntriesOk(sig, es) && Runs(sig)
    ensures Wide(es)
  {
    forall i | 0 <= i < |es|
      ensures es[i].value.Int? && 0 <= es[i].value.n < LIMIT
    {
      assert EntryOk(sig, es[i]);
    }
  }

  /** Without the XOR flag a wide two-state wave is read as plain entries, as older writers made it. */
  function DecWave(sig: Sig, xorDelta: bool, s: bytes): Parse<seq<Entry>> {
    var (n, s1) :- DecU(s);
    if xorDelta && Runs(sig) then DecGroups(n, s1, 0, 0) else DecEntries(n, sig, s1, 0)
  }

  lemma RunsRead(es: seq<Entry>, t: bytes)
    requires Wide(es) && Climbs(es, 0) && |es| < WORD && forall i :: 0 <= i < |es| ==> es[i].tidx < WORD
    ensures DecWave(Sig(TwoState, 2), true, EncRuns(es) + t) == Ok(es, t)
  {
    hide EncU, DecU, EncGroups, DecGroups, Steps, Collapse, Expand, Replay, Maximal, Climbs, Wide, GroupOk;
    var steps := Steps(es, 0, 0);
    var gs := Collapse(steps);
    CollapseIsMaximal(steps);
    StepsFit(es, 0, 0);
    GroupsFit(gs, steps);
    assert EncRuns(es) + t == EncU(|gs|) + (EncGroups(gs) + t);
    URoundTrip(|gs|, EncGroups(gs) + t);
    GroupsRead(gs, 0, 0, t);
    StepsReplay(es, 0, 0);
  }

  lemma RunsSeen(sig: Sig, es: seq<Entry>)
    requires Runs(sig)
    ensures SeenEntries(sig, es) == es
  {
  }

  /** A wave reads back as the changes it was made from, whatever bytes follow it. */
  lemma WaveRoundTrip(sig: Sig, es: seq<Entry>, t: bytes)
    requires EntriesOk(sig, es) && Climbs(es, 0)
    ensures DecWave(sig, true, EncWave(sig, es) + t) == Ok(SeenEntries(sig, es), t)
  {
    hide EncU, DecU, EncEntries, DecEntries, DecGroups, EncRuns, SeenEntries, Climbs;
    if Runs(sig) {
      WideIfRuns(sig, es);
      assert forall i :: 0 <= i < |es| ==> EntryOk(sig, es[i]);
      RunsRead(es, t);
      RunsSeen(sig, es);
    } else {
      assert EncWave(sig, es) + t == EncU(|es|) + (EncEntries(sig, es, 0) + t);
      URoundTrip(|es|, EncEntries(sig, es, 0) + t);
      EntriesRead(sig, es, 0, t);
    }
  }

  /** Reading a value back changes nothing exactly when the encoding has a form for it. */
  ghost predicate Exact(sig: Sig, v: Value) {
    match sig.enc
    case TwoState => sig.width == 1 ==> v.Int? && 0 <= v.n <= 1
    case FourState =>
      if sig.width == 1 then v in {Int(0), Int(1), Text([0x58]), Text([0x5A])}
      else v.Int? || (sig.width > 0 && v.States? && |v.list| == sig.width && forall i :: 0 <= i < sig.width ==> v.list[i] == Chr('X'))
    case NineState =>
      (v.Int? && v.n >= 0) ||
      (v.States? && |v.list| == sig.width && (forall i :: 0 <= i < sig.width ==> v.list[i] in NINE_STATES) &&
       exists i :: 0 <= i < sig.width && v.list[i].Chr?)
    case _ => true
  }

  lemma SeenExact(sig: Sig, v: Value)
    requires Storable(sig, v)
    ensures Seen(sig, v) == v <==> Exact(sig, v)
  {
    hide FourBack, NineBack, Pow2;
    FourExact(v, sig.width);
    NineExact(v, sig.width);
  }

  // ---- The loops ----

  datatype Change = Change(time: nat, value: Value)

  ghost predicate Placed(changes: seq<Change>, timeToIdx: map<nat, nat>) {
    forall i :: 0 <= i < |changes| ==> changes[i].time in timeToIdx
  }

  ghost function Places(changes: seq<Change>, timeToIdx: map<nat, nat>): (es: seq<Entry>)
    requires Placed(changes, timeToIdx)
    ensures |es| == |changes|
    ensures forall i :: 0 <= i < |es| ==> es[i] == Entry(timeToIdx[changes[i].time], changes[i].value)
  {
    seq(|changes|, i requires 0 <= i < |changes| => Entry(timeToIdx[changes[i].time], changes[i].value))
  }

  /** The `(delta, xor)` pairs; writing a negative distance raises. */
  method ListSteps(changes: seq<Change>, timeToIdx: map<nat, nat>) returns (r: Option<seq<Step>>)
    requires Placed(changes, timeToIdx) && Wide(Places(changes, timeToIdx))
    ensures r.Some? <==> Climbs(Places(changes, timeToIdx), 0)
    ensures r.Some? ==> r.value == Steps(Places(changes, timeToIdx), 0, 0)
  {
    hide Xor;
    ghost var es := Places(changes, timeToIdx);
    var next: nat, prev: nat := 0, 0;
    var pairs: seq<Step> := [];
    assert es[0..] == es;
    for i := 0 to |changes|
      invariant Wide(es[i..]) && (Climbs(es[i..], next) <==> Climbs(es, 0))
      invariant Climbs(es, 0) ==> Steps(es, 0, 0) == pairs + Steps(es[i..], next, prev)
    {
      Tail(es, i);
      var tidx, curr := timeToIdx[changes[i].time], changes[i].value.n;
      if tidx < next {
        return None;
      }
      pairs := pairs + [Step(tidx - next, XorNat(curr, prev))];
      next, prev := tidx + 1, curr;
    }
    r := Some(pairs);
  }

  /** Runs of equal pairs become groups, in one pass. */
  method CollapseRuns(pairs: seq<Step>) returns (groups: seq<Group>)
    requires pairs != []
    ensures groups == Collapse(pairs)
  {
    groups := [];
    var run, count := pairs[0], 1;
    for i := 1 to |pairs|
      invariant Collapse(pairs) == groups + CollapseFrom(pairs[i..], run, count)
    {
      Tail(pairs, i);
      if pairs[i] == run {
        count := count + 1;
      } else {
        groups := groups + [Group(run, count)];
        run, count := pairs[i], 1;
      }
    }
    groups := groups + [Group(run, count)];
  }

  method WriteGroups(groups: seq<Group>) returns (out: bytes)
    requires Maximal(groups)
    ensures out == EncU(|groups|) + EncGroups(groups)
  {
    hide EncU;
    out := EncU(|groups|);
    ghost var whole := out + EncGroups(groups);
    assert groups[0..] == groups;
    for i := 0 to |groups|
      invariant Maximal(groups[i..]) && whole == out + EncGroups(groups[i..])
    {
      Tail(groups, i);
      MaximalTail(groups[i..]);
      ghost var before, g := out, groups[i];
      out := out + EncU(2 * groups[i].step.delta + 1);
      out := out + EncU(groups[i].step.xor);
      out := out + EncU(groups[i].count - 1);
      assert out == before + EncGroup(g);
      assert (before + EncGroup(g)) + EncGroups(groups[i + 1..]) == before + (EncGroup(g) + EncGroups(groups[i + 1..]));
    }
    assert EncGroups(groups[|groups|..]) == [];
  }

  lemma MaximalTail(gs: seq<Group>)
    requires Maximal(gs) && gs != []
    ensures Maximal(gs[1..])
  {
  }

  /** Raises exactly when a change is not behind the one before it. */
  method EncodeWave(changes: seq<Change>, sig: Sig, timeToIdx: map<nat, nat>) returns (r: Option<bytes>)
    requires Placed(changes, timeToIdx) && EntriesOk(sig, Places(changes, timeToIdx))
    ensures r.Some? <==> Climbs(Places(changes, timeToIdx), 0)
    ensures r.Some? ==> r.value == EncWave(sig, Places(changes, timeToIdx))
  {
    hide EncU, Climbs, Maximal, Collapse, Steps, EncGroups, EntryOk, Wide;
    ghost var es := Places(changes, timeToIdx);
    if changes == [] {
      NoChanges(sig, es);
      return Some(EncU(0));
    }
    if sig.enc == TwoState && sig.width > 1 {
      WideIfRuns(sig, es);
      var pairs := ListSteps(changes, timeToIdx);
      if pairs.None? {
        return None;
      }
      var groups := CollapseRuns(pairs.value);
      CollapseIsMaximal(pairs.value);
      var out := WriteGroups(groups);
      r := Some(out);
    } else {
      r := WriteEntries(changes, sig, timeToIdx);
    }
  }

  lemma NoChanges(sig: Sig, es: seq<Entry>)
    requires es == []
    ensures EntriesOk(sig, es) && Climbs(es, 0) && EncWave(sig, es) == EncU(0)
  {
    hide EncU;
    if Runs(sig) {
      assert EncRuns(es) == EncU(0) + [];
    } else {
      assert EncWave(sig, es) == EncU(0) + [];
    }
  }

  method WriteEntries(changes: seq<Change>, sig: Sig, timeToIdx: map<nat, nat>) returns (r: Option<bytes>)
    requires Placed(changes, timeToIdx) && !Runs(sig) && EntriesOk(sig, Places(changes, timeToIdx))
    ensures r.Some? <==> Climbs(Places(changes, timeToIdx), 0)
    ensures r.Some? ==> r.value == EncU(|changes|) + EncEntries(sig, Places(changes, timeToIdx), 0)
  {
    hide EncU, EncEntry, Storable;
    ghost var es := Places(changes, timeToIdx);
    var out := EncU(|changes|);
    ghost var head := out;
    var next: nat := 0;
    assert es[0..] == es;
    for i := 0 to |changes|
      invariant EntriesOk(sig, es[i..]) && (Climbs(es[i..], next) <==> Climbs(es, 0))
      invariant Climbs(es, 0) ==> head + EncEntries(sig, es, 0) == out + EncEntries(sig, es[i..], next)
    {
      Tail(es, i);
      assert EntryOk(sig, es[i]);
      var tidx := timeToIdx[changes[i].time];
      if tidx < next {
        return None;
      }
      var entry := WriteEntry(sig, tidx - next, changes[i].value);
      if Climbs(es, 0) {
        ghost var more := EncEntries(sig, es[i + 1..], tidx + 1);
        assert (out + entry) + more == out + (entry + more);
      }
      out := out + entry;
      next := tidx + 1;
    }
    assert EncEntries(sig, es[|changes|..], next) == [];
    r := Some(out);
  }

  /** The bytes one change adds. */
  method WriteEntry(sig: Sig, delta: nat, v: Value) returns (out: bytes)
    requires Storable(sig, v) && !Runs(sig)
    ensures out == EncEntry(sig, delta, v)
  {
    hide EncU, EncBe, PackFour, PackNine, FourCodes, NineCodes, Pow2, FourCode;
    match sig.enc {
      case TwoState =>
        if sig.width == 1 {
          out := EncU(4 * delta + 2 * (v.n % 2) + 1);
        } else {
          out := EncU(2 * delta + 1);
          out := out + EncBe(ByteCount(sig.width), v.n);
        }
      case FourState =>
        if sig.width == 1 {
          out := EncU(8 * delta + 2 * FourCode(v) + 1);
        } else if v.Int? {
          out := EncU(2 * delta + 1);
          out := out + EncBe(ByteCount(sig.width), v.n);
        } else {
          out := EncU(2 * delta);
          var packed := Pack4State(v, sig.width);
          out := out + packed;
        }
      case NineState =>
        if v.Int? && v.n >= 0 {
          out := EncU(2 * delta + 1);
          out := out + EncBe(ByteCount(sig.width), v.n);
        } else {
          out := EncU(2 * delta);
          var packed := Pack9State(v, sig.width);
          out := out + packed;
        }
      case Real => out := EncU(delta) + v.raw;
      case Analog => out := EncU(delta) + v.raw;
      case Str =>
        out := EncU(delta) + (EncU(|v.utf8|) + v.utf8);
      case BitVec =>
        out := EncU(2 * delta + 1);
        out := out + EncBe(ByteCount(sig.width), v.n);
    }
  }

  /** What has been read, in front of the outcome for the rest. */
  ghost function Behind<T>(out: seq<T>, p: Parse<seq<T>>): Parse<seq<T>> {
    match p case Fail(f) => Fail(f) case Ok(more, rest) => Ok(out + more, rest)
  }

  lemma BehindTwice<T>(a: seq<T>, b: seq<T>, p: Parse<seq<T>>)
    ensures Behind(a, Behind(b, p)) == Behind(a + b, p) && Behind([], p) == p
  {
    if p.Ok? {
      assert a + (b + p.value) == (a + b) + p.value && [] + p.value == p.value;
    }
  }

  method DecodeWave(data: bytes, sig: Sig, xorDelta: bool) returns (r: Parse<seq<Entry>>)
    ensures r == DecWave(sig, xorDelta, data)
  {
    hide DecU, DecGroups, DecEntries;
    match DecU(data) {
      case Fail(f) => r := Fail(f);
      case Ok(n, rest) =>
        if xorDelta && sig.enc == TwoState && sig.width > 1 {
          r := ReadGroups(n, rest);
        } else {
          r := ReadEntries(n, sig, rest);
        }
    }
  }

  method ReadGroups(n: nat, data: bytes) returns (r: Parse<seq<Entry>>)
    ensures r == DecGroups(n, data, 0, 0)
  {
    hide DecGroup, Replay, NextAfter, ValueAfter, Repeat;
    var rest, result: seq<Entry>, next: nat, prev: nat := data, [], 0, 0;
    BehindTwice([], [], DecGroups(n, data, 0, 0));
    for i := 0 to n
      invariant DecGroups(n, data, 0, 0) == Behind(result, DecGroups(n - i, rest, next, prev))
    {
      match DecGroup(rest) {
        case Fail(f) => return Fail(f);
        case Ok(g, more) =>
          ghost var run := Repeat(g.step, g.count);
          BehindTwice(result, Replay(run, next, prev), DecGroups(n - i - 1, more, NextAfter(run, next), ValueAfter(run, prev)));
          result, next, prev := RunOut(g, result, next, prev);
          rest := more;
      }
    }
    assert result + [] == result;
    r := Ok(result, rest);
  }

  /** The inner loop: one group's changes. */
  method RunOut(g: Group, result: seq<Entry>, next: nat, prev: nat)
    returns (result': seq<Entry>, next': nat, prev': nat)
    ensures var run := Repeat(g.step, g.count);
            result' == result + Replay(run, next, prev) && next' == NextAfter(run, next) && prev' == ValueAfter(run, prev)
  {
    hide XorNat;
    ghost var run := Repeat(g.step, g.count);
    result', next', prev' := result, next, prev;
    assert run[0..] == run;
    for j := 0 to g.count
      invariant result + Replay(run, next, prev) == result' + Replay(run[j..], next', prev')
      invariant NextAfter(run, next) == NextAfter(run[j..], next') && ValueAfter(run, prev) == ValueAfter(run[j..], prev')
    {
      Tail(run, j);
      var tidx := next' + g.step.delta;
      prev' := XorNat(prev', g.step.xor);
      next' := tidx + 1;
      result' := result' + [Entry(tidx, Int(prev'))];
    }
  }

  method ReadEntries(n: nat, sig: Sig, data: bytes) returns (r: Parse<seq<Entry>>)
    ensures r == DecEntries(n, sig, data, 0)
  {
    hide DecEntry;
    var rest, result: seq<Entry>, next: nat := data, [], 0;
    BehindTwice([], [], DecEntries(n, sig, data, 0));
    for i := 0 to n
      invariant DecEntries(n, sig, data, 0) == Behind(result, DecEntries(n - i, sig, rest, next))
    {
      var e := ReadEntry(sig, rest);
      match e {
        case Fail(f) => return Fail(f);
        case Ok(pair, more) =>
          var tidx := next + pair.0;
          BehindTwice(result, [Entry(tidx, pair.1)], DecEntries(n - i - 1, sig, more, tidx + 1));
          result := result + [Entry(tidx, pair.1)];
          next, rest := tidx + 1, more;
      }
    }
    assert result + [] == result;
    r := Ok(result, rest);
  }

  method ReadEntry(sig: Sig, data: bytes) returns (r: Parse<(nat, Value)>)
    ensures r == DecEntry(sig, data)
  {
    hide DecU, UnpackFour, UnpackNine, FourResult, NineResult, BeValue;
    match DecU(data) {
      case Fail(f) => r := Fail(f);
      case Ok(header, rest) =>
        match sig.enc {
          case TwoState =>
            r := if sig.width == 1 then Ok((header / 4, Int(header / 2 % 2)), rest)
                 else WithDelta(header / 2, DecBytes(sig.width, rest));
          case FourState =>
            if sig.width == 1 {
              r := Ok((header / 8, FourValue(header / 2 % 4)), rest);
            } else if header % 2 == 1 {
              r := WithDelta(header / 2, DecBytes(sig.width, rest));
            } else {
              var cut := DecSlice(FourSize(sig.width), rest);
              var v := Unpack4State(cut.value, sig.width);
              r := match v case Fail(f) => Fail(f) case Ok(value, _) => Ok((header / 2, value), cut.rest);
            }
          case NineState =>
            if header % 2 == 1 {
              r := WithDelta(header / 2, DecBytes(sig.width, rest));
            } else {
              var cut := DecSlice(NineSize(sig.width), rest);
              var v := Unpack9State(cut.value, sig.width);
              r := match v case Fail(f) => Fail(f) case Ok(value, _) => Ok((header / 2, value), cut.rest);
            }
          case Real => r := WithDelta(header, DecDouble(rest));
          case Analog => r := WithDelta(header, DecDouble(rest));
          case Str => r := WithDelta(header, DecText(rest));
          case BitVec => r := WithDelta(header / 2, DecBytes(sig.width, rest));
        }
    }
  }
}
