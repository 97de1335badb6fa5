/** Recording from a simulator: the callbacks of `vpi/src/trlog_vpi_value.c` and the system tasks of
    `vpi/src/trlog_vpi.c`, over the block calls of `c/src/writer.c`.  A recording is a state machine; its
    invariants hold after any callbacks in any order. */
module Vpi {
  import opened Bytes
  import S = Sorting

  // ---- The writer's block calls ----

  /** A recorded value of a signal. */
  datatype Rec = Rec(scope: nat, id: nat, time: nat, value: bytes)

  datatype Block = Block(start: nat, changes: seq<Rec>)

  /** The block under construction and the blocks written.  A flushed block stays in place until the next
      one begins. */
  datatype Out = Out(vc: Block, active: bool, done: seq<Block>)

  function Begin(o: Out, start: nat): Out {
    o.(vc := Block(start, []), active := true)
  }

  function Change(o: Out, r: Rec): Out {
    o.(vc := o.vc.(changes := o.vc.changes + [r]))
  }

  function Flush(o: Out): Out {
    o.(done := o.done + [o.vc], active := false)
  }

  // ---- The recording ----

  datatype Signal = Signal(id: nat, scope: nat)

  datatype Config = Config(grouped: bool, interval: nat)

  /** `log` is every value written so far, in order, and `now` the latest time seen; the rest is the
      library's global state. */
  datatype State = State(
    used: bool, open: bool, sigs: seq<Signal>, changed: seq<bool>, outstanding: bool,
    active: bool, start: nat, count: nat, pending: seq<Rec>,
    paused: bool, limit: nat, out: Out, now: nat, log: seq<Rec>)

  const START: State :=
    State(false, false, [], [], false, false, 0, 0, [], false, 0, Out(Block(0, []), false, []), 0, [])

  /** What the simulator calls, with the current time and, where signals are read, their values. */
  datatype Op =
    | OpenFile
    | AddSignal(sig: Signal)
    | ValueChange(idx: int)
    | Drain(t: nat, values: seq<bytes>)
    | DumpOff(t: nat)
    | DumpOn(t: nat, values: seq<bytes>)
    | DumpFlush(t: nat)
    | DumpAll(t: nat, values: seq<bytes>)
    | DumpLimit(n: nat)
    | EndOfSimulation(t: nat)

  const NO_SCOPE: nat := 0xFFFF_FFFF

  // ---- Scope-grouped flush ----

  function ByScope(a: Rec, b: Rec): bool {
    a.scope < b.scope || (a.scope == b.scope && a.time <= b.time)
  }

  /** The records one after another; a record of another scope closes the block and begins the next. */
  function EmitFrom(o: Out, start: nat, cur: nat, rs: seq<Rec>): Out
    decreases |rs|
  {
    if rs == [] then (if cur != NO_SCOPE then Flush(o) else o)
    else
      var next := if rs[0].scope == cur then o else Begin(if cur != NO_SCOPE then Flush(o) else o, start);
      EmitFrom(Change(next, rs[0]), start, rs[0].scope, rs[1..])
  }

  function FlushPending(s: State, t: nat): State {
    if s.pending == [] then s
    else s.(out := EmitFrom(s.out, s.start, NO_SCOPE, S.Sort(s.pending, ByScope)), pending := [], count := 0, start := t)
  }

  function FlushBlock(s: State): State {
    if s.active then s.(out := Flush(s.out), active := false, count := 0) else s
  }

  /** `do_flush`. */
  function DoFlush(c: Config, s: State, t: nat): State {
    if !s.open then s else if c.grouped then FlushPending(s, t) else FlushBlock(s)
  }

  // ---- Writing values ----

  function RecOf(s: State, i: nat, t: nat, value: bytes): Rec
    requires i < |s.sigs|
  {
    Rec(s.sigs[i].scope, s.sigs[i].id, t, value)
  }

  /** `write_signal_value`: into the buffer, or into the open block. */
  function WriteOne(c: Config, s: State, r: Rec): State {
    if c.grouped then s.(count := s.count + 1, log := s.log + [r], pending := s.pending + [r])
    else s.(count := s.count + 1, log := s.log + [r], out := Change(s.out, r))
  }

  function WriteSome(c: Config, s: State, rs: seq<Rec>): State
    decreases |rs|
  {
    if rs == [] then s else WriteSome(c, WriteOne(c, s, rs[0]), rs[1..])
  }

  /** The current values of the marked signals from `i` on. */
  function Marked(s: State, t: nat, values: seq<bytes>, i: nat): seq<Rec>
    requires |s.changed| == |s.sigs| == |values| && i <= |s.sigs|
    decreases |s.sigs| - i
  {
    if i == |s.sigs| then []
    else (if s.changed[i] then [RecOf(s, i, t, values[i])] else []) + Marked(s, t, values, i + 1)
  }

  function Everything(s: State, t: nat, values: seq<bytes>, i: nat): seq<Rec>
    requires |s.sigs| == |values| && i <= |s.sigs|
    decreases |s.sigs| - i
  {
    if i == |s.sigs| then [] else [RecOf(s, i, t, values[i])] + Everything(s, t, values, i + 1)
  }

  function Unmarked(s: State): State {
    s.(changed := seq(|s.changed|, _ => false), outstanding := false)
  }

  // ---- Callbacks ----

  function MarkSignal(s: State, idx: int): State {
    if !s.open || s.paused || idx < 0 || idx >= |s.sigs| || idx >= |s.changed| then s
    else s.(changed := s.changed[idx := true], outstanding := true)
  }

  function OpenIfNeeded(c: Config, s: State, t: nat): State {
    if !c.grouped then (if s.active then s else s.(out := Begin(s.out, t), active := true, start := t))
    else if s.pending == [] then s.(start := t)
    else s
  }

  function AutoFlush(c: Config, s: State, t: nat): State {
    if s.count < c.interval then s
    else if c.grouped then FlushPending(s, t)
    else s.(out := Flush(s.out), active := false, count := 0)
  }

  /** Tracing pauses when the estimate of sixteen bytes a change reaches the limit. */
  function CheckLimit(c: Config, s: State, t: nat): State {
    if s.limit == 0 || !s.open || s.paused || s.count * 16 < s.limit then s
    else (if c.grouped then FlushPending(s, t) else FlushBlock(s)).(paused := true)
  }

  /** `trlog_delta_callback`. */
  function DrainMarks(c: Config, s: State, t: nat, values: seq<bytes>): State
    requires |s.changed| == |s.sigs| == |values|
  {
    if !s.open || s.paused then Unmarked(s)
    else
      var marked := Marked(s, t, values, 0);
      var written := WriteSome(c, OpenIfNeeded(c, Unmarked(s), t), marked);
      CheckLimit(c, AutoFlush(c, written, t), t)
  }

  /** `trlog_snapshot_all`. */
  function Snapshot(c: Config, s: State, t: nat, values: seq<bytes>): State
    requires |s.sigs| == |values|
  {
    if !s.open || s.sigs == [] then s
    else
      var all := Everything(s, t, values, 0);
      if c.grouped then
        FlushPending(WriteSome(c, FlushPending(s, t).(start := t), all), t).(active := false, count := 0)
      else
        var begun := FlushBlock(s);
        var written := WriteSome(c, begun.(out := Begin(begun.out, t), active := true, start := t), all);
        written.(out := Flush(written.out), active := false, count := 0)
  }

  function Closed(c: Config, s: State, t: nat): State {
    var flushed := DoFlush(c, s, t);
    var out := if s.open && flushed.out.active then Flush(flushed.out) else flushed.out;
    State(s.used, false, [], [], false, false, 0, 0, [], false, 0, out, flushed.now, flushed.log)
  }

  /** What the calls rely on: the file is opened once, time does not go back, a value is read for every
      signal, scope ids leave the largest word free. */
  ghost predicate Legal(s: State, op: Op) {
    match op
    case OpenFile => !s.used
    case AddSignal(sig) => s.open && sig.scope < NO_SCOPE
    case ValueChange(_) => true
    case Drain(t, values) => t >= s.now && |values| == |s.sigs|
    case DumpOff(t) => t >= s.now
    case DumpOn(t, values) => t >= s.now && |values| == |s.sigs|
    case DumpFlush(t) => t >= s.now
    case DumpAll(t, values) => t >= s.now && |values| == |s.sigs|
    case DumpLimit(_) => true
    case EndOfSimulation(t) => t >= s.now
  }

  ghost function Step(c: Config, s: State, op: Op): State
    requires |s.changed| == |s.sigs| && Legal(s, op)
  {
    match op
    case OpenFile => s.(used := true, open := true)
    case AddSignal(sig) => s.(sigs := s.sigs + [sig], changed := s.changed + [false])
    case ValueChange(idx) => MarkSignal(s, idx)
    case Drain(t, values) => DrainMarks(c, s.(now := t), t, values)
    case DumpOff(t) => if s.open then DoFlush(c, s.(now := t), t).(paused := true) else s.(now := t)
    case DumpOn(t, values) => if s.open then Snapshot(c, s.(now := t, paused := false), t, values) else s.(now := t)
    case DumpFlush(t) => DoFlush(c, s.(now := t), t)
    case DumpAll(t, values) => if s.paused then s.(now := t) else Snapshot(c, s.(now := t), t, values)
    case DumpLimit(n) => s.(limit := n)
    case EndOfSimulation(t) => Closed(c, s.(now := t), t)
  }

  // ---- Invariants ----

  function AllOf(bs: seq<Block>): seq<Rec> {
    if bs == [] then [] else AllOf(bs[..|bs| - 1]) + bs[|bs| - 1].changes
  }

  /** The changes not yet written out. */
  function Held(c: Config, s: State): seq<Rec> {
    if c.grouped then s.pending else if s.active then s.out.vc.changes else []
  }

  ghost predicate InTime(start: nat, rs: seq<Rec>) {
    forall r :: r in rs ==> start <= r.time
  }

  ghost predicate BlocksOk(bs: seq<Block>) {
    forall b :: b in bs ==> InTime(b.start, b.changes)
  }

  function AtLeastOne(n: nat): nat {
    if n == 0 then 1 else n
  }

  /** A signal is marked exactly while a drain is outstanding. */
  ghost predicate MarksOk(s: State) {
    |s.changed| == |s.sigs| && ((exists i :: 0 <= i < |s.changed| && s.changed[i]) <==> s.outstanding)
  }

  /** In direct mode the library and the writer agree on the open block; in grouped mode there is none.
      Nothing is open or buffered while paused or without a file. */
  ghost predicate ModeOk(c: Config, s: State) {
    && (s.open ==> s.used)
    && (c.grouped ==> !s.active && !s.out.active)
    && (!c.grouped ==> s.pending == [] && (s.active <==> s.out.active) && (s.active ==> s.out.vc.start == s.start))
    && (s.paused || !s.open ==> !s.active && s.pending == [])
  }

  /** The counter counts what is held, which starts no earlier than the block it will go to. */
  ghost predicate HeldOk(c: Config, s: State) {
    && s.count == |Held(c, s)| && (s.active || s.pending != [] ==> s.start <= s.now)
    && InTime(s.start, Held(c, s))
    && forall r :: r in s.pending ==> r.scope < NO_SCOPE
  }

  ghost predicate SigsOk(sigs: seq<Signal>) {
    forall i :: 0 <= i < |sigs| ==> sigs[i].scope < NO_SCOPE
  }

  /** Every value written is in one finished block or still held, once; in direct mode in order. */
  ghost predicate Conserved(c: Config, log: seq<Rec>, done: seq<Block>, held: seq<Rec>) {
    && multiset(log) == multiset(AllOf(done)) + multiset(held)
    && (!c.grouped ==> log == AllOf(done) + held)
  }

  ghost predicate Sound(c: Config, s: State) {
    MarksOk(s) && ModeOk(c, s) && HeldOk(c, s) && SigsOk(s.sigs) && BlocksOk(s.out.done) && Conserved(c, s.log, s.out.done, Held(c, s))
  }

  /** After a drain fewer changes are held than the flush interval, taken as at least one. */
  ghost predicate BelowInterval(c: Config, s: State) {
    s.count < AtLeastOne(c.interval)
  }

  // ---- Blocks of a grouped flush ----

  /** The records up to the first of another scope, and the rest. */
  function RunLength(rs: seq<Rec>, scope: nat): (k: nat)
    ensures k <= |rs| && (forall i :: 0 <= i < k ==> rs[i].scope == scope) && (k < |rs| ==> rs[k].scope != scope)
  {
    if rs == [] || rs[0].scope != scope then 0 else 1 + RunLength(rs[1..], scope)
  }

  /** One block a run of equal scopes. */
  function Groups(rs: seq<Rec>, start: nat): seq<Block>
    decreases |rs|
  {
    if rs == [] then []
    else
      var k := RunLength(rs, rs[0].scope);
      [Block(start, rs[..k])] + Groups(rs[k..], start)
  }

  /** Emitting within a scope: the run joins the open block. */
  lemma {:induction false} EmitRun(o: Out, start: nat, cur: nat, rs: seq<Rec>)
    requires cur != NO_SCOPE && forall i :: 0 <= i < |rs| ==> rs[i].scope != NO_SCOPE
    ensures var k := RunLength(rs, cur);
            EmitFrom(o, start, cur, rs) ==
            EmitFrom(Flush(o.(vc := o.vc.(changes := o.vc.changes + rs[..k]))), start, NO_SCOPE, rs[k..])
    decreases |rs|
  {
    var k := RunLength(rs, cur);
    if rs == [] {
      assert o.vc.changes + [] == o.vc.changes;
    } else if rs[0].scope != cur {
      assert rs[..0] == [] && rs[0..] == rs && o.vc.changes + [] == o.vc.changes;
    } else {
      EmitRun(Change(o, rs[0]), start, cur, rs[1..]);
      assert (o.vc.changes + [rs[0]]) + rs[1..][..k - 1] == o.vc.changes + rs[..k];
      assert rs[1..][k - 1..] == rs[k..];
    }
  }

  /** The loop emits the groups, one finished block each. */
  lemma {:induction false} EmitGroups(o: Out, start: nat, rs: seq<Rec>)
    requires forall i :: 0 <= i < |rs| ==> rs[i].scope != NO_SCOPE
    ensures EmitFrom(o, start, NO_SCOPE, rs).done == o.done + Groups(rs, start)
    ensures !o.active || rs != [] ==> !EmitFrom(o, start, NO_SCOPE, rs).active
    decreases |rs|
  {
    hide EmitFrom, RunLength, Groups;
    if rs == [] {
      EmitNothing(o, start);
      assert o.done + [] == o.done;
    } else {
      var flushed := EmitFirst(o, start, rs);
      var k := RunLength(rs, rs[0].scope);
      EmitGroups(flushed, start, rs[k..]);
      FirstGroup(rs, start);
      assert (o.done + [Block(start, rs[..k])]) + Groups(rs[k..], start) == o.done + ([Block(start, rs[..k])] + Groups(rs[k..], start));
    }
  }

  lemma EmitNothing(o: Out, start: nat)
    ensures EmitFrom(o, start, NO_SCOPE, []) == o && Groups([], start) == []
  {
  }

  lemma FirstGroup(rs: seq<Rec>, start: nat)
    requires rs != []
    ensures var k := RunLength(rs, rs[0].scope);
            k >= 1 && Groups(rs, start) == [Block(start, rs[..k])] + Groups(rs[k..], start)
  {
  }

  lemma EmitFirst(o: Out, start: nat, rs: seq<Rec>) returns (flushed: Out)
    requires rs != [] && forall i :: 0 <= i < |rs| ==> rs[i].scope != NO_SCOPE
    ensures var k := RunLength(rs, rs[0].scope);
            k >= 1 && flushed.done == o.done + [Block(start, rs[..k])] && !flushed.active &&
            EmitFrom(o, start, NO_SCOPE, rs) == EmitFrom(flushed, start, NO_SCOPE, rs[k..])
  {
    hide Groups;
    var k := RunLength(rs, rs[0].scope);
    var first := Change(Begin(o, start), rs[0]);
    EmitRun(first, start, rs[0].scope, rs[1..]);
    assert RunLength(rs[1..], rs[0].scope) == k - 1;
    assert first.vc.changes == [rs[0]] && first.vc.changes + rs[1..][..k - 1] == rs[..k] && rs[1..][k - 1..] == rs[k..];
    flushed := Flush(first.(vc := first.vc.(changes := first.vc.changes + rs[1..][..k - 1])));
  }

  lemma {:induction false} GroupsHoldAll(rs: seq<Rec>, start: nat)
    ensures AllOf(Groups(rs, start)) == rs
    ensures forall b :: b in Groups(rs, start) ==> b.start == start && forall r :: r in b.changes ==> r in rs
    decreases |rs|
  {
    hide RunLength, Groups;
    if rs == [] {
      EmitNothing(START.out, start);
    } else {
      var k := RunLength(rs, rs[0].scope);
      var first, more := Block(start, rs[..k]), Groups(rs[k..], start);
      FirstGroup(rs, start);
      GroupsHoldAll(rs[k..], start);
      assert rs == rs[..k] + rs[k..];
      AllOfJoin(first, more);
    }
  }

  lemma AllOfJoin(b: Block, more: seq<Block>)
    ensures AllOf([b] + more) == b.changes + AllOf(more)
  {
    AllOfAppend([b], more);
    assert [b][..0] == [];
    assert AllOf([b]) == [] + b.changes;
  }

  lemma {:induction false} AllOfAppend(a: seq<Block>, b: seq<Block>)
    ensures AllOf(a + b) == AllOf(a) + AllOf(b)
    decreases |b|
  {
    if b == [] {
      assert a + b == a && AllOf(a) + [] == AllOf(a);
    } else {
      var init := b[..|b| - 1];
      assert (a + b)[..|a + b| - 1] == a + init;
      AllOfAppend(a, init);
      assert (AllOf(a) + AllOf(init)) + b[|b| - 1].changes == AllOf(a) + (AllOf(init) + b[|b| - 1].changes);
    }
  }

  lemma ScopeOrderTotal()
    ensures S.Total(ByScope)
  {
  }

  /** The scope of a group. */
  function ScopeOf(b: Block): nat {
    if b.changes == [] then NO_SCOPE else b.changes[0].scope
  }

  function OfScope(rs: seq<Rec>, scope: nat): seq<Rec> {
    if rs == [] then [] else (if rs[0].scope == scope then [rs[0]] else []) + OfScope(rs[1..], scope)
  }

  lemma {:induction false} OfScopeAppend(a: seq<Rec>, b: seq<Rec>, scope: nat)
    ensures OfScope(a + b, scope) == OfScope(a, scope) + OfScope(b, scope)
    decreases |a|
  {
    if a == [] {
      assert a + b == b && OfScope(a, scope) + OfScope(b, scope) == OfScope(b, scope);
    } else {
      assert (a + b)[1..] == a[1..] + b && (a + b)[0] == a[0];
      OfScopeAppend(a[1..], b, scope);
      var first := if a[0].scope == scope then [a[0]] else [];
      assert first + (OfScope(a[1..], scope) + OfScope(b, scope)) == (first + OfScope(a[1..], scope)) + OfScope(b, scope);
    }
  }

  lemma {:induction false} OfScopeAll(rs: seq<Rec>, scope: nat)
    ensures (forall i :: 0 <= i < |rs| ==> rs[i].scope == scope) ==> OfScope(rs, scope) == rs
    ensures (forall i :: 0 <= i < |rs| ==> rs[i].scope != scope) ==> OfScope(rs, scope) == []
    decreases |rs|
  {
    if rs != [] {
      OfScopeAll(rs[1..], scope);
      assert rs == [rs[0]] + rs[1..];
    }
  }

  ghost predicate ScopesRise(rs: seq<Rec>) {
    forall i, j :: 0 <= i < j < |rs| ==> rs[i].scope <= rs[j].scope
  }

  ghost predicate ScopesClimb(gs: seq<Block>) {
    forall i, j :: 0 <= i < j < |gs| ==> ScopeOf(gs[i]) < ScopeOf(gs[j])
  }

  ghost predicate EachHolds(gs: seq<Block>, rs: seq<Rec>) {
    forall i :: 0 <= i < |gs| ==> gs[i].changes != [] && gs[i].changes == OfScope(rs, ScopeOf(gs[i]))
  }

  ghost predicate AllCovered(gs: seq<Block>, rs: seq<Rec>) {
    forall r :: r in rs ==> exists i :: 0 <= i < |gs| && ScopeOf(gs[i]) == r.scope
  }

  /** Of records in scope order, the groups have rising scopes, so there is one a scope, and each holds
      exactly its scope's records. */
  lemma {:induction false} GroupsByScope(rs: seq<Rec>, start: nat)
    requires ScopesRise(rs)
    ensures var gs := Groups(rs, start);
            ScopesClimb(gs) && EachHolds(gs, rs) && AllCovered(gs, rs)
    decreases |rs|
  {
    if rs != [] {
      hide ScopesRise, ScopesClimb, EachHolds, AllCovered;
      GroupsSplit(rs, start);
      var k := RunLength(rs, rs[0].scope);
      GroupsByScope(rs[k..], start);
      LaterScopes(rs, k, start);
      JoinHolds(rs, k, start);
      JoinCovers(rs, k, start);
    }
  }

  lemma GroupsSplit(rs: seq<Rec>, start: nat)
    requires ScopesRise(rs) && rs != []
    ensures var k := RunLength(rs, rs[0].scope);
            1 <= k <= |rs| && ScopesRise(rs[k..]) && forall i :: k <= i < |rs| ==> rs[i].scope > rs[0].scope
  {
    var k := RunLength(rs, rs[0].scope);
    forall i | k <= i < |rs|
      ensures rs[i].scope > rs[0].scope
    {
      assert rs[k].scope >= rs[0].scope && rs[i].scope >= rs[k].scope;
    }
  }

  lemma LaterScopes(rs: seq<Rec>, k: nat, start: nat)
    requires rs != [] && k == RunLength(rs, rs[0].scope) >= 1 && ScopesClimb(Groups(rs[k..], start))
    requires (forall j :: k <= j < |rs| ==> rs[j].scope > rs[0].scope) && EachHolds(Groups(rs[k..], start), rs[k..])
    ensures ScopesClimb(Groups(rs, start))
    ensures forall i :: 0 <= i < |Groups(rs[k..], start)| ==> ScopeOf(Groups(rs[k..], start)[i]) > rs[0].scope
  {
    hide RunLength, OfScope, Groups;
    FirstGroup(rs, start);
    var later := Groups(rs[k..], start);
    var gs := Groups(rs, start);
    assert gs == [Block(start, rs[..k])] + later && ScopeOf(gs[0]) == rs[0].scope;
    forall i | 0 <= i < |later|
      ensures ScopeOf(later[i]) > rs[0].scope
    {
      LaterScope(rs, k, start, i);
    }
  }

  lemma JoinHolds(rs: seq<Rec>, k: nat, start: nat)
    requires rs != [] && k == RunLength(rs, rs[0].scope) >= 1 && EachHolds(Groups(rs[k..], start), rs[k..])
    requires forall j :: k <= j < |rs| ==> rs[j].scope > rs[0].scope
    requires forall i :: 0 <= i < |Groups(rs[k..], start)| ==> ScopeOf(Groups(rs[k..], start)[i]) > rs[0].scope
    ensures EachHolds(Groups(rs, start), rs)
  {
    hide RunLength, OfScope, Groups;
    FirstGroup(rs, start);
    var scope, later, head := rs[0].scope, Groups(rs[k..], start), rs[..k];
    var gs := Groups(rs, start);
    assert gs == [Block(start, head)] + later && ScopeOf(gs[0]) == scope && head[0] == rs[0];
    assert rs == head + rs[k..];
    assert forall i :: 0 <= i < k ==> head[i].scope == scope;
    OfScopeAppend(head, rs[k..], scope);
    OfScopeAll(head, scope);
    OfScopeAll(rs[k..], scope);
    assert head + [] == head;
    forall i | 0 <= i < |later|
      ensures later[i].changes == OfScope(rs, ScopeOf(later[i]))
    {
      OfScopeAppend(head, rs[k..], ScopeOf(later[i]));
      OfScopeAll(head, ScopeOf(later[i]));
      assert [] + OfScope(rs[k..], ScopeOf(later[i])) == OfScope(rs[k..], ScopeOf(later[i]));
    }
  }

  lemma JoinCovers(rs: seq<Rec>, k: nat, start: nat)
    requires rs != [] && k == RunLength(rs, rs[0].scope) >= 1 && AllCovered(Groups(rs[k..], start), rs[k..])
    ensures AllCovered(Groups(rs, start), rs)
  {
    hide RunLength, Groups;
    FirstGroup(rs, start);
    var later, head := Groups(rs[k..], start), rs[..k];
    var gs := Groups(rs, start);
    assert gs == [Block(start, head)] + later && ScopeOf(gs[0]) == rs[0].scope;
    assert rs == head + rs[k..];
    forall r | r in rs
      ensures exists i :: 0 <= i < |gs| && ScopeOf(gs[i]) == r.scope
    {
      if r in head {
        assert ScopeOf(gs[0]) == r.scope;
      } else {
        assert r in rs[k..];
        var i :| 0 <= i < |later| && ScopeOf(later[i]) == r.scope;
        assert gs[i + 1] == later[i];
      }
    }
  }

  lemma LaterScope(rs: seq<Rec>, k: nat, start: nat, i: nat)
    requires k <= |rs| && i < |Groups(rs[k..], start)| && rs != []
    requires forall j :: k <= j < |rs| ==> rs[j].scope > rs[0].scope
    requires Groups(rs[k..], start)[i].changes != []
    ensures ScopeOf(Groups(rs[k..], start)[i]) > rs[0].scope
  {
    GroupsHoldAll(rs[k..], start);
    var b := Groups(rs[k..], start)[i];
    assert b.changes[0] in b.changes && b.changes[0] in rs[k..];
  }
}
