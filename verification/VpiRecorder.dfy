/** The recorder as the C library runs it: global state, loops over signals and over the pending buffer
    (`vpi/src/trlog_vpi_value.c`, `vpi/src/trlog_vpi.c`).  Each callback does what the state machine
    does. */
module VpiRecorder {
  import opened Bytes
  import opened Vpi
  import opened VpiRuns
  import S = Sorting

  lemma {:induction false} WriteSnoc(c: Config, s: State, rs: seq<Rec>, r: Rec)
    ensures WriteSome(c, s, rs + [r]) == WriteOne(c, WriteSome(c, s, rs), r)
    decreases |rs|
  {
    hide WriteOne;
    if rs == [] {
      assert ([] + [r])[1..] == [];
    } else {
      assert (rs + [r])[1..] == rs[1..] + [r];
      WriteSnoc(c, WriteOne(c, s, rs[0]), rs[1..], r);
    }
  }

  lemma WriteNothing(c: Config, s: State)
    ensures WriteSome(c, s, []) == s
  {
  }

  lemma MarkedStep(s: State, t: nat, values: seq<bytes>, i: nat)
    requires |s.changed| == |s.sigs| == |values| && i < |s.sigs|
    ensures Marked(s, t, values, i) == (if s.changed[i] then [RecOf(s, i, t, values[i])] else []) + Marked(s, t, values, i + 1)
  {
  }

  lemma MarkedEnd(s: State, t: nat, values: seq<bytes>)
    requires |s.changed| == |s.sigs| == |values|
    ensures Marked(s, t, values, |s.sigs|) == []
  {
  }

  /** Writing does not look at the marks. */
  lemma WriteIgnoresMarks(c: Config, s: State, r: Rec, changed: seq<bool>)
    ensures WriteOne(c, s.(changed := changed), r) == WriteOne(c, s, r).(changed := changed)
  {
    hide Change;
    if c.grouped {
      assert WriteOne(c, s, r) == s.(count := s.count + 1, log := s.log + [r], pending := s.pending + [r]);
    } else {
      assert WriteOne(c, s, r) == s.(count := s.count + 1, log := s.log + [r], out := Change(s.out, r));
    }
  }

  class Recorder {
    const c: Config
    var used: bool
    var open: bool
    var sigs: seq<Signal>
    var changed: seq<bool>
    var outstanding: bool
    var active: bool
    var start: nat
    var count: nat
    var pending: seq<Rec>
    var paused: bool
    var limit: nat
    var out: Out
    ghost var now: nat
    ghost var log: seq<Rec>

    constructor (c: Config)
      ensures this.c == c && Now() == START
    {
      this.c := c;
      used, open, sigs, changed, outstanding, active := false, false, [], [], false, false;
      start, count, pending, paused, limit, out := 0, 0, [], false, 0, Out(Block(0, []), false, []);
      now, log := 0, [];
    }

    ghost function Now(): State
      reads this
    {
      State(used, open, sigs, changed, outstanding, active, start, count, pending, paused, limit, out, now, log)
    }

    method OpenFile()
      modifies this
      ensures Now() == old(Now()).(used := true, open := true)
    {
      used, open := true, true;
    }

    method AddSignal(sig: Signal)
      modifies this
      ensures Now() == old(Now()).(sigs := old(sigs) + [sig], changed := old(changed) + [false])
    {
      sigs, changed := sigs + [sig], changed + [false];
    }

    method SetDumpLimit(n: nat)
      modifies this`limit
      ensures Now() == old(Now()).(limit := n)
    {
      limit := n;
    }

    /** `trlog_vc_callback`. */
    method ValueChange(idx: int)
      requires |changed| == |sigs|
      modifies this
      ensures Now() == MarkSignal(old(Now()), idx)
    {
      if !open || paused || idx < 0 || idx >= |sigs| {
        return;
      }
      changed := changed[idx := true];
      if !outstanding {
        outstanding := true;
      }
    }

    method WriteSignalValue(r: Rec)
      modifies this
      ensures Now() == WriteOne(c, old(Now()), r)
    {
      if c.grouped {
        pending := pending + [r];
      } else {
        out := Change(out, r);
      }
      count := count + 1;
      log := log + [r];
    }

    /** The records in order; a change of scope ends a block. */
    method EmitSorted(rs: seq<Rec>)
      modifies this`out
      ensures out == EmitFrom(old(out), start, NO_SCOPE, rs)
    {
      var cur := NO_SCOPE;
      ghost var whole := EmitFrom(out, start, NO_SCOPE, rs);
      assert rs[0..] == rs;
      for i := 0 to |rs|
        invariant EmitFrom(out, start, cur, rs[i..]) == whole
      {
        assert rs[i..][0] == rs[i] && rs[i..][1..] == rs[i + 1..];
        if rs[i].scope != cur {
          if cur != NO_SCOPE {
            out := Flush(out);
          }
          out := Begin(out, start);
          cur := rs[i].scope;
        }
        out := Change(out, rs[i]);
      }
      if cur != NO_SCOPE {
        out := Flush(out);
      }
    }

    /** `trlog_vpi_flush_pending`: the buffer is sorted by scope, and each scope gets a block. */
    method FlushPendingBuffer(t: nat)
      modifies this
      ensures Now() == FlushPending(old(Now()), t)
    {
      hide EmitFrom, ByScope;
      if pending == [] {
        return;
      }
      EmitSorted(S.Sort(pending, ByScope));
      pending, count, start := [], 0, t;
    }

    method FlushOpenBlock()
      modifies this
      ensures Now() == FlushBlock(old(Now()))
    {
      if active {
        out := Flush(out);
        active, count := false, 0;
      }
    }

    /** `do_flush`. */
    method FlushAny(t: nat)
      modifies this
      ensures Now() == DoFlush(c, old(Now()), t)
    {
      hide FlushPending, FlushBlock;
      if !open {
        return;
      }
      if c.grouped {
        if pending != [] {
          FlushPendingBuffer(t);
        } else {
          NoPending(Now(), t);
        }
      } else {
        FlushOpenBlock();
      }
    }

    static lemma NoPending(s: State, t: nat)
      requires s.pending == []
      ensures FlushPending(s, t) == s
    {
    }

    /** `check_dump_limit`. */
    method CheckDumpLimit(t: nat)
      modifies this
      ensures Now() == CheckLimit(c, old(Now()), t)
    {
      hide FlushPending, FlushBlock;
      if limit == 0 || !open || paused {
        return;
      }
      if count * 16 >= limit {
        if c.grouped {
          FlushPendingBuffer(t);
        } else {
          FlushOpenBlock();
        }
        paused := true;
      }
    }

    /** The values of the marked signals, each mark cleared before its value is written. */
    method WriteMarked(t: nat, values: seq<bytes>, ghost s0: State, ghost base: State)
      requires |changed| == |sigs| == |values| && s0.sigs == sigs && s0.changed == changed
      requires Now() == base.(changed := changed) && base.changed == seq(|changed|, _ => false)
      modifies this
      ensures Now() == WriteSome(c, base, Marked(s0, t, values, 0))
    {
      hide WriteOne, WriteSome, Marked;
      ghost var done: seq<Rec> := [];
      WriteNothing(c, base);
      for i := 0 to |sigs|
        invariant sigs == s0.sigs && |changed| == |sigs|
        invariant forall k :: 0 <= k < |changed| ==> changed[k] == (k >= i && s0.changed[k])
        invariant Now() == WriteSome(c, base, done).(changed := changed)
        invariant done + Marked(s0, t, values, i) == Marked(s0, t, values, 0)
      {
        MarkedStep(s0, t, values, i);
        ghost var more := Marked(s0, t, values, i + 1);
        if changed[i] {
          changed := changed[i := false];
          var r := Rec(sigs[i].scope, sigs[i].id, t, values[i]);
          WriteIgnoresMarks(c, WriteSome(c, base, done), r, changed);
          WriteSnoc(c, base, done, r);
          assert done + ([r] + more) == (done + [r]) + more;
          WriteKeepsSigs(c, Now(), r);
          done := done + [r];
          WriteSignalValue(r);
        } else {
          assert [] + more == more;
        }
      }
      MarkedEnd(s0, t, values);
      assert done == Marked(s0, t, values, 0);
      assert changed == base.changed;
      WriteKeepsMarks(c, base, done);
    }

    static lemma WriteKeepsSigs(c: Config, s: State, r: Rec)
      ensures WriteOne(c, s, r).sigs == s.sigs && WriteOne(c, s, r).changed == s.changed
    {
    }

    static lemma {:induction false} WriteKeepsMarks(c: Config, s: State, rs: seq<Rec>)
      ensures WriteSome(c, s, rs).changed == s.changed && WriteSome(c, s, rs).sigs == s.sigs
      decreases |rs|
    {
      if rs != [] {
        WriteKeepsMarks(c, WriteOne(c, s, rs[0]), rs[1..]);
      }
    }

    /** `trlog_delta_callback`. */
    method DeltaCallback(t: nat, values: seq<bytes>)
      requires |changed| == |sigs| == |values|
      modifies this
      ensures Now() == DrainMarks(c, old(Now()), t, values)
    {
      hide WriteSome, Marked, AutoFlush, CheckLimit;
      if !open || paused {
        outstanding := false;
        changed := seq(|changed|, _ => false);
        return;
      }
      ghost var s0 := Now();
      ghost var base := OpenIfNeeded(c, Unmarked(s0), t);
      outstanding := false;
      if !c.grouped {
        if !active {
          out := Begin(out, t);
          active, start := true, t;
        }
      } else if pending == [] {
        start := t;
      }
      WriteMarked(t, values, s0, base);
      AutoFlushNow(t);
      CheckDumpLimit(t);
    }

    method AutoFlushNow(t: nat)
      modifies this
      ensures Now() == AutoFlush(c, old(Now()), t)
    {
      hide FlushPending;
      if c.grouped {
        if count >= c.interval {
          FlushPendingBuffer(t);
        }
      } else if count >= c.interval {
        out := Flush(out);
        active, count := false, 0;
      }
    }

    /** `trlog_snapshot_all`. */
    method SnapshotAll(t: nat, values: seq<bytes>)
      requires |sigs| == |values|
      modifies this
      ensures Now() == Snapshot(c, old(Now()), t, values)
    {
      hide WriteSome, Everything, FlushPending, FlushBlock;
      if !open || sigs == [] {
        return;
      }
      if c.grouped {
        SnapshotPending(t, values);
      } else {
        SnapshotBlock(t, values);
      }
    }

    method SnapshotPending(t: nat, values: seq<bytes>)
      requires |sigs| == |values| && c.grouped && open && sigs != []
      modifies this
      ensures Now() == Snapshot(c, old(Now()), t, values)
    {
      hide WriteSome, Everything, FlushPending;
      ghost var s0 := Now();
      FlushPendingLog(s0, t);
      if pending != [] {
        FlushPendingBuffer(t);
      } else {
        NoPending(Now(), t);
      }
      start := t;
      WriteEverything(t, values, s0, Now());
      FlushPendingBuffer(t);
      active, count := false, 0;
    }

    method SnapshotBlock(t: nat, values: seq<bytes>)
      requires |sigs| == |values| && !c.grouped && open && sigs != []
      modifies this
      ensures Now() == Snapshot(c, old(Now()), t, values)
    {
      hide WriteSome, Everything, FlushBlock;
      ghost var s0 := Now();
      FlushBlockSame(s0);
      FlushOpenBlock();
      out := Begin(out, t);
      active, start := true, t;
      WriteEverything(t, values, s0, Now());
      out := Flush(out);
      active, count := false, 0;
    }

    method WriteEverything(t: nat, values: seq<bytes>, ghost s0: State, ghost base: State)
      requires |sigs| == |values| && s0.sigs == sigs && Now() == base
      modifies this
      ensures Now() == WriteSome(c, base, Everything(s0, t, values, 0))
    {
      hide WriteOne, WriteSome;
      ghost var done: seq<Rec> := [];
      WriteNothing(c, base);
      for i := 0 to |sigs|
        invariant sigs == s0.sigs && Now() == WriteSome(c, base, done)
        invariant done + Everything(s0, t, values, i) == Everything(s0, t, values, 0)
      {
        ghost var more := Everything(s0, t, values, i + 1);
        var r := Rec(sigs[i].scope, sigs[i].id, t, values[i]);
        assert Everything(s0, t, values, i) == [r] + more;
        assert done + ([r] + more) == (done + [r]) + more;
        WriteSnoc(c, base, done, r);
        WriteKeepsSigs(c, Now(), r);
        done := done + [r];
        WriteSignalValue(r);
      }
      assert done + [] == done;
    }

    // ---- System tasks ----

    /** Time moves on to the moment of the call. */
    ghost method At(t: nat)
      modifies this`now
      ensures now == t
    {
      now := t;
    }

    method Drain(t: nat, values: seq<bytes>)
      requires Sound(c, Now()) && Legal(Now(), Op.Drain(t, values)) && BelowInterval(c, Now())
      modifies this
      ensures |old(changed)| == |old(sigs)| && Now() == Step(c, old(Now()), Op.Drain(t, values))
      ensures Sound(c, Now()) && BelowInterval(c, Now())
    {
      MarksSized(c, Now());
      StepKeeps(c, Now(), Op.Drain(t, values));
      hide Sound, DrainMarks;
      At(t);
      DeltaCallback(t, values);
    }

    method DumpOff(t: nat)
      requires Sound(c, Now()) && Legal(Now(), Op.DumpOff(t)) && BelowInterval(c, Now())
      modifies this
      ensures |old(changed)| == |old(sigs)| && Now() == Step(c, old(Now()), Op.DumpOff(t))
      ensures Sound(c, Now()) && BelowInterval(c, Now())
    {
      MarksSized(c, Now());
      StepKeeps(c, Now(), Op.DumpOff(t));
      hide Sound, DoFlush;
      At(t);
      if !open {
        return;
      }
      FlushAny(t);
      paused := true;
    }

    method DumpOn(t: nat, values: seq<bytes>)
      requires Sound(c, Now()) && Legal(Now(), Op.DumpOn(t, values)) && BelowInterval(c, Now())
      modifies this
      ensures |old(changed)| == |old(sigs)| && Now() == Step(c, old(Now()), Op.DumpOn(t, values))
      ensures Sound(c, Now()) && BelowInterval(c, Now())
    {
      MarksSized(c, Now());
      StepKeeps(c, Now(), Op.DumpOn(t, values));
      hide Sound, Snapshot;
      At(t);
      if !open {
        return;
      }
      paused := false;
      SnapshotAll(t, values);
    }

    method DumpFlush(t: nat)
      requires Sound(c, Now()) && Legal(Now(), Op.DumpFlush(t)) && BelowInterval(c, Now())
      modifies this
      ensures |old(changed)| == |old(sigs)| && Now() == Step(c, old(Now()), Op.DumpFlush(t))
      ensures Sound(c, Now()) && BelowInterval(c, Now())
    {
      MarksSized(c, Now());
      StepKeeps(c, Now(), Op.DumpFlush(t));
      hide Sound, DoFlush;
      At(t);
      FlushAny(t);
    }

    method DumpAll(t: nat, values: seq<bytes>)
      requires Sound(c, Now()) && Legal(Now(), Op.DumpAll(t, values)) && BelowInterval(c, Now())
      modifies this
      ensures |old(changed)| == |old(sigs)| && Now() == Step(c, old(Now()), Op.DumpAll(t, values))
      ensures Sound(c, Now()) && BelowInterval(c, Now())
    {
      MarksSized(c, Now());
      StepKeeps(c, Now(), Op.DumpAll(t, values));
      hide Sound, Snapshot;
      At(t);
      if paused {
        return;
      }
      SnapshotAll(t, values);
    }

    /** The last block is written and the library's state is cleared. */
    method EndOfSimulation(t: nat)
      requires Sound(c, Now()) && Legal(Now(), Op.EndOfSimulation(t)) && BelowInterval(c, Now())
      modifies this
      ensures |old(changed)| == |old(sigs)| && Now() == Step(c, old(Now()), Op.EndOfSimulation(t))
      ensures Sound(c, Now()) && BelowInterval(c, Now()) && multiset(log) == multiset(AllOf(out.done))
    {
      MarksSized(c, Now());
      StepKeeps(c, Now(), Op.EndOfSimulation(t));
      LaterKeeps(c, Now(), t);
      EndKeeps(c, Now().(now := t), t);
      hide Sound, Closed, AllOf;
      At(t);
      CloseWriter(t);
    }

    method CloseWriter(t: nat)
      modifies this
      ensures Now() == Closed(c, old(Now()), t)
    {
      hide DoFlush;
      FlushKeepsRest(c, Now(), t);
      FlushAny(t);
      if open && out.active {
        out := Flush(out);
      }
      ClearState();
    }

    /** `trlog_vpi_state_destroy`; the file stays with what was written. */
    method ClearState()
      modifies this
      ensures used == old(used) && out == old(out) && now == old(now) && log == old(log)
      ensures !open && sigs == [] && changed == [] && !outstanding && !active
      ensures start == 0 && count == 0 && pending == [] && !paused && limit == 0
    {
      open, sigs, changed, outstanding, active := false, [], [], false, false;
      start, count, pending, paused, limit := 0, 0, [], false, 0;
    }

    static lemma FlushKeepsRest(c: Config, s: State, t: nat)
      ensures DoFlush(c, s, t).open == s.open && DoFlush(c, s, t).used == s.used
    {
      hide FlushPending, FlushBlock;
      FlushPendingLog(s, t);
      FlushBlockSame(s);
    }
  }
}
