/** Which blocks a recording writes, told by the calls alone: when each batch of changes began, what it holds,
    and how it is cut into blocks. */
module VpiFile {
  import opened Bytes
  import opened Vpi
  import opened VpiRuns
  import opened VpiStory
  import T = VpiTimes
  import S = Sorting

  /** A drain while recording that ends the batch. */
  function Ends(c: Config, past: seq<Op>, op: Op): bool
    requires op.Drain?
  {
    Recording(c, past) && (|HeldOf(c, past) + Written(c, past, op)| >= c.interval || LimitReached(c, past, op))
  }

  /** A snapshot that writes something. */
  function Shows(c: Config, past: seq<Op>, op: Op): bool {
    SignalsOf(past) != [] && ((op.DumpOn? && IsOpen(past)) || (op.DumpAll? && Recording(c, past)))
  }

  function Flushes(past: seq<Op>, op: Op): bool {
    (op.DumpOff? || op.DumpFlush? || op.EndOfSimulation?) && IsOpen(past)
  }

  /** When the batch that is being collected began: at the first drain since the last one ended.  When values
      are buffered, a drain that finds nothing held begins again. */
  function BeganAt(c: Config, past: seq<Op>): Option<nat>
    decreases |past|, 0
  {
    if past == [] then None
    else
      var op := Last(past);
      if op.Drain? && Recording(c, Init(past)) then
        (if Ends(c, Init(past), op) then None else Some(Began(c, Init(past), op.t)))
      else if Flushes(Init(past), op) || Shows(c, Init(past), op) then None
      else BeganAt(c, Init(past))
  }

  function Began(c: Config, past: seq<Op>, t: nat): nat
    decreases |past|, 1
  {
    var b := BeganAt(c, past);
    if b.Some? && (!c.grouped || HeldOf(c, past) != []) then b.value else t
  }

  /** The batch so far, if one has begun. */
  function Batch(c: Config, past: seq<Op>): seq<Block> {
    match BeganAt(c, past) case None => [] case Some(t) => [Block(t, HeldOf(c, past))]
  }

  /** The batches that have ended. */
  function Batches(c: Config, past: seq<Op>): seq<Block> {
    if past == [] then []
    else
      var before, op := Batches(c, Init(past)), Last(past);
      if op.Drain? then
        (if Ends(c, Init(past), op)
         then before + [Block(Began(c, Init(past), op.t), HeldOf(c, Init(past)) + Written(c, Init(past), op))] else before)
      else if Flushes(Init(past), op) then before + Batch(c, Init(past))
      else if Shows(c, Init(past), op) then
        before + Batch(c, Init(past)) + [Block(TimeOf(op), Written(c, Init(past), op))]
      else before
  }

  function TimeOf(op: Op): nat {
    match op case DumpOn(t, _) => t case DumpAll(t, _) => t case _ => 0
  }

  /** The blocks of a batch: itself, or when grouped one for each scope in it. */
  function BlocksOf(c: Config, b: Block): seq<Block> {
    if c.grouped then Groups(S.Sort(b.changes, ByScope), b.start) else [b]
  }

  function Filed(c: Config, bs: seq<Block>): seq<Block> {
    if bs == [] then [] else Filed(c, bs[..|bs| - 1]) + BlocksOf(c, bs[|bs| - 1])
  }

  lemma {:induction false} FiledAppend(c: Config, a: seq<Block>, b: seq<Block>)
    ensures Filed(c, a + b) == Filed(c, a) + Filed(c, b)
    decreases |b|
  {
    hide BlocksOf;
    if b == [] {
      assert a + b == a && Filed(c, a) + [] == Filed(c, a);
    } else {
      var init := b[..|b| - 1];
      assert (a + b)[..|a + b| - 1] == a + init;
      FiledAppend(c, a, init);
    }
  }

  lemma FiledOne(c: Config, b: Block)
    ensures Filed(c, [b]) == BlocksOf(c, b) && Filed(c, []) == []
  {
    hide BlocksOf;
    assert [b][..0] == [] && [] + BlocksOf(c, b) == BlocksOf(c, b);
  }

  // ---- The recorder files the same ----

  /** The block being collected began when the calls say. */
  ghost predicate BeganTold(c: Config, past: seq<Op>, s: State) {
    if c.grouped then s.pending != [] ==> BeganAt(c, past) == Some(s.start)
    else if s.active then BeganAt(c, past) == Some(s.start) else BeganAt(c, past) == None
  }

  ghost predicate Files(c: Config, past: seq<Op>, s: State) {
    s.out.done == Filed(c, Batches(c, past)) && BeganTold(c, past, s)
  }

  /** What a flush adds. */
  ghost function Added(c: Config, s: State): seq<Block> {
    if c.grouped then Groups(S.Sort(s.pending, ByScope), s.start)
    else if s.active then [Block(s.start, Held(c, s))] else []
  }

  lemma FlushFiles(c: Config, s: State, t: nat)
    requires Core(c, s)
    ensures c.grouped ==> FlushPending(s, t).out.done == s.out.done + Added(c, s)
    ensures !c.grouped ==> FlushBlock(s).out.done == s.out.done + Added(c, s) && !FlushBlock(s).active
  {
    if c.grouped {
      hide BlocksOk, Conserved, SigsOk, InTime, Groups, EmitFrom, OnePerScope;
      GroupedFlush(c, s, t);
    }
  }

  /** A told state adds the told batch. */
  lemma AddedIsBatch(c: Config, past: seq<Op>, s: State)
    requires Tells(c, past, s) && BeganTold(c, past, s) && (c.grouped ==> Held(c, s) == s.pending)
    ensures Added(c, s) == Filed(c, Batch(c, past))
  {
    hide Tells, Groups, BeganAt, HeldOf;
    assert Held(c, s) == HeldOf(c, past) by {
      HeldTold(c, past, s);
    }
    if BeganAt(c, past).Some? {
      FiledOne(c, Block(BeganAt(c, past).value, HeldOf(c, past)));
    }
    if s.pending == [] {
      NoGroups(s.start);
      if BeganAt(c, past).Some? {
        NoGroups(BeganAt(c, past).value);
      }
    }
  }

  lemma HeldTold(c: Config, past: seq<Op>, s: State)
    requires Tells(c, past, s)
    ensures Held(c, s) == HeldOf(c, past) && s.open == IsOpen(past) && s.paused == IsPaused(c, past) && s.sigs == SignalsOf(past)
  {
  }

  // ---- What the parts of a step file ----

  /** A flush of changes that began at `start`. */
  lemma FlushAll(c: Config, w: State, t: nat)
    requires Core(c, w) && (c.grouped || w.active)
    ensures c.grouped ==> FlushPending(w, t).out.done == w.out.done + BlocksOf(c, Block(w.start, Held(c, w)))
    ensures !c.grouped ==> w.out.vc == Block(w.start, Held(c, w)) && [w.out.vc] == BlocksOf(c, Block(w.start, Held(c, w)))
    ensures !c.grouped ==> FlushBlock(w).out.done == w.out.done + BlocksOf(c, Block(w.start, Held(c, w)))
  {
    hide BlocksOk, Conserved, SigsOk, InTime, Groups, EmitFrom, OnePerScope;
    if c.grouped {
      GroupedFlush(c, w, t);
    }
  }

  lemma AutoFlushFiles(c: Config, w: State, t: nat)
    requires Core(c, w) && Ready(c, w, t)
    ensures var a := AutoFlush(c, w, t);
            if |Held(c, w)| >= c.interval then
              a.out.done == w.out.done + BlocksOf(c, Block(w.start, Held(c, w))) && !a.active && a.pending == [] && a.count == 0
            else a == w
  {
    hide FlushPending, Conserved, BlocksOk, SigsOk, InTime, BlocksOf;
    FlushAll(c, w, t);
    if c.grouped {
      FlushPendingKeeps(c, w, t);
      FlushPendingLog(w, t);
    }
  }

  lemma CheckLimitFiles(c: Config, a: State, t: nat)
    requires Core(c, a) && t == a.now && a.open && !a.paused && a.count == |Held(c, a)|
    ensures var r := CheckLimit(c, a, t);
            var hit := a.limit > 0 && |Held(c, a)| * 16 >= a.limit;
            (!hit ==> r == a) &&
            (hit && (c.grouped || a.active) ==>
               r.out.done == a.out.done + BlocksOf(c, Block(a.start, Held(c, a))) && !r.active && r.pending == [])
  {
    hide Core, FlushPending, FlushBlock, BlocksOf;
    DoFlushKeeps(c, a, t);
    if c.grouped || a.active {
      FlushAll(c, a, t);
    }
  }

  lemma DrainFiles(c: Config, s: State, t: nat, values: seq<bytes>)
    requires Sound(c, s) && s.open && !s.paused && t == s.now && |values| == |s.sigs|
    ensures var s' := DrainMarks(c, s, t, values);
            var all := Held(c, s) + Marked(s, t, values, 0);
            var start := OpenIfNeeded(c, Unmarked(s), t).start;
            var ends := |all| >= c.interval || (s.limit > 0 && |all| * 16 >= s.limit);
            s'.out.done == s.out.done + (if ends then BlocksOf(c, Block(start, all)) else []) &&
            if ends then !s'.active && s'.pending == [] else s'.start == start && s'.active == !c.grouped
  {
    hide Core, Sound, Marked, AutoFlush, CheckLimit, WriteSome, SigsOk, BlocksOf;
    CoreOfSound(c, s);
    UnmarkedKeeps(c, s);
    var u, rs := Unmarked(s), Marked(s, t, values, 0);
    assert SigsOk(s.sigs) by {
      SigsOfCore(c, s);
    }
    MarkedOk(s, t, values, 0);
    var o := OpenIfNeeded(c, u, t);
    OpenKeeps(c, u, t);
    assert Held(c, o) == Held(c, s) && SameRest(u, o) && o.out.done == s.out.done && (c.grouped || o.active);
    WriteSomeKeeps(c, o, t, rs);
    T.WriteSomeHeld(c, o, rs);
    var w := WriteSome(c, o, rs);
    AutoFlushTold(c, w, t);
    AutoFlushFiles(c, w, t);
    var a := AutoFlush(c, w, t);
    CheckLimitFiles(c, a, t);
    assert s.out.done + [] == s.out.done;
    assert c.grouped ==> !o.active by {
      NotActive(c, s);
    }
  }

  lemma NotActive(c: Config, s: State)
    requires Core(c, s)
    ensures c.grouped ==> !s.active
  {
  }

  lemma SnapshotFiles(c: Config, s: State, t: nat, values: seq<bytes>)
    requires Sound(c, s) && s.open && !s.paused && t == s.now && |values| == |s.sigs| && s.sigs != []
    ensures var s' := Snapshot(c, s, t, values);
            s'.out.done == s.out.done + Added(c, s) + BlocksOf(c, Block(t, Everything(s, t, values, 0))) && !s'.active && s'.pending == []
  {
    hide Core, Sound, Everything, WriteSome, FlushPending, FlushBlock, BlocksOf, Added, SigsOk;
    CoreOfSound(c, s);
    var all := Everything(s, t, values, 0);
    assert SigsOk(s.sigs) by {
      SigsOfCore(c, s);
    }
    EverythingOk(s, t, values, 0);
    FlushFiles(c, s, t);
    if c.grouped {
      FlushPendingKeeps(c, s, t);
      FlushPendingLog(s, t);
      var f := FlushPending(s, t);
      RestartKeeps(c, f, t);
      var g := f.(start := t);
      WriteSomeKeeps(c, g, t, all);
      T.WriteSomeHeld(c, g, all);
      var w := WriteSome(c, g, all);
      assert Held(c, g) == [] && [] + all == all;
      FlushAll(c, w, t);
      FlushPendingKeeps(c, w, t);
    } else {
      FlushBlockKeeps(c, s);
      FlushBlockSame(s);
      var begun := FlushBlock(s);
      BeginKeeps(c, begun, t);
      var b := begun.(out := Begin(begun.out, t), active := true, start := t);
      WriteSomeKeeps(c, b, t, all);
      T.WriteSomeHeld(c, b, all);
      var w := WriteSome(c, b, all);
      assert Held(c, b) == [] && [] + all == all;
      FlushAll(c, w, t);
      DirectIdle(c, w);
    }
  }

  lemma DirectIdle(c: Config, s: State)
    requires Core(c, s) && !c.grouped
    ensures s.pending == []
  {
  }

  // ---- Steps ----

  lemma CallFiles(c: Config, past: seq<Op>, s: State, op: Op)
    requires |s.changed| == |s.sigs| && Legal(s, op) && Files(c, past, s)
    requires op.OpenFile? || op.AddSignal? || op.ValueChange? || op.DumpLimit?
    ensures Files(c, past + [op], Step(c, s, op))
  {
    hide Filed;
    Snoc(past, op);
  }

  lemma DrainStepFiles(c: Config, past: seq<Op>, s: State, op: Op)
    requires Sound(c, s) && |s.changed| == |s.sigs| && Legal(s, op) && Tells(c, past, s) && Files(c, past, s) && op.Drain?
    ensures Files(c, past + [op], Step(c, s, op))
  {
    hide Sound, Tells, Marked, AutoFlush, CheckLimit, Filed, BlocksOf, WriteSome, HeldOf, Recording, TouchedRecs;
    Snoc(past, op);
    var s1 := s.(now := op.t);
    HeldTold(c, past, s);
    RecordingTold(c, past, s);
    LaterKeeps(c, s, op.t);
    assert Held(c, s1) == Held(c, s);
    if s.open && !s.paused {
      DrainFiles(c, s1, op.t, op.values);
      var all := HeldOf(c, past) + Written(c, past, op);
      DrainWrites(c, past, s, s1, op);
      StartIsBegan(c, past, s, op.t);
      var b := Block(Began(c, past, op.t), all);
      FiledAppend(c, Batches(c, past), [b]);
      FiledOne(c, b);
      LimitTold(c, past, s, op);
    }
  }

  lemma RecordingTold(c: Config, past: seq<Op>, s: State)
    requires Tells(c, past, s)
    ensures Recording(c, past) <==> s.open && !s.paused
    ensures s.limit == LimitOf(past)
  {
  }

  lemma LimitTold(c: Config, past: seq<Op>, s: State, op: Op)
    requires Tells(c, past, s) && op.Drain? && s.open && !s.paused
    ensures var n := |HeldOf(c, past) + Written(c, past, op)|;
            Ends(c, past, op) <==> n >= c.interval || (s.limit > 0 && n * 16 >= s.limit)
  {
    hide HeldOf, Written, IsOpen, IsPaused, MarksTold;
    RecordingTold(c, past, s);
  }

  lemma DrainWrites(c: Config, past: seq<Op>, s: State, s1: State, op: Op)
    requires Tells(c, past, s) && op.Drain? && s.open && !s.paused && |s.changed| == |s.sigs| == |op.values|
    requires s1 == s.(now := op.t)
    ensures Marked(s1, op.t, op.values, 0) == Written(c, past, op)
  {
    hide Marked, TouchedRecs, Touched;
    RecordingTold(c, past, s);
    MarkedTold(c, past, s1, op.t, op.values, 0);
  }

  lemma StartIsBegan(c: Config, past: seq<Op>, s: State, t: nat)
    requires BeganTold(c, past, s) && Tells(c, past, s) && (c.grouped ==> s.pending == HeldOf(c, past)) && t >= s.now
    ensures OpenIfNeeded(c, Unmarked(s.(now := t)), t).start == Began(c, past, t)
  {
    hide Tells, HeldOf, BeganAt;
  }

  lemma FlushStepFiles(c: Config, past: seq<Op>, s: State, op: Op)
    requires Sound(c, s) && |s.changed| == |s.sigs| && Legal(s, op) && Tells(c, past, s) && Files(c, past, s)
    requires op.DumpOff? || op.DumpFlush? || op.EndOfSimulation?
    ensures Files(c, past + [op], Step(c, s, op))
  {
    hide Sound, Core, Tells, Filed, FlushPending, FlushBlock, Batch, Added;
    Snoc(past, op);
    var s1 := s.(now := op.t);
    HeldTold(c, past, s);
    LaterKeeps(c, s, op.t);
    CoreOfSound(c, s1);
    if s.open {
      FlushFiles(c, s1, op.t);
      DoFlushKeeps(c, s1, op.t);
      FlushedIdle(c, s1, op.t);
      assert Added(c, s1) == Added(c, s) by {
        SameAdded(c, s, s1);
      }
      AddedIsBatch(c, past, s);
      FiledAppend(c, Batches(c, past), Batch(c, past));
    } else {
      ClosedIdle(c, s1);
    }
  }

  lemma SameAdded(c: Config, s: State, s1: State)
    requires s1 == s.(now := s1.now)
    ensures Added(c, s1) == Added(c, s)
  {
    hide Groups;
    assert Held(c, s1) == Held(c, s);
  }

  lemma FlushedIdle(c: Config, s: State, t: nat)
    requires Core(c, s) && t == s.now && s.open
    ensures !DoFlush(c, s, t).out.active && !DoFlush(c, s, t).active && DoFlush(c, s, t).pending == []
  {
    hide Conserved, BlocksOk, SigsOk, InTime, EmitFrom, OnePerScope, FlushPending;
    DoFlushKeeps(c, s, t);
    if c.grouped {
      GroupedFlush(c, s, t);
    }
  }

  lemma ClosedIdle(c: Config, s: State)
    requires Core(c, s) && !s.open
    ensures !s.active && s.pending == []
  {
  }

  lemma SnapshotStepFiles(c: Config, past: seq<Op>, s: State, op: Op)
    requires Sound(c, s) && |s.changed| == |s.sigs| && Legal(s, op) && Tells(c, past, s) && Files(c, past, s)
    requires op.DumpOn? || op.DumpAll?
    ensures Files(c, past + [op], Step(c, s, op))
  {
    hide Sound, Tells, Filed, Batch, Added, Everything, AllRecs, WriteSome, FlushPending, FlushBlock, BlocksOf, SignalsOf;
    Snoc(past, op);
    HeldTold(c, past, s);
    RecordingTold(c, past, s);
    var s1 := s.(now := op.t);
    LaterKeeps(c, s, op.t);
    if s.open && (op.DumpOn? || !s.paused) && s.sigs != [] {
      ResumeKeeps(c, s1);
      var s2 := s1.(paused := false);
      assert Step(c, s, op) == Snapshot(c, s2, op.t, op.values);
      SnapshotFiles(c, s2, op.t, op.values);
      EverythingTold(s2, op.t, op.values, 0);
      assert Added(c, s2) == Added(c, s) by {
        PausedAdded(c, s, s2);
      }
      AddedIsBatch(c, past, s);
      var shown := Block(op.t, Written(c, past, op));
      FiledAppend(c, Batches(c, past) + Batch(c, past), [shown]);
      FiledAppend(c, Batches(c, past), Batch(c, past));
      FiledOne(c, shown);
    }
  }

  lemma PausedAdded(c: Config, s: State, s2: State)
    requires s2 == s.(now := s2.now, paused := false)
    ensures Added(c, s2) == Added(c, s)
  {
    hide Groups;
    assert Held(c, s2) == Held(c, s);
  }

  lemma StepFiles(c: Config, past: seq<Op>, s: State, op: Op)
    requires Sound(c, s) && |s.changed| == |s.sigs| && Legal(s, op) && Tells(c, past, s) && Files(c, past, s)
    ensures Files(c, past + [op], Step(c, s, op))
  {
    hide Sound, Legal, Tells, Files, Step;
    match op
    case Drain(_, _) => DrainStepFiles(c, past, s, op);
    case DumpOff(_) => FlushStepFiles(c, past, s, op);
    case DumpFlush(_) => FlushStepFiles(c, past, s, op);
    case EndOfSimulation(_) => FlushStepFiles(c, past, s, op);
    case DumpOn(_, _) => SnapshotStepFiles(c, past, s, op);
    case DumpAll(_, _) => SnapshotStepFiles(c, past, s, op);
    case _ => CallFiles(c, past, s, op);
  }

  lemma StartFiles(c: Config)
    ensures Files(c, [], START)
  {
  }

  lemma {:induction false} RunFiles(c: Config, past: seq<Op>, s: State, ops: seq<Op>)
    requires Sound(c, s) && BelowInterval(c, s) && LegalRun(c, s, ops) && Tells(c, past, s) && Files(c, past, s)
    ensures Files(c, past + ops, Run(c, s, ops))
    decreases |ops|
  {
    hide Sound, BelowInterval, Legal, Tells, Files, Step;
    if ops == [] {
      assert past + [] == past;
    } else {
      StepKeeps(c, s, ops[0]);
      StepTold(c, past, s, ops[0]);
      StepFiles(c, past, s, ops[0]);
      assert (past + [ops[0]]) + ops[1..] == past + ops;
      RunFiles(c, past + [ops[0]], Step(c, s, ops[0]), ops[1..]);
    }
  }

  /** After any calls the finished blocks are exactly those that the calls tell: what they wrote, cut where
      the interval, the limit, a pause, a flush or a snapshot ends a batch, each starting when it began, and
      when grouped one for each scope. */
  lemma RunIsFiled(c: Config, ops: seq<Op>)
    requires LegalRun(c, START, ops)
    ensures Run(c, START, ops).out.done == Filed(c, Batches(c, ops))
  {
    hide Run, LegalRun, Tells;
    StartIsSound(c);
    StartTold(c);
    StartFiles(c);
    RunFiles(c, [], START, ops);
    assert [] + ops == ops;
  }
}
