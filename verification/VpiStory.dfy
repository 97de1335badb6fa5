/** What a recording holds, told by the calls alone: which signals are marked, whether recording is paused, what
    is written at which call and what is still held.  The buffers, marks and counters of the recorder are then
    proved to say the same after any calls. */
module VpiStory {
  import opened Bytes
  import opened Vpi
  import opened VpiRuns
  import T = VpiTimes

  function Init(past: seq<Op>): seq<Op>
    requires past != []
  {
    past[..|past| - 1]
  }

  function Last(past: seq<Op>): Op
    requires past != []
  {
    past[|past| - 1]
  }

  /** A file is open from its opening to the end of the simulation. */
  function IsOpen(past: seq<Op>): bool {
    past != [] && (Last(past).OpenFile? || (!Last(past).EndOfSimulation? && IsOpen(Init(past))))
  }

  function SignalsOf(past: seq<Op>): seq<Signal> {
    if past == [] || Last(past).EndOfSimulation? then []
    else SignalsOf(Init(past)) + if Last(past).AddSignal? then [Last(past).sig] else []
  }

  function LimitOf(past: seq<Op>): nat {
    if past == [] || Last(past).EndOfSimulation? then 0
    else if Last(past).DumpLimit? then Last(past).n
    else LimitOf(Init(past))
  }

  function Recording(c: Config, past: seq<Op>): bool
    decreases |past|, 1
  {
    IsOpen(past) && !IsPaused(c, past)
  }

  /** Paused by `$dumpoff`, or by a drain after which the held changes reach the limit; resumed by `$dumpon`. */
  function IsPaused(c: Config, past: seq<Op>): bool
    decreases |past|, 0
  {
    past != [] &&
    match Last(past)
    case DumpOff(_) => IsOpen(Init(past)) || IsPaused(c, Init(past))
    case DumpOn(_, _) => !IsOpen(Init(past)) && IsPaused(c, Init(past))
    case Drain(_, _) => IsPaused(c, Init(past)) || LimitReached(c, Init(past), Last(past))
    case EndOfSimulation(_) => false
    case _ => IsPaused(c, Init(past))
  }

  function LimitReached(c: Config, past: seq<Op>, op: Op): bool
    requires op.Drain?
    decreases |past|, 3
  {
    var n := |HeldOf(c, past) + Written(c, past, op)|;
    Recording(c, past) && n < c.interval && LimitOf(past) > 0 && n * 16 >= LimitOf(past)
  }

  /** Since the last drain a change of the `i`-th signal has come in while recording. */
  function Touched(c: Config, past: seq<Op>, i: nat): bool
    decreases |past|, 0
  {
    past != [] && !Last(past).Drain? && !Last(past).EndOfSimulation? &&
    (Touched(c, Init(past), i) || (Last(past) == ValueChange(i) && i < |SignalsOf(past)| && Recording(c, Init(past))))
  }

  function Value(values: seq<bytes>, i: nat): bytes {
    if i < |values| then values[i] else []
  }

  /** The touched signals in order, each with its value. */
  function TouchedRecs(c: Config, past: seq<Op>, t: nat, values: seq<bytes>, i: nat): seq<Rec>
    decreases |past|, 1, |SignalsOf(past)| - i
  {
    var sigs := SignalsOf(past);
    if i >= |sigs| then []
    else
      (if Touched(c, past, i) then [Rec(sigs[i].scope, sigs[i].id, t, Value(values, i))] else [])
      + TouchedRecs(c, past, t, values, i + 1)
  }

  function AllRecs(sigs: seq<Signal>, t: nat, values: seq<bytes>, i: nat): seq<Rec>
    decreases |sigs| - i
  {
    if i >= |sigs| then []
    else [Rec(sigs[i].scope, sigs[i].id, t, Value(values, i))] + AllRecs(sigs, t, values, i + 1)
  }

  /** What a call writes: a drain the touched signals, a snapshot all of them. */
  function Written(c: Config, past: seq<Op>, op: Op): seq<Rec>
    decreases |past|, 2
  {
    match op
    case Drain(t, values) => if Recording(c, past) then TouchedRecs(c, past, t, values, 0) else []
    case DumpOn(t, values) => if IsOpen(past) then AllRecs(SignalsOf(past), t, values, 0) else []
    case DumpAll(t, values) => if Recording(c, past) then AllRecs(SignalsOf(past), t, values, 0) else []
    case _ => []
  }

  /** What has been written and is not yet in a finished block: all of it goes when the interval or the limit is
      reached, when recording pauses, at a flush and before a snapshot. */
  function HeldOf(c: Config, past: seq<Op>): seq<Rec>
    decreases |past|, 0
  {
    if past == [] then []
    else
      var before, op := HeldOf(c, Init(past)), Last(past);
      var open := IsOpen(Init(past));
      match op
      case Drain(_, _) =>
        var all := before + Written(c, Init(past), op);
        if Recording(c, Init(past)) && (|all| >= c.interval || LimitReached(c, Init(past), op)) then [] else all
      case DumpOff(_) => if open then [] else before
      case DumpFlush(_) => if open then [] else before
      case DumpOn(_, _) => if open && SignalsOf(Init(past)) != [] then [] else before
      case DumpAll(_, _) => if Recording(c, Init(past)) && SignalsOf(Init(past)) != [] then [] else before
      case EndOfSimulation(_) => []
      case _ => before
  }

  /** Everything written so far. */
  function Story(c: Config, past: seq<Op>): seq<Rec> {
    if past == [] then [] else Story(c, Init(past)) + Written(c, Init(past), Last(past))
  }

  // ---- The marks, as a reader of the calls would put it ----

  /** A signal is touched exactly if some change of it came in while recording, and no drain has been since. */
  lemma {:induction false} TouchedMeans(c: Config, past: seq<Op>, i: nat)
    ensures Touched(c, past, i) <==> exists k :: LetIn(c, past, i, k)
    decreases |past|
  {
    hide SignalsOf, Recording;
    if past != [] {
      TouchedMeans(c, Init(past), i);
      var n := |past| - 1;
      if Touched(c, Init(past), i) && Touched(c, past, i) {
        var k :| LetIn(c, Init(past), i, k);
        assert Init(past)[..k] == past[..k] && Init(past)[..k + 1] == past[..k + 1];
        assert LetIn(c, past, i, k);
      }
      if Touched(c, past, i) && !Touched(c, Init(past), i) {
        assert past[..n] == Init(past) && past[..n + 1] == past;
        assert LetIn(c, past, i, n);
      }
      if k :| LetIn(c, past, i, k) {
        assert past[..n] == Init(past) && past[..n + 1] == past;
        if k < n {
          assert Init(past)[..k] == past[..k] && Init(past)[..k + 1] == past[..k + 1];
          assert LetIn(c, Init(past), i, k);
        }
      }
    }
  }

  /** The `k`-th call is a change of the signal while recording, and no drain follows it. */
  ghost predicate LetIn(c: Config, past: seq<Op>, i: nat, k: int) {
    0 <= k < |past| && past[k] == ValueChange(i) && i < |SignalsOf(past[..k + 1])| && Recording(c, past[..k]) &&
    forall j :: k < j < |past| ==> !past[j].Drain? && !past[j].EndOfSimulation?
  }

  // ---- The recorder says the same ----

  lemma {:induction false} TouchedInRange(c: Config, past: seq<Op>, i: nat)
    ensures Touched(c, past, i) ==> i < |SignalsOf(past)|
    decreases |past|
  {
    if past != [] {
      TouchedInRange(c, Init(past), i);
    }
  }

  /** The recorder's state is the one the calls tell. */
  ghost predicate Tells(c: Config, past: seq<Op>, s: State) {
    && s.open == IsOpen(past) && s.sigs == SignalsOf(past) && s.limit == LimitOf(past)
    && s.paused == IsPaused(c, past) && MarksTold(c, past, s)
    && Held(c, s) == HeldOf(c, past) && s.log == Story(c, past)
  }

  ghost predicate MarksTold(c: Config, past: seq<Op>, s: State) {
    |s.changed| == |SignalsOf(past)| && forall i :: 0 <= i < |s.changed| ==> (s.changed[i] <==> Touched(c, past, i))
  }

  lemma {:induction false} MarkedTold(c: Config, past: seq<Op>, s: State, t: nat, values: seq<bytes>, i: nat)
    requires s.sigs == SignalsOf(past) && MarksTold(c, past, s) && |values| == |s.sigs| && i <= |s.sigs|
    ensures Marked(s, t, values, i) == TouchedRecs(c, past, t, values, i)
    decreases |s.sigs| - i
  {
    hide Touched, SignalsOf;
    if i < |s.sigs| {
      MarkedTold(c, past, s, t, values, i + 1);
    }
  }

  lemma {:induction false} EverythingTold(s: State, t: nat, values: seq<bytes>, i: nat)
    requires |values| == |s.sigs| && i <= |s.sigs|
    ensures Everything(s, t, values, i) == AllRecs(s.sigs, t, values, i)
    decreases |s.sigs| - i
  {
    if i < |s.sigs| {
      EverythingTold(s, t, values, i + 1);
    }
  }

  // ---- What the parts of a step do to the told fields ----

  /** Everything told but what is held and written. */
  ghost predicate SameRest(s: State, s': State) {
    s'.open == s.open && s'.sigs == s.sigs && s'.changed == s.changed && s'.limit == s.limit
  }

  lemma DoFlushTold(c: Config, s: State, t: nat)
    requires Core(c, s) && t == s.now
    ensures var f := DoFlush(c, s, t);
            SameRest(s, f) && f.paused == s.paused && f.log == s.log && Held(c, f) == []
    ensures !s.open ==> Held(c, s) == []
  {
    hide Core, FlushPending, FlushBlock;
    DoFlushKeeps(c, s, t);
    FlushPendingLog(s, t);
    FlushBlockSame(s);
  }

  lemma AutoFlushTold(c: Config, w: State, t: nat)
    requires Core(c, w) && Ready(c, w, t)
    ensures var a := AutoFlush(c, w, t);
            SameRest(w, a) && a.paused == w.paused && a.log == w.log && Core(c, a) && a.now == t && BelowInterval(c, a) &&
            Held(c, a) == (if |Held(c, w)| >= c.interval then [] else Held(c, w)) && a.count == |Held(c, a)|
  {
    hide FlushPending, Conserved, BlocksOk, SigsOk, InTime;
    AutoFlushKeeps(c, w, t);
    if w.count >= c.interval {
      if c.grouped {
        FlushPendingKeeps(c, w, t);
        FlushPendingLog(w, t);
      }
    }
  }

  lemma CheckLimitTold(c: Config, a: State, t: nat)
    requires Core(c, a) && t == a.now && a.open && !a.paused && a.count == |Held(c, a)|
    ensures var r := CheckLimit(c, a, t);
            var hit := a.limit > 0 && |Held(c, a)| * 16 >= a.limit;
            SameRest(a, r) && r.log == a.log && r.paused == hit && Held(c, r) == if hit then [] else Held(c, a)
  {
    hide Core, FlushPending, FlushBlock;
    DoFlushKeeps(c, a, t);
    FlushPendingLog(a, t);
    FlushBlockSame(a);
    var f := DoFlush(c, a, t);
    assert Held(c, f.(paused := true)) == Held(c, f);
  }

  lemma DrainTold(c: Config, s: State, t: nat, values: seq<bytes>)
    requires Sound(c, s) && s.open && !s.paused && t == s.now && |values| == |s.sigs|
    ensures var s' := DrainMarks(c, s, t, values);
            var all := Held(c, s) + Marked(s, t, values, 0);
            var hit := |all| < c.interval && s.limit > 0 && |all| * 16 >= s.limit;
            s'.open && s'.sigs == s.sigs && s'.limit == s.limit && s'.log == s.log + Marked(s, t, values, 0) &&
            s'.changed == seq(|s.changed|, _ => false) && s'.paused == hit &&
            Held(c, s') == if |all| >= c.interval || hit then [] else all
  {
    hide Core, Sound, Marked, AutoFlush, CheckLimit, WriteSome, SigsOk;
    CoreOfSound(c, s);
    UnmarkedKeeps(c, s);
    var u, rs := Unmarked(s), Marked(s, t, values, 0);
    assert SigsOk(s.sigs) by {
      SigsOfCore(c, s);
    }
    MarkedOk(s, t, values, 0);
    var o := OpenIfNeeded(c, u, t);
    OpenKeeps(c, u, t);
    assert Held(c, o) == Held(c, s) && SameRest(u, o);
    WriteSomeKeeps(c, o, t, rs);
    T.WriteSomeHeld(c, o, rs);
    var w := WriteSome(c, o, rs);
    AutoFlushTold(c, w, t);
    CheckLimitTold(c, AutoFlush(c, w, t), t);
  }

  lemma SigsOfCore(c: Config, s: State)
    requires Core(c, s)
    ensures SigsOk(s.sigs)
  {
  }

  lemma SnapshotTold(c: Config, s: State, t: nat, values: seq<bytes>)
    requires Sound(c, s) && BelowInterval(c, s) && s.open && !s.paused && t == s.now && |values| == |s.sigs|
    ensures var s' := Snapshot(c, s, t, values);
            SameRest(s, s') && !s'.paused && s'.log == s.log + Everything(s, t, values, 0) &&
            Held(c, s') == if s.sigs == [] then Held(c, s) else []
  {
    hide Sound, BelowInterval, Core, Everything, WriteSome, FlushPending, FlushBlock;
    SnapshotKeeps(c, s, t, values);
    CoreOfSound(c, s);
    if s.sigs != [] {
      var all := Everything(s, t, values, 0);
      assert SigsOk(s.sigs) by {
        SigsOfCore(c, s);
      }
      EverythingOk(s, t, values, 0);
      if c.grouped {
        GroupedSnapshotTold(c, s, t, all);
      } else {
        DirectSnapshotTold(c, s, t, all);
      }
    }
  }

  lemma GroupedSnapshotTold(c: Config, s: State, t: nat, all: seq<Rec>)
    requires c.grouped && Core(c, s) && s.open && !s.paused && t == s.now
    requires forall i :: 0 <= i < |all| ==> all[i].time == t && all[i].scope < NO_SCOPE
    ensures var s' := FlushPending(WriteSome(c, FlushPending(s, t).(start := t), all), t).(active := false, count := 0);
            SameRest(s, s') && s'.paused == s.paused && Held(c, s') == []
  {
    hide Core, WriteSome, FlushPending;
    FlushPendingKeeps(c, s, t);
    FlushPendingLog(s, t);
    var f := FlushPending(s, t);
    RestartKeeps(c, f, t);
    WriteSomeKeeps(c, f.(start := t), t, all);
    var w := WriteSome(c, f.(start := t), all);
    FlushPendingKeeps(c, w, t);
    FlushPendingLog(w, t);
  }

  lemma DirectSnapshotTold(c: Config, s: State, t: nat, all: seq<Rec>)
    requires !c.grouped && Core(c, s) && s.open && !s.paused && t == s.now
    requires forall i :: 0 <= i < |all| ==> all[i].time == t && all[i].scope < NO_SCOPE
    ensures var begun := FlushBlock(s);
            var w := WriteSome(c, begun.(out := Begin(begun.out, t), active := true, start := t), all);
            var s' := w.(out := Flush(w.out), active := false, count := 0);
            SameRest(s, s') && s'.paused == s.paused && Held(c, s') == []
  {
    hide Core, WriteSome, FlushBlock;
    FlushBlockKeeps(c, s);
    FlushBlockSame(s);
    var begun := FlushBlock(s);
    BeginKeeps(c, begun, t);
    WriteSomeKeeps(c, begun.(out := Begin(begun.out, t), active := true, start := t), t, all);
  }

  // ---- Steps ----

  lemma Snoc(past: seq<Op>, op: Op)
    ensures Init(past + [op]) == past && Last(past + [op]) == op
  {
  }

  /** Calls that write and flush nothing. */
  lemma CallTold(c: Config, past: seq<Op>, s: State, op: Op)
    requires |s.changed| == |s.sigs| && Legal(s, op) && Tells(c, past, s)
    requires op.OpenFile? || op.AddSignal? || op.ValueChange? || op.DumpLimit?
    ensures Tells(c, past + [op], Step(c, s, op))
  {
    Snoc(past, op);
    var all, s' := past + [op], Step(c, s, op);
    assert Held(c, s') == Held(c, s);
    assert s.log + [] == s.log;
    assert SignalsOf(all) == s'.sigs;
    forall i | 0 <= i < |s'.changed|
      ensures s'.changed[i] <==> Touched(c, all, i)
    {
      TouchedInRange(c, past, i);
    }
  }

  lemma MarksSwept(c: Config, past: seq<Op>, op: Op, s: State)
    requires op.Drain? && |s.changed| == |SignalsOf(past)| && s.changed == seq(|s.changed|, _ => false)
    ensures MarksTold(c, past + [op], s)
  {
    Snoc(past, op);
  }

  lemma DrainStepTold(c: Config, past: seq<Op>, s: State, op: Op)
    requires Sound(c, s) && |s.changed| == |s.sigs| && Legal(s, op) && Tells(c, past, s) && op.Drain?
    ensures Tells(c, past + [op], Step(c, s, op))
  {
    hide Sound, MarksTold, Marked, TouchedRecs, OpenIfNeeded, AutoFlush, CheckLimit;
    Snoc(past, op);
    var s1, s' := s.(now := op.t), Step(c, s, op);
    LaterKeeps(c, s, op.t);
    assert Held(c, s1) == Held(c, s);
    if s.open && !s.paused {
      DrainTold(c, s1, op.t, op.values);
      MarkedTold(c, past, s1, op.t, op.values, 0) by {
        SameMarks(c, past, s, s1);
      }
    } else {
      assert Held(c, Unmarked(s1)) == Held(c, s);
      assert s.log + [] == s.log && Held(c, s) + [] == Held(c, s);
    }
    MarksSwept(c, past, op, s');
    var all := past + [op];
    assert SignalsOf(past) + [] == SignalsOf(past);
    assert Story(c, all) == Story(c, past) + Written(c, past, op);
    assert Recording(c, past) == (s.open && !s.paused);
    assert s'.log == s.log + Written(c, past, op);
    assert s'.paused == IsPaused(c, all);
  }

  lemma SameMarks(c: Config, past: seq<Op>, s: State, s': State)
    requires MarksTold(c, past, s) && s'.changed == s.changed
    ensures MarksTold(c, past, s')
  {
  }

  lemma MarksStay(c: Config, past: seq<Op>, op: Op, s: State, s': State)
    requires MarksTold(c, past, s) && s'.changed == s.changed
    requires !op.Drain? && !op.EndOfSimulation? && !op.ValueChange? && !op.AddSignal?
    ensures MarksTold(c, past + [op], s') && SignalsOf(past + [op]) == SignalsOf(past)
  {
    Snoc(past, op);
    assert SignalsOf(past) + [] == SignalsOf(past);
  }

  lemma FlushStepTold(c: Config, past: seq<Op>, s: State, op: Op)
    requires Sound(c, s) && |s.changed| == |s.sigs| && Legal(s, op) && Tells(c, past, s) && (op.DumpOff? || op.DumpFlush?)
    ensures Tells(c, past + [op], Step(c, s, op))
  {
    hide Sound, Core, MarksTold, DoFlush;
    Snoc(past, op);
    var s1, s' := s.(now := op.t), Step(c, s, op);
    LaterKeeps(c, s, op.t);
    CoreOfSound(c, s1);
    DoFlushTold(c, s1, op.t);
    assert Held(c, s1) == Held(c, s);
    assert Held(c, DoFlush(c, s1, op.t).(paused := true)) == Held(c, DoFlush(c, s1, op.t));
    assert s.log + [] == s.log;
    MarksStay(c, past, op, s, s');
  }

  lemma SnapshotStepTold(c: Config, past: seq<Op>, s: State, op: Op)
    requires Sound(c, s) && BelowInterval(c, s) && |s.changed| == |s.sigs| && Legal(s, op) && Tells(c, past, s)
    requires op.DumpOn? || op.DumpAll?
    ensures Tells(c, past + [op], Step(c, s, op))
  {
    hide Sound, BelowInterval, MarksTold, Everything, WriteSome, FlushPending, FlushBlock, AllRecs;
    Snoc(past, op);
    var s1, s' := s.(now := op.t), Step(c, s, op);
    LaterKeeps(c, s, op.t);
    assert Held(c, s1) == Held(c, s) && Held(c, s1.(paused := false)) == Held(c, s);
    assert s.log + [] == s.log;
    if s.open && (op.DumpOn? || !s.paused) {
      ResumeKeeps(c, s1);
      CountSame(c, s, s1.(paused := false));
      var s2 := s1.(paused := false);
      SnapshotTold(c, s2, op.t, op.values);
      EverythingTold(s2, op.t, op.values, 0);
      assert s' == Snapshot(c, s2, op.t, op.values);
    }
    MarksStay(c, past, op, s, s');
    var all := past + [op];
    assert Story(c, all) == Story(c, past) + Written(c, past, op);
    assert Recording(c, past) == (s.open && !s.paused);
    assert s'.log == s.log + Written(c, past, op);
    assert s'.paused == IsPaused(c, all);
  }

  lemma EndStepTold(c: Config, past: seq<Op>, s: State, op: Op)
    requires Sound(c, s) && |s.changed| == |s.sigs| && Legal(s, op) && Tells(c, past, s) && op.EndOfSimulation?
    ensures Tells(c, past + [op], Step(c, s, op))
  {
    hide Sound, DoFlush;
    Snoc(past, op);
    var s1 := s.(now := op.t);
    LaterKeeps(c, s, op.t);
    assert DoFlush(c, s1, op.t).log == s.log by {
      CoreOfSound(c, s1);
      DoFlushTold(c, s1, op.t);
    }
    EndKeeps(c, s1, op.t);
    assert s.log + [] == s.log;
  }

  lemma StepTold(c: Config, past: seq<Op>, s: State, op: Op)
    requires Sound(c, s) && BelowInterval(c, s) && |s.changed| == |s.sigs| && Legal(s, op) && Tells(c, past, s)
    ensures Tells(c, past + [op], Step(c, s, op))
  {
    hide Sound, BelowInterval, Legal, Tells, Step;
    match op
    case Drain(_, _) => DrainStepTold(c, past, s, op);
    case DumpOff(_) => FlushStepTold(c, past, s, op);
    case DumpFlush(_) => FlushStepTold(c, past, s, op);
    case DumpOn(_, _) => SnapshotStepTold(c, past, s, op);
    case DumpAll(_, _) => SnapshotStepTold(c, past, s, op);
    case EndOfSimulation(_) => EndStepTold(c, past, s, op);
    case _ => CallTold(c, past, s, op);
  }

  lemma StartTold(c: Config)
    ensures Tells(c, [], START)
  {
  }

  lemma {:induction false} RunTold(c: Config, past: seq<Op>, s: State, ops: seq<Op>)
    requires Sound(c, s) && BelowInterval(c, s) && LegalRun(c, s, ops) && Tells(c, past, s)
    ensures Tells(c, past + ops, Run(c, s, ops))
    decreases |ops|
  {
    hide Sound, BelowInterval, Legal, Tells, Step;
    if ops == [] {
      assert past + [] == past;
    } else {
      StepKeeps(c, s, ops[0]);
      StepTold(c, past, s, ops[0]);
      assert (past + [ops[0]]) + ops[1..] == past + ops;
      RunTold(c, past + [ops[0]], Step(c, s, ops[0]), ops[1..]);
    }
  }

  /** After any calls the recorder is open and paused as the calls tell, its marks are the signals that changed
      while recording since the last drain, what it has written is the calls' story, and it holds the end of
      that story from the last flush on. */
  lemma RunIsStory(c: Config, ops: seq<Op>)
    requires LegalRun(c, START, ops)
    ensures var s := Run(c, START, ops);
            && s.open == IsOpen(ops) && s.paused == IsPaused(c, ops) && s.sigs == SignalsOf(ops)
            && |s.changed| == |s.sigs| && (forall i :: 0 <= i < |s.changed| ==> (s.changed[i] <==> exists k :: LetIn(c, ops, i, k)))
            && s.log == Story(c, ops) && Held(c, s) == HeldOf(c, ops)
  {
    hide Run, LegalRun, SignalsOf, LetIn, Touched;
    StartIsSound(c);
    StartTold(c);
    RunTold(c, [], START, ops);
    assert [] + ops == ops;
    var s := Run(c, START, ops);
    forall i | 0 <= i < |s.changed|
      ensures s.changed[i] <==> exists k :: LetIn(c, ops, i, k)
    {
      TouchedMeans(c, ops, i);
    }
  }
}
