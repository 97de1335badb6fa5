/** What every run of the recorder keeps: invariants of `Vpi.State` under all callbacks. */
module VpiRuns {
  import opened Bytes
  import opened Vpi
  import S = Sorting

  /** All of `Sound` but the marks. */
  ghost predicate Core(c: Config, s: State) {
    ModeOk(c, s) && HeldOk(c, s) && SigsOk(s.sigs) && BlocksOk(s.out.done) && Conserved(c, s.log, s.out.done, Held(c, s))
  }

  // ---- Flushes ----

  lemma {:induction false} OfScopeCounts(rs: seq<Rec>, scope: nat, r: Rec)
    ensures multiset(OfScope(rs, scope))[r] == if r.scope == scope then multiset(rs)[r] else 0
    decreases |rs|
  {
    if rs != [] {
      OfScopeCounts(rs[1..], scope, r);
      assert rs == [rs[0]] + rs[1..];
    }
  }

  lemma SortedPending(pending: seq<Rec>)
    requires forall r :: r in pending ==> r.scope < NO_SCOPE
    ensures var rs := S.Sort(pending, ByScope);
            multiset(rs) == multiset(pending) && ScopesRise(rs) &&
            (forall i :: 0 <= i < |rs| ==> rs[i].scope != NO_SCOPE) && forall r :: r in rs <==> r in pending
  {
    var rs := S.Sort(pending, ByScope);
    ScopeOrderTotal();
    S.SortSorts(pending, ByScope);
    S.SortKeeps(pending, ByScope);
    S.SameMembers(pending, ByScope);
    forall i | 0 <= i < |rs|
      ensures rs[i].scope != NO_SCOPE
    {
      assert rs[i] in rs;
    }
    forall i, j | 0 <= i < j < |rs|
      ensures rs[i].scope <= rs[j].scope
    {
      assert ByScope(rs[i], rs[j]);
    }
  }

  ghost predicate ScopesExact(gs: seq<Block>, rs: seq<Rec>) {
    forall i :: 0 <= i < |gs| ==> gs[i].changes != [] && multiset(gs[i].changes) == multiset(OfScope(rs, ScopeOf(gs[i])))
  }

  /** One block for each scope that has records, in rising order, with exactly that scope's records. */
  ghost predicate OnePerScope(gs: seq<Block>, rs: seq<Rec>) {
    multiset(AllOf(gs)) == multiset(rs) && ScopesClimb(gs) && AllCovered(gs, rs) && ScopesExact(gs, rs)
  }

  lemma CoveredToo(gs: seq<Block>, rs: seq<Rec>, pending: seq<Rec>)
    requires AllCovered(gs, rs) && forall r :: r in pending ==> r in rs
    ensures AllCovered(gs, pending)
  {
  }

  lemma ExactToo(gs: seq<Block>, rs: seq<Rec>, pending: seq<Rec>)
    requires EachHolds(gs, rs) && multiset(rs) == multiset(pending)
    ensures ScopesExact(gs, pending)
  {
    hide OfScope, ScopeOf;
    forall i | 0 <= i < |gs|
      ensures multiset(gs[i].changes) == multiset(OfScope(pending, ScopeOf(gs[i])))
    {
      forall r
        ensures multiset(OfScope(rs, ScopeOf(gs[i])))[r] == multiset(OfScope(pending, ScopeOf(gs[i])))[r]
      {
        OfScopeCounts(rs, ScopeOf(gs[i]), r);
        OfScopeCounts(pending, ScopeOf(gs[i]), r);
      }
    }
  }

  lemma PendingGroups(pending: seq<Rec>, start: nat)
    requires forall r :: r in pending ==> r.scope < NO_SCOPE
    ensures var gs := Groups(S.Sort(pending, ByScope), start);
            OnePerScope(gs, pending) && (InTime(start, pending) ==> BlocksOk(gs)) && forall b :: b in gs ==> b.start == start
  {
    hide ByScope, Groups, ScopesRise, ScopesClimb, EachHolds, AllCovered, ScopesExact, AllOf;
    var rs := S.Sort(pending, ByScope);
    SortedPending(pending);
    GroupsHoldAll(rs, start);
    GroupsByScope(rs, start);
    CoveredToo(Groups(rs, start), rs, pending);
    ExactToo(Groups(rs, start), rs, pending);
  }

  /** A grouped flush writes each pending change exactly once, in one block for each scope that has any. */
  lemma GroupedFlush(c: Config, s: State, t: nat)
    requires c.grouped && Core(c, s)
    ensures var s' := FlushPending(s, t);
            var gs := Groups(S.Sort(s.pending, ByScope), s.start);
            s'.out.done == s.out.done + gs && s'.pending == [] && !s'.out.active && OnePerScope(gs, s.pending) && BlocksOk(gs)
  {
    hide ByScope, Conserved, SigsOk, BlocksOk, OnePerScope, Groups, EmitFrom, InTime;
    SortedPending(s.pending);
    EmitGroups(s.out, s.start, S.Sort(s.pending, ByScope));
    PendingGroups(s.pending, s.start);
    if s.pending == [] {
      NoGroups(s.start);
      assert s.out.done + [] == s.out.done;
    }
  }

  lemma NoGroups(start: nat)
    ensures Groups(S.Sort([], ByScope), start) == []
  {
  }

  lemma FlushPendingKeeps(c: Config, s: State, t: nat)
    requires c.grouped && Core(c, s) && t == s.now
    ensures Core(c, FlushPending(s, t)) && FlushPending(s, t).pending == [] && FlushPending(s, t).count == 0
  {
    hide ByScope, EmitFrom, Groups, SigsOk, BlocksOk, Conserved, InTime, OnePerScope;
    if s.pending != [] {
      var gs := Groups(S.Sort(s.pending, ByScope), s.start);
      GroupedFlush(c, s, t);
      FlushPendingLog(s, t);
      BlocksJoin(s.out.done, gs);
      PendingConserved(c, s.log, s.out.done, gs, s.pending);
      EmptyInTime(t);
    }
  }

  lemma BlocksJoin(a: seq<Block>, b: seq<Block>)
    requires BlocksOk(a) && BlocksOk(b)
    ensures BlocksOk(a + b)
  {
  }

  lemma PendingConserved(c: Config, log: seq<Rec>, done: seq<Block>, gs: seq<Block>, pending: seq<Rec>)
    requires c.grouped && Conserved(c, log, done, pending) && OnePerScope(gs, pending)
    ensures Conserved(c, log, done + gs, [])
  {
    hide AllOf, ScopesClimb, AllCovered, ScopesExact;
    AllOfAppend(done, gs);
  }

  lemma FlushBlockKeeps(c: Config, s: State)
    requires !c.grouped && Core(c, s)
    ensures var s' := FlushBlock(s);
            Core(c, s') && !s'.active && s'.count == 0 && s'.log == s.log && (s.active ==> s'.out.done == s.out.done + [s.out.vc])
  {
    var s' := FlushBlock(s);
    if s.active {
      AllOfAppend(s.out.done, [s.out.vc]);
      assert AllOf([s.out.vc]) == [] + s.out.vc.changes;
      assert s'.log == AllOf(s'.out.done) + [] by {
        assert AllOf(s'.out.done) == AllOf(s.out.done) + s.out.vc.changes;
      }
    }
  }

  lemma DoFlushKeeps(c: Config, s: State, t: nat)
    requires Core(c, s) && t == s.now
    ensures var s' := DoFlush(c, s, t);
            Core(c, s') && Held(c, s') == [] && s'.count == 0 && !s'.active && s'.pending == [] && s'.log == s.log
  {
    hide FlushPending, FlushBlock, Conserved, BlocksOk, SigsOk, InTime;
    if s.open {
      if c.grouped {
        FlushPendingKeeps(c, s, t);
        FlushPendingLog(s, t);
        NothingHeld(c, FlushPending(s, t));
      } else {
        FlushBlockKeeps(c, s);
      }
    }
  }

  lemma FlushPendingLog(s: State, t: nat)
    ensures var s' := FlushPending(s, t);
            s'.log == s.log && s'.active == s.active && s'.paused == s.paused && s'.open == s.open && s'.now == s.now &&
            s'.sigs == s.sigs && s'.changed == s.changed && s'.outstanding == s.outstanding && s'.used == s.used && s'.limit == s.limit
  {
    hide EmitFrom;
  }

  lemma NothingHeld(c: Config, s: State)
    requires c.grouped && s.pending == []
    ensures Held(c, s) == []
  {
  }

  // ---- Writing ----

  /** Values may be written: into the buffer, or into an open block, that started in time. */
  ghost predicate Ready(c: Config, s: State, t: nat) {
    s.open && !s.paused && s.start <= t == s.now && (c.grouped || s.active)
  }

  lemma WriteOneKeeps(c: Config, s: State, t: nat, r: Rec)
    requires Core(c, s) && Ready(c, s, t) && r.time == t && r.scope < NO_SCOPE
    ensures Core(c, WriteOne(c, s, r)) && Ready(c, WriteOne(c, s, r), t) && Held(c, WriteOne(c, s, r)) == Held(c, s) + [r]
  {
    hide BlocksOk, SigsOk, Conserved, InTime;
    var s' := WriteOne(c, s, r);
    assert Held(c, s') == Held(c, s) + [r];
    ConservedMore(c, s.log, s.out.done, Held(c, s), r);
    InTimeMore(s.start, Held(c, s), r);
  }

  lemma ConservedMore(c: Config, log: seq<Rec>, done: seq<Block>, held: seq<Rec>, r: Rec)
    requires Conserved(c, log, done, held)
    ensures Conserved(c, log + [r], done, held + [r])
  {
    hide AllOf;
    assert AllOf(done) + (held + [r]) == (AllOf(done) + held) + [r];
  }

  lemma InTimeMore(start: nat, held: seq<Rec>, r: Rec)
    requires InTime(start, held) && start <= r.time
    ensures InTime(start, held + [r])
  {
  }

  /** What writing leaves alone. */
  ghost predicate SameButWritten(s: State, s': State) {
    s'.used == s.used && s'.open == s.open && s'.sigs == s.sigs && s'.changed == s.changed && s'.outstanding == s.outstanding &&
    s'.active == s.active && s'.start == s.start && s'.paused == s.paused && s'.limit == s.limit && s'.now == s.now
  }

  lemma {:induction false} WriteSomeKeeps(c: Config, s: State, t: nat, rs: seq<Rec>)
    requires Core(c, s) && Ready(c, s, t) && forall i :: 0 <= i < |rs| ==> rs[i].time == t && rs[i].scope < NO_SCOPE
    ensures var s' := WriteSome(c, s, rs);
            Core(c, s') && Ready(c, s', t) && s'.log == s.log + rs && SameButWritten(s, s')
    decreases |rs|
  {
    hide Core;
    if rs == [] {
      assert s.log + [] == s.log;
    } else {
      WriteOneKeeps(c, s, t, rs[0]);
      WriteSomeKeeps(c, WriteOne(c, s, rs[0]), t, rs[1..]);
      assert (s.log + [rs[0]]) + rs[1..] == s.log + rs;
    }
  }

  lemma {:induction false} MarkedOk(s: State, t: nat, values: seq<bytes>, i: nat)
    requires |s.changed| == |s.sigs| == |values| && i <= |s.sigs| && SigsOk(s.sigs)
    ensures forall k :: 0 <= k < |Marked(s, t, values, i)| ==>
      Marked(s, t, values, i)[k].time == t && Marked(s, t, values, i)[k].scope < NO_SCOPE
    decreases |s.sigs| - i
  {
    if i < |s.sigs| {
      MarkedOk(s, t, values, i + 1);
    }
  }

  lemma {:induction false} EverythingOk(s: State, t: nat, values: seq<bytes>, i: nat)
    requires |s.sigs| == |values| && i <= |s.sigs| && SigsOk(s.sigs)
    ensures forall k :: 0 <= k < |Everything(s, t, values, i)| ==>
      Everything(s, t, values, i)[k].time == t && Everything(s, t, values, i)[k].scope < NO_SCOPE
    decreases |s.sigs| - i
  {
    if i < |s.sigs| {
      EverythingOk(s, t, values, i + 1);
    }
  }

  lemma OpenKeeps(c: Config, s: State, t: nat)
    requires Core(c, s) && s.open && !s.paused && t == s.now
    ensures var s' := OpenIfNeeded(c, s, t);
            Core(c, s') && Ready(c, s', t) && s'.log == s.log && s'.sigs == s.sigs && s'.changed == s.changed && s'.outstanding == s.outstanding
  {
    hide BlocksOk, SigsOk, Conserved;
    var s' := OpenIfNeeded(c, s, t);
    assert Held(c, s') == Held(c, s);
    assert InTime(s'.start, Held(c, s'));
  }

  // ---- Drains ----

  lemma AutoFlushKeeps(c: Config, s: State, t: nat)
    requires Core(c, s) && Ready(c, s, t)
    ensures var s' := AutoFlush(c, s, t);
            Core(c, s') && BelowInterval(c, s') && s'.open && !s'.paused && s'.now == t && s'.log == s.log &&
            s'.sigs == s.sigs && s'.changed == s.changed && s'.outstanding == s.outstanding
  {
    hide Core, FlushPending;
    if s.count >= c.interval {
      if c.grouped {
        FlushPendingKeeps(c, s, t);
        FlushPendingLog(s, t);
      } else {
        FlushBlockKeeps(c, s);
      }
    }
  }

  lemma CheckLimitKeeps(c: Config, s: State, t: nat)
    requires Core(c, s) && BelowInterval(c, s) && t == s.now
    ensures var s' := CheckLimit(c, s, t);
            Core(c, s') && BelowInterval(c, s') && s'.log == s.log &&
            s'.sigs == s.sigs && s'.changed == s.changed && s'.outstanding == s.outstanding
  {
    if s.limit == 0 || !s.open || s.paused || s.count * 16 < s.limit {
      assert CheckLimit(c, s, t) == s;
    } else {
      hide FlushPending, FlushBlock, Conserved, BlocksOk, SigsOk, InTime;
      DoFlushKeeps(c, s, t);
      FlushPendingLog(s, t);
      FlushBlockSame(s);
      PausingKeeps(c, DoFlush(c, s, t));
    }
  }

  lemma FlushBlockSame(s: State)
    ensures var s' := FlushBlock(s);
            s'.sigs == s.sigs && s'.changed == s.changed && s'.outstanding == s.outstanding && s'.log == s.log && s'.now == s.now &&
            s'.open == s.open && s'.used == s.used && s'.paused == s.paused && s'.limit == s.limit
  {
  }

  lemma PausingKeeps(c: Config, s: State)
    requires Core(c, s) && !s.active && s.pending == []
    ensures Core(c, s.(paused := true))
  {
    hide BlocksOk, SigsOk, Conserved;
    var s' := s.(paused := true);
    assert Held(c, s') == Held(c, s);
    hide InTime;
  }

  lemma UnmarkedKeeps(c: Config, s: State)
    requires Core(c, s)
    ensures Core(c, Unmarked(s)) && (|s.changed| == |s.sigs| ==> MarksOk(Unmarked(s)))
  {
    hide BlocksOk, SigsOk, InTime, Conserved;
    assert Held(c, Unmarked(s)) == Held(c, s);
  }

  /** A drain writes every marked signal's settled value once, leaves no mark, and ends below the flush
      interval. */
  lemma DrainKeeps(c: Config, s: State, t: nat, values: seq<bytes>)
    requires Sound(c, s) && BelowInterval(c, s) && t == s.now && |values| == |s.sigs|
    ensures var s' := DrainMarks(c, s, t, values);
            Sound(c, s') && BelowInterval(c, s') && !s'.outstanding &&
            s'.log == s.log + if s.open && !s.paused then Marked(s, t, values, 0) else []
  {
    hide Core, Marked, OpenIfNeeded, AutoFlush, CheckLimit, WriteSome, BelowInterval, MarksOk;
    CoreOfSound(c, s);
    UnmarkedKeeps(c, s);
    var u := Unmarked(s);
    assert s.log + [] == s.log;
    CountSame(c, s, u);
    if s.open && !s.paused {
      var rs := Marked(s, t, values, 0);
      MarkedOk(s, t, values, 0);
      var o := OpenIfNeeded(c, u, t);
      OpenKeeps(c, u, t);
      WriteSomeKeeps(c, o, t, rs);
      var w := WriteSome(c, o, rs);
      AutoFlushKeeps(c, w, t);
      CheckLimitKeeps(c, AutoFlush(c, w, t), t);
      var s' := DrainMarks(c, s, t, values);
      MarksSame(u, s');
      SoundOfCore(c, s');
    } else {
      SoundOfCore(c, u);
    }
  }

  lemma CoreOfSound(c: Config, s: State)
    requires Sound(c, s)
    ensures Core(c, s) && |s.changed| == |s.sigs| && SigsOk(s.sigs)
  {
  }

  lemma SoundOfCore(c: Config, s: State)
    requires Core(c, s) && MarksOk(s)
    ensures Sound(c, s)
  {
  }

  lemma MarksSame(s: State, s': State)
    requires MarksOk(s) && s'.sigs == s.sigs && s'.changed == s.changed && s'.outstanding == s.outstanding
    ensures MarksOk(s')
  {
  }

  lemma CountSame(c: Config, s: State, s': State)
    requires BelowInterval(c, s) && s'.count == s.count
    ensures BelowInterval(c, s')
  {
  }

  // ---- Snapshots ----

  lemma BeginKeeps(c: Config, s: State, t: nat)
    requires !c.grouped && Core(c, s) && s.open && !s.paused && !s.active && t == s.now
    ensures var s' := s.(out := Begin(s.out, t), active := true, start := t);
            Core(c, s') && Ready(c, s', t)
  {
    hide BlocksOk, SigsOk, Conserved;
    var s' := s.(out := Begin(s.out, t), active := true, start := t);
    assert Held(c, s') == Held(c, s) == [];
  }

  lemma RestartKeeps(c: Config, s: State, t: nat)
    requires c.grouped && Core(c, s) && s.open && !s.paused && s.pending == [] && t == s.now
    ensures var s' := s.(start := t);
            Core(c, s') && Ready(c, s', t)
  {
    hide BlocksOk, SigsOk, Conserved;
    var s' := s.(start := t);
    assert Held(c, s') == Held(c, s) == [];
  }

  /** A snapshot writes every signal's value once and holds nothing back. */
  lemma SnapshotKeeps(c: Config, s: State, t: nat, values: seq<bytes>)
    requires Sound(c, s) && BelowInterval(c, s) && !s.paused && t == s.now && |values| == |s.sigs|
    ensures var s' := Snapshot(c, s, t, values);
            Sound(c, s') && BelowInterval(c, s') && s'.outstanding == s.outstanding &&
            s'.log == s.log + if s.open then Everything(s, t, values, 0) else []
  {
    hide Core, Everything, WriteSome, MarksOk, FlushPending, FlushBlock;
    CoreOfSound(c, s);
    assert s.log + [] == s.log;
    if s.open && s.sigs != [] {
      var all := Everything(s, t, values, 0);
      EverythingOk(s, t, values, 0);
      var s' := Snapshot(c, s, t, values);
      if c.grouped {
        SnapshotGrouped(c, s, t, all);
      } else {
        SnapshotDirect(c, s, t, all);
      }
      MarksSame(s, s');
      SoundOfCore(c, s');
    } else if s.open {
      NothingToShow(s, t, values);
    }
  }

  lemma NothingToShow(s: State, t: nat, values: seq<bytes>)
    requires s.sigs == [] && values == []
    ensures Everything(s, t, values, 0) == []
  {
  }

  lemma SnapshotGrouped(c: Config, s: State, t: nat, all: seq<Rec>)
    requires c.grouped && Core(c, s) && s.open && !s.paused && t == s.now
    requires forall i :: 0 <= i < |all| ==> all[i].time == t && all[i].scope < NO_SCOPE
    ensures var s' := FlushPending(WriteSome(c, FlushPending(s, t).(start := t), all), t).(active := false, count := 0);
            Core(c, s') && s'.count == 0 && s'.log == s.log + all &&
            s'.sigs == s.sigs && s'.changed == s.changed && s'.outstanding == s.outstanding
  {
    hide Core, FlushPending, WriteSome;
    FlushPendingKeeps(c, s, t);
    FlushPendingLog(s, t);
    var f := FlushPending(s, t);
    RestartKeeps(c, f, t);
    WriteSomeKeeps(c, f.(start := t), t, all);
    var w := WriteSome(c, f.(start := t), all);
    FlushPendingKeeps(c, w, t);
    FlushPendingLog(w, t);
    AlreadyInactive(c, FlushPending(w, t));
  }

  lemma AlreadyInactive(c: Config, s: State)
    requires c.grouped && Core(c, s) && s.count == 0
    ensures s.(active := false, count := 0) == s
  {
  }

  lemma SnapshotDirect(c: Config, s: State, t: nat, all: seq<Rec>)
    requires !c.grouped && Core(c, s) && s.open && !s.paused && t == s.now
    requires forall i :: 0 <= i < |all| ==> all[i].time == t && all[i].scope < NO_SCOPE
    ensures var begun := FlushBlock(s);
            var w := WriteSome(c, begun.(out := Begin(begun.out, t), active := true, start := t), all);
            var s' := w.(out := Flush(w.out), active := false, count := 0);
            Core(c, s') && s'.count == 0 && s'.log == s.log + all &&
            s'.sigs == s.sigs && s'.changed == s.changed && s'.outstanding == s.outstanding
  {
    hide Core, FlushBlock, WriteSome;
    FlushBlockKeeps(c, s);
    FlushBlockSame(s);
    var begun := FlushBlock(s);
    BeginKeeps(c, begun, t);
    var b := begun.(out := Begin(begun.out, t), active := true, start := t);
    WriteSomeKeeps(c, b, t, all);
    var w := WriteSome(c, b, all);
    FlushBlockKeeps(c, w);
    ActiveFlush(w);
  }

  lemma ActiveFlush(s: State)
    requires s.active
    ensures FlushBlock(s) == s.(out := Flush(s.out), active := false, count := 0)
  {
  }

  // ---- Runs ----

  lemma StartIsSound(c: Config)
    ensures Sound(c, START) && BelowInterval(c, START)
  {
  }

  lemma LaterKeeps(c: Config, s: State, t: nat)
    requires Sound(c, s) && t >= s.now
    ensures Sound(c, s.(now := t))
  {
    hide BlocksOk, SigsOk, InTime, Conserved;
    var s' := s.(now := t);
    assert Held(c, s') == Held(c, s);
  }

  lemma OpenFileKeeps(c: Config, s: State)
    requires Sound(c, s) && !s.used
    ensures Sound(c, s.(used := true, open := true))
  {
    hide BlocksOk, SigsOk, InTime, Conserved;
    var s' := s.(used := true, open := true);
    assert Held(c, s') == Held(c, s);
  }

  lemma AddSignalKeeps(c: Config, s: State, sig: Signal)
    requires Sound(c, s) && sig.scope < NO_SCOPE
    ensures Sound(c, s.(sigs := s.sigs + [sig], changed := s.changed + [false]))
  {
    hide BlocksOk, InTime, Conserved;
    var s' := s.(sigs := s.sigs + [sig], changed := s.changed + [false]);
    assert Held(c, s') == Held(c, s);
    assert forall i :: 0 <= i < |s.changed| ==> s'.changed[i] == s.changed[i];
    if s.outstanding {
      var i :| 0 <= i < |s.changed| && s.changed[i];
      assert s'.changed[i];
    }
  }

  lemma MarkKeeps(c: Config, s: State, idx: int)
    requires Sound(c, s)
    ensures Sound(c, MarkSignal(s, idx))
  {
    hide BlocksOk, SigsOk, InTime, Conserved;
    var s' := MarkSignal(s, idx);
    assert Held(c, s') == Held(c, s);
    if s' != s {
      assert s'.changed[idx];
    }
  }

  lemma LimitKeeps(c: Config, s: State, n: nat)
    requires Sound(c, s)
    ensures Sound(c, s.(limit := n))
  {
    hide BlocksOk, SigsOk, InTime, Conserved;
    assert Held(c, s.(limit := n)) == Held(c, s);
  }

  lemma DoFlushSound(c: Config, s: State, t: nat)
    requires Sound(c, s) && t == s.now
    ensures Sound(c, DoFlush(c, s, t)) && BelowInterval(c, DoFlush(c, s, t))
    ensures Sound(c, DoFlush(c, s, t).(paused := true))
  {
    hide Core, FlushPending, FlushBlock, MarksOk;
    CoreOfSound(c, s);
    DoFlushKeeps(c, s, t);
    FlushPendingLog(s, t);
    FlushBlockSame(s);
    var s' := DoFlush(c, s, t);
    PausingKeeps(c, s');
    MarksSame(s, s');
    MarksSame(s, s'.(paused := true));
    SoundOfCore(c, s');
    SoundOfCore(c, s'.(paused := true));
  }

  lemma ResumeKeeps(c: Config, s: State)
    requires Sound(c, s) && s.open
    ensures Sound(c, s.(paused := false))
  {
    hide BlocksOk, SigsOk, InTime, Conserved;
    assert Held(c, s.(paused := false)) == Held(c, s);
  }

  /** At the end of the simulation everything ever written is in exactly one finished block. */
  lemma EndKeeps(c: Config, s: State, t: nat)
    requires Sound(c, s) && t == s.now
    ensures var s' := Closed(c, s, t);
            Sound(c, s') && BelowInterval(c, s') && !s'.open && s'.log == s.log &&
            multiset(s.log) == multiset(AllOf(s'.out.done)) && (!c.grouped ==> s.log == AllOf(s'.out.done))
  {
    hide BlocksOk, DoFlush, SigsOk, InTime;
    CoreOfSound(c, s);
    DoFlushKeeps(c, s, t);
    var f := DoFlush(c, s, t);
    assert Held(c, f) == [] && !f.out.active;
    assert AllOf(f.out.done) + [] == AllOf(f.out.done);
    EmptySigs();
    EmptyInTime(0);
  }

  lemma EmptySigs()
    ensures SigsOk([])
  {
  }

  lemma EmptyInTime(start: nat)
    ensures InTime(start, [])
  {
  }

  lemma StepKeeps(c: Config, s: State, op: Op)
    requires Sound(c, s) && BelowInterval(c, s) && |s.changed| == |s.sigs| && Legal(s, op)
    ensures Sound(c, Step(c, s, op)) && BelowInterval(c, Step(c, s, op))
  {
    hide Sound, DrainMarks, DoFlush, Snapshot, Closed, MarkSignal;
    match op
    case OpenFile => OpenFileKeeps(c, s);
    case AddSignal(sig) => AddSignalKeeps(c, s, sig);
    case ValueChange(idx) =>
      MarkKeeps(c, s, idx);
      MarkCount(s, idx);
    case Drain(t, values) =>
      LaterKeeps(c, s, t);
      DrainKeeps(c, s.(now := t), t, values);
    case DumpOff(t) =>
      LaterKeeps(c, s, t);
      DoFlushSound(c, s.(now := t), t);
    case DumpOn(t, values) =>
      LaterKeeps(c, s, t);
      if s.open {
        ResumeKeeps(c, s.(now := t));
        SnapshotKeeps(c, s.(now := t, paused := false), t, values);
      }
    case DumpFlush(t) =>
      LaterKeeps(c, s, t);
      DoFlushSound(c, s.(now := t), t);
    case DumpAll(t, values) =>
      LaterKeeps(c, s, t);
      if !s.paused {
        SnapshotKeeps(c, s.(now := t), t, values);
      }
    case DumpLimit(n) => LimitKeeps(c, s, n);
    case EndOfSimulation(t) =>
      LaterKeeps(c, s, t);
      EndKeeps(c, s.(now := t), t);
  }

  lemma MarkCount(s: State, idx: int)
    ensures MarkSignal(s, idx).count == s.count
  {
  }

  lemma MarksSized(c: Config, s: State)
    requires Sound(c, s)
    ensures |s.changed| == |s.sigs|
  {
  }

  /** Calls that each respect what the recorder relies on. */
  ghost predicate LegalRun(c: Config, s: State, ops: seq<Op>)
    decreases |ops|
  {
    ops == [] || (|s.changed| == |s.sigs| && Legal(s, ops[0]) && LegalRun(c, Step(c, s, ops[0]), ops[1..]))
  }

  ghost function Run(c: Config, s: State, ops: seq<Op>): State
    requires LegalRun(c, s, ops)
    decreases |ops|
  {
    if ops == [] then s else Run(c, Step(c, s, ops[0]), ops[1..])
  }

  /** The invariants hold after any calls in any order. */
  lemma {:induction false} RunKeeps(c: Config, s: State, ops: seq<Op>)
    requires Sound(c, s) && BelowInterval(c, s) && LegalRun(c, s, ops)
    ensures Sound(c, Run(c, s, ops)) && BelowInterval(c, Run(c, s, ops))
    decreases |ops|
  {
    hide Sound, Step, BelowInterval, Legal;
    if ops != [] {
      StepKeeps(c, s, ops[0]);
      RunKeeps(c, Step(c, s, ops[0]), ops[1..]);
    }
  }

  /** Every reachable state, in the terms of a user: nothing is open or buffered while paused; a mark
      means an outstanding drain and the other way round; the counter is the number of changes held and
      stays below the flush interval; no block starts after one of its changes; and every value written
      is held or in a finished block exactly once. */
  lemma Reachable(c: Config, ops: seq<Op>)
    requires LegalRun(c, START, ops)
    ensures var s := Run(c, START, ops);
            && (s.paused ==> !s.active && !s.out.active && s.pending == [])
            && ((exists i :: 0 <= i < |s.changed| && s.changed[i]) <==> s.outstanding)
            && s.count == |Held(c, s)| && s.count < AtLeastOne(c.interval)
            && (forall b, r :: b in s.out.done && r in b.changes ==> b.start <= r.time)
            && multiset(s.log) == multiset(AllOf(s.out.done)) + multiset(Held(c, s))
  {
    hide Run, AllOf, LegalRun;
    StartIsSound(c);
    RunKeeps(c, START, ops);
    var s := Run(c, START, ops);
    forall b, r | b in s.out.done && r in b.changes
      ensures b.start <= r.time
    {
      assert InTime(b.start, b.changes);
    }
  }
}
