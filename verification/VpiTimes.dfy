/** When a recording has two changes of one signal at one time: exactly when some drain finds a marked
    signal that already has a change at the drain's time in the block being collected. */
module VpiTimes {
  import opened Bytes
  import opened Vpi
  import opened VpiRuns
  import S = Sorting

  /** No signal has two of the changes at the same time, as the wave encoders need. */
  ghost predicate TimesDistinct(rs: seq<Rec>) {
    forall i, j :: 0 <= i < j < |rs| ==> rs[i].id != rs[j].id || rs[i].time != rs[j].time
  }

  ghost predicate IdsDistinct(sigs: seq<Signal>) {
    forall i, j :: 0 <= i < j < |sigs| ==> sigs[i].id != sigs[j].id
  }

  ghost predicate MarkedId(s: State, i: nat, id: nat) {
    exists k :: i <= k < |s.sigs| && k < |s.changed| && s.changed[k] && s.sigs[k].id == id
  }

  ghost predicate HasRec(rs: seq<Rec>, id: nat, t: nat) {
    exists y :: y in rs && y.id == id && y.time == t
  }

  ghost predicate Apart(a: seq<Rec>, b: seq<Rec>) {
    forall x, y :: x in a && y in b ==> x.id != y.id || x.time != y.time
  }

  lemma JoinDistinct(a: seq<Rec>, b: seq<Rec>)
    requires TimesDistinct(a) && TimesDistinct(b)
    ensures TimesDistinct(a + b) <==> Apart(a, b)
  {
    var all := a + b;
    if TimesDistinct(all) {
      forall x, y | x in a && y in b
        ensures x.id != y.id || x.time != y.time
      {
        var i :| 0 <= i < |a| && a[i] == x;
        var j :| 0 <= j < |b| && b[j] == y;
        assert all[i] == x && all[|a| + j] == y;
      }
    }
    if Apart(a, b) {
      forall i, j | 0 <= i < j < |all|
        ensures all[i].id != all[j].id || all[i].time != all[j].time
      {
        if i < |a| <= j {
          assert a[i] in a && b[j - |a|] in b;
        }
      }
    }
  }

  // ---- Counting changes ----

  /** How often a signal changes at a time. */
  function Count(rs: seq<Rec>, id: nat, t: nat): nat {
    if rs == [] then 0 else (if rs[0].id == id && rs[0].time == t then 1 else 0) + Count(rs[1..], id, t)
  }

  lemma {:induction false} CountAppend(a: seq<Rec>, b: seq<Rec>, id: nat, t: nat)
    ensures Count(a + b, id, t) == Count(a, id, t) + Count(b, id, t)
    decreases |a|
  {
    if a == [] {
      assert a + b == b;
    } else {
      assert (a + b)[1..] == a[1..] + b && (a + b)[0] == a[0];
      CountAppend(a[1..], b, id, t);
    }
  }

  /** The order does not matter. */
  lemma {:induction false} CountMultiset(a: seq<Rec>, b: seq<Rec>, id: nat, t: nat)
    requires multiset(a) == multiset(b)
    ensures Count(a, id, t) == Count(b, id, t)
    decreases |a|
  {
    assert |a| == |multiset(a)| && |b| == |multiset(b)|;
    if a != [] {
      var x := a[0];
      FirstAndRest(a);
      assert x in multiset(b);
      var less := CountWithout(b, x, id, t);
      Cancel(x, multiset(a[1..]), multiset(less));
      CountMultiset(a[1..], less, id, t);
    }
  }

  lemma FirstAndRest(a: seq<Rec>)
    requires a != []
    ensures multiset(a) == multiset{a[0]} + multiset(a[1..]) && a[0] in multiset(a)
  {
    assert a == [a[0]] + a[1..];
  }

  lemma Cancel(x: Rec, m: multiset<Rec>, n: multiset<Rec>)
    requires multiset{x} + m == multiset{x} + n
    ensures m == n
  {
    assert m == (multiset{x} + m) - multiset{x} && n == (multiset{x} + n) - multiset{x};
  }

  lemma CountWithout(b: seq<Rec>, x: Rec, id: nat, t: nat) returns (less: seq<Rec>)
    requires x in b
    ensures multiset(b) == multiset{x} + multiset(less)
    ensures Count(b, id, t) == (if x.id == id && x.time == t then 1 else 0) + Count(less, id, t)
  {
    var j :| 0 <= j < |b| && b[j] == x;
    var before, after := b[..j], b[j + 1..];
    less := before + after;
    assert b == before + ([x] + after);
    CountAppend(before, [x] + after, id, t);
    CountAppend(before, after, id, t);
    assert ([x] + after)[1..] == after;
  }

  lemma {:induction false} CountHas(rs: seq<Rec>, id: nat, t: nat)
    ensures Count(rs, id, t) > 0 <==> HasRec(rs, id, t)
    decreases |rs|
  {
    if rs != [] {
      CountHas(rs[1..], id, t);
      assert rs == [rs[0]] + rs[1..];
      if HasRec(rs[1..], id, t) {
        var y :| y in rs[1..] && y.id == id && y.time == t;
        assert y in rs;
      }
      if HasRec(rs, id, t) && !(rs[0].id == id && rs[0].time == t) {
        var y :| y in rs && y.id == id && y.time == t;
        assert y in rs[1..];
      }
    }
  }

  ghost predicate AtMostOnce(rs: seq<Rec>) {
    forall id, t :: Count(rs, id, t) <= 1
  }

  lemma {:induction false} DistinctCounts(rs: seq<Rec>)
    ensures TimesDistinct(rs) <==> AtMostOnce(rs)
    decreases |rs|
  {
    hide TimesDistinct, AtMostOnce;
    if rs == [] {
      NothingTwice();
    } else {
      DistinctCounts(rs[1..]);
      CountHas(rs[1..], rs[0].id, rs[0].time);
      DistinctFirst(rs);
      CountsFirst(rs);
    }
  }

  lemma NothingTwice()
    ensures TimesDistinct([]) && AtMostOnce([])
  {
  }

  lemma DistinctFirst(rs: seq<Rec>)
    requires rs != []
    ensures TimesDistinct(rs) <==> TimesDistinct(rs[1..]) && !HasRec(rs[1..], rs[0].id, rs[0].time)
  {
    var x, more := rs[0], rs[1..];
    assert forall i :: 0 <= i < |more| ==> more[i] == rs[i + 1];
    if TimesDistinct(more) {
      hide TimesDistinct;
      assert rs == [x] + more;
      assert TimesDistinct([x]) by {
        OneDistinct(x);
      }
      JoinDistinct([x], more);
      assert Apart([x], more) <==> !HasRec(more, x.id, x.time);
    }
  }

  lemma OneDistinct(x: Rec)
    ensures TimesDistinct([x])
  {
  }

  lemma CountsFirst(rs: seq<Rec>)
    requires rs != []
    ensures AtMostOnce(rs) <==> AtMostOnce(rs[1..]) && Count(rs[1..], rs[0].id, rs[0].time) == 0
  {
    var x, more := rs[0], rs[1..];
    if AtMostOnce(rs) {
      forall id, t
        ensures Count(more, id, t) <= 1
      {
        assert Count(rs, id, t) <= 1;
      }
      assert Count(rs, x.id, x.time) <= 1;
    }
    if AtMostOnce(more) && Count(more, x.id, x.time) == 0 {
      forall id, t
        ensures Count(rs, id, t) <= 1
      {
        assert Count(more, id, t) <= 1;
      }
    }
  }

  /** A signal changes at most once at a time. */
  ghost predicate OnceEach(rs: seq<Rec>, id: nat) {
    forall t :: Count(rs, id, t) <= 1
  }

  lemma EachSignal(rs: seq<Rec>)
    ensures TimesDistinct(rs) <==> forall id :: OnceEach(rs, id)
  {
    hide Count, TimesDistinct;
    DistinctCounts(rs);
    if forall id :: OnceEach(rs, id) {
      forall id, t
        ensures Count(rs, id, t) <= 1
      {
        assert OnceEach(rs, id);
      }
    }
  }

  lemma NoneTwice(id: nat)
    ensures OnceEach([], id) && AllOnce([], id)
  {
  }

  // ---- What a drain and a snapshot write ----

  ghost predicate HasId(sigs: seq<Signal>, i: nat, id: nat) {
    exists k :: i <= k < |sigs| && sigs[k].id == id
  }

  lemma HasIdStep(sigs: seq<Signal>, i: nat, id: nat)
    requires i < |sigs| && IdsDistinct(sigs)
    ensures HasId(sigs, i, id) <==> sigs[i].id == id || HasId(sigs, i + 1, id)
    ensures sigs[i].id == id ==> !HasId(sigs, i + 1, id)
  {
  }

  lemma MarkedIdStep(s: State, i: nat, id: nat)
    requires |s.changed| == |s.sigs| && i < |s.sigs|
    ensures MarkedId(s, i, id) <==> (s.changed[i] && s.sigs[i].id == id) || MarkedId(s, i + 1, id)
    ensures MarkedId(s, i + 1, id) ==> HasId(s.sigs, i + 1, id)
  {
  }

  lemma {:induction false} CountMarked(s: State, t: nat, values: seq<bytes>, i: nat, id: nat, at: nat)
    requires |s.changed| == |s.sigs| == |values| && i <= |s.sigs| && IdsDistinct(s.sigs)
    ensures Count(Marked(s, t, values, i), id, at) == if at == t && MarkedId(s, i, id) then 1 else 0
    decreases |s.sigs| - i
  {
    if i < |s.sigs| {
      hide MarkedId, HasId, IdsDistinct;
      CountMarked(s, t, values, i + 1, id, at);
      HasIdStep(s.sigs, i, id);
      MarkedIdStep(s, i, id);
      CountAppend(if s.changed[i] then [RecOf(s, i, t, values[i])] else [], Marked(s, t, values, i + 1), id, at);
    }
  }

  lemma {:induction false} CountEverything(s: State, t: nat, values: seq<bytes>, i: nat, id: nat, at: nat)
    requires |s.sigs| == |values| && i <= |s.sigs| && IdsDistinct(s.sigs)
    ensures Count(Everything(s, t, values, i), id, at) == if at == t && HasId(s.sigs, i, id) then 1 else 0
    decreases |s.sigs| - i
  {
    if i < |s.sigs| {
      hide HasId, IdsDistinct;
      CountEverything(s, t, values, i + 1, id, at);
      HasIdStep(s.sigs, i, id);
      CountAppend([RecOf(s, i, t, values[i])], Everything(s, t, values, i + 1), id, at);
    }
  }

  /** A drain keeps a signal's held changes apart exactly when the signal is not marked while it already has
      a held change at the drain's own time. */
  lemma DrainStaysDistinct(held: seq<Rec>, s: State, t: nat, values: seq<bytes>, id: nat)
    requires |s.changed| == |s.sigs| == |values| && IdsDistinct(s.sigs)
    ensures OnceEach(held + Marked(s, t, values, 0), id) <==> OnceEach(held, id) && !(MarkedId(s, 0, id) && HasRec(held, id, t))
  {
    hide Count, MarkedId, HasRec, IdsDistinct;
    var more := Marked(s, t, values, 0);
    CountHas(held, id, t);
    forall at
      ensures Count(held + more, id, at) == Count(held, id, at) + if at == t && MarkedId(s, 0, id) then 1 else 0
    {
      CountAppend(held, more, id, at);
      CountMarked(s, t, values, 0, id, at);
    }
    if OnceEach(held + more, id) {
      assert Count(held + more, id, t) <= 1;
      forall at
        ensures Count(held, id, at) <= 1
      {
        assert Count(held + more, id, at) <= 1;
      }
    }
  }

  // ---- Blocks of a grouped flush ----

  ghost predicate AllOnce(bs: seq<Block>, id: nat) {
    forall b :: b in bs ==> OnceEach(b.changes, id)
  }

  /** A signal's changes are all of one scope. */
  ghost predicate Agree(rs: seq<Rec>) {
    forall x, y :: x in rs && y in rs && x.id == y.id ==> x.scope == y.scope
  }

  lemma {:induction false} CountOfScope(rs: seq<Rec>, scope: nat, id: nat, t: nat)
    ensures Count(OfScope(rs, scope), id, t) <= Count(rs, id, t)
    ensures (forall r :: r in rs && r.id == id ==> r.scope == scope) ==> Count(OfScope(rs, scope), id, t) == Count(rs, id, t)
    decreases |rs|
  {
    if rs != [] {
      CountOfScope(rs[1..], scope, id, t);
      var first := if rs[0].scope == scope then [rs[0]] else [];
      CountAppend(first, OfScope(rs[1..], scope), id, t);
      assert rs[0] in rs && forall r :: r in rs[1..] ==> r in rs;
    }
  }

  /** The blocks keep a signal's changes apart exactly if the buffer did. */
  lemma GroupsDistinct(gs: seq<Block>, rs: seq<Rec>, id: nat)
    requires OnePerScope(gs, rs) && Agree(rs)
    ensures AllOnce(gs, id) <==> OnceEach(rs, id)
  {
    hide OfScope, ScopeOf, Count, Agree, ScopesClimb;
    if OnceEach(rs, id) {
      forall i, t | 0 <= i < |gs|
        ensures Count(gs[i].changes, id, t) <= 1
      {
        CountMultiset(gs[i].changes, OfScope(rs, ScopeOf(gs[i])), id, t);
        CountOfScope(rs, ScopeOf(gs[i]), id, t);
        assert Count(rs, id, t) <= 1;
      }
    }
    if AllOnce(gs, id) {
      forall t
        ensures Count(rs, id, t) <= 1
      {
        if Count(rs, id, t) > 0 {
          var i := GroupWith(gs, rs, id, t);
          assert OnceEach(gs[i].changes, id) && Count(gs[i].changes, id, t) <= 1;
        }
      }
    }
  }

  /** One block has all the changes of a signal. */
  lemma GroupWith(gs: seq<Block>, rs: seq<Rec>, id: nat, t: nat) returns (i: nat)
    requires AllCovered(gs, rs) && ScopesExact(gs, rs) && Agree(rs) && Count(rs, id, t) > 0
    ensures i < |gs| && Count(gs[i].changes, id, t) == Count(rs, id, t)
  {
    hide OfScope, ScopeOf;
    CountHas(rs, id, t);
    var r :| r in rs && r.id == id && r.time == t;
    i :| 0 <= i < |gs| && ScopeOf(gs[i]) == r.scope;
    CountMultiset(gs[i].changes, OfScope(rs, r.scope), id, t);
    CountOfScope(rs, r.scope, id, t);
  }

  // ---- What each step does to a recording ----

  /** Neither the finished blocks nor what is held have the signal twice at one time. */
  ghost predicate Clean(c: Config, s: State, id: nat) {
    AllOnce(s.out.done, id) && OnceEach(Held(c, s), id)
  }

  ghost predicate FromSigs(rs: seq<Rec>, sigs: seq<Signal>) {
    forall r :: r in rs ==> Signal(r.id, r.scope) in sigs
  }

  /** Signals have their own ids, and everything held is theirs. */
  ghost predicate Tagged(c: Config, s: State) {
    IdsDistinct(s.sigs) && FromSigs(Held(c, s), s.sigs)
  }

  /** Same cleanliness, and nothing new held. */
  ghost predicate SameClean(c: Config, s: State, s': State, id: nat) {
    (Clean(c, s', id) <==> Clean(c, s, id)) && s'.sigs == s.sigs && (Held(c, s') == Held(c, s) || Held(c, s') == [])
  }

  lemma TaggedAgree(rs: seq<Rec>, sigs: seq<Signal>)
    requires IdsDistinct(sigs) && FromSigs(rs, sigs)
    ensures Agree(rs)
  {
    forall x, y | x in rs && y in rs && x.id == y.id
      ensures x.scope == y.scope
    {
      var i :| 0 <= i < |sigs| && sigs[i] == Signal(x.id, x.scope);
      var j :| 0 <= j < |sigs| && sigs[j] == Signal(y.id, y.scope);
    }
  }

  lemma OnceJoin(a: seq<Block>, b: seq<Block>, id: nat)
    ensures AllOnce(a + b, id) <==> AllOnce(a, id) && AllOnce(b, id)
  {
    assert forall x :: x in a + b <==> x in a || x in b;
  }

  lemma FlushPendingClean(c: Config, s: State, t: nat, id: nat)
    requires c.grouped && Core(c, s) && Tagged(c, s)
    ensures SameClean(c, s, FlushPending(s, t), id) && Held(c, FlushPending(s, t)) == []
  {
    hide Core, EmitFrom, Groups, OnceEach, AllOnce, OnePerScope, BlocksOk, IdsDistinct, FromSigs;
    var gs := Groups(S.Sort(s.pending, ByScope), s.start);
    GroupedFlush(c, s, t);
    TaggedAgree(s.pending, s.sigs);
    GroupsDistinct(gs, s.pending, id);
    OnceJoin(s.out.done, gs, id);
    FlushPendingLog(s, t);
    NoneTwice(id);
  }

  lemma FlushBlockClean(c: Config, s: State, id: nat)
    requires !c.grouped && Core(c, s)
    ensures SameClean(c, s, FlushBlock(s), id) && Held(c, FlushBlock(s)) == []
  {
    hide Core, OnceEach;
    if s.active {
      OnceJoin(s.out.done, [s.out.vc], id);
    }
    NoneTwice(id);
  }

  lemma DoFlushClean(c: Config, s: State, t: nat, id: nat)
    requires Core(c, s) && Tagged(c, s)
    ensures SameClean(c, s, DoFlush(c, s, t), id)
  {
    hide Core, Clean, FlushPending, FlushBlock;
    if s.open {
      if c.grouped {
        FlushPendingClean(c, s, t, id);
      } else {
        FlushBlockClean(c, s, id);
      }
    }
  }

  lemma {:induction false} WriteSomeHeld(c: Config, s: State, rs: seq<Rec>)
    requires c.grouped || s.active
    ensures var s' := WriteSome(c, s, rs);
            Held(c, s') == Held(c, s) + rs && s'.out.done == s.out.done && SameButWritten(s, s')
    decreases |rs|
  {
    if rs == [] {
      assert Held(c, s) + [] == Held(c, s);
    } else {
      var one := WriteOne(c, s, rs[0]);
      assert Held(c, one) == Held(c, s) + [rs[0]];
      WriteSomeHeld(c, one, rs[1..]);
      assert (Held(c, s) + [rs[0]]) + rs[1..] == Held(c, s) + rs;
    }
  }

  lemma SameCleanTwice(c: Config, s: State, s1: State, s2: State, id: nat)
    requires SameClean(c, s, s1, id) && SameClean(c, s1, s2, id)
    ensures SameClean(c, s, s2, id)
  {
    hide Clean;
  }

  lemma StillTagged(c: Config, s: State, s': State, id: nat)
    requires Tagged(c, s) && SameClean(c, s, s', id)
    ensures Tagged(c, s')
  {
    hide Clean, IdsDistinct;
  }

  /** What follows the writing of a drain changes nothing. */
  lemma AfterWritingClean(c: Config, w: State, t: nat, id: nat)
    requires Core(c, w) && Ready(c, w, t) && Tagged(c, w)
    ensures SameClean(c, w, CheckLimit(c, AutoFlush(c, w, t), t), id)
  {
    hide Core, Clean, FlushPending, Tagged, BelowInterval;
    var a := AutoFlush(c, w, t);
    AutoFlushKeeps(c, w, t);
    if w.count >= c.interval {
      if c.grouped {
        FlushPendingClean(c, w, t, id);
      } else {
        FlushBlockClean(c, w, id);
        ActiveFlush(w);
      }
    }
    StillTagged(c, w, a, id);
    if !(a.limit == 0 || !a.open || a.paused || a.count * 16 < a.limit) {
      DoFlushClean(c, a, t, id);
      PausedSame(c, DoFlush(c, a, t), id);
      SameCleanTwice(c, a, DoFlush(c, a, t), CheckLimit(c, a, t), id);
    }
    SameCleanTwice(c, w, a, CheckLimit(c, a, t), id);
  }

  lemma PausedSame(c: Config, s: State, id: nat)
    ensures SameClean(c, s, s.(paused := true), id) && SameClean(c, s, s.(paused := false), id)
  {
  }

  lemma LaterSame(c: Config, s: State, t: nat, id: nat)
    ensures SameClean(c, s, s.(now := t), id) && Held(c, s.(now := t)) == Held(c, s)
  {
  }

  /** A drain that finds the signal marked while a change of it is held at the drain's own time. */
  ghost predicate Clashes(c: Config, s: State, op: Op, id: nat) {
    op.Drain? && s.open && !s.paused && MarkedId(s, 0, id) && HasRec(Held(c, s), id, op.t)
  }

  lemma DrainClean(c: Config, s: State, t: nat, values: seq<bytes>, id: nat)
    requires Sound(c, s) && Tagged(c, s) && t == s.now && |values| == |s.sigs|
    ensures var s' := DrainMarks(c, s, t, values);
            (Clean(c, s', id) <==> Clean(c, s, id) && !Clashes(c, s, Drain(t, values), id)) && Tagged(c, s')
  {
    hide Core, Sound, Marked, AutoFlush, CheckLimit, WriteSome, OnceEach, AllOnce, MarkedId, HasRec;
    CoreOfSound(c, s);
    UnmarkedKeeps(c, s);
    var u := Unmarked(s);
    assert Held(c, u) == Held(c, s);
    if s.open && !s.paused {
      var rs := Marked(s, t, values, 0);
      MarkedOk(s, t, values, 0);
      MarkedFromSigs(s, t, values, 0);
      var o := OpenIfNeeded(c, u, t);
      OpenKeeps(c, u, t);
      assert Held(c, o) == Held(c, s) && o.out.done == s.out.done;
      WriteSomeKeeps(c, o, t, rs);
      WriteSomeHeld(c, o, rs);
      var w := WriteSome(c, o, rs);
      assert Tagged(c, w);
      AfterWritingClean(c, w, t, id);
      StillTagged(c, w, DrainMarks(c, s, t, values), id);
      DrainStaysDistinct(Held(c, s), s, t, values, id);
    }
  }

  lemma {:induction false} MarkedFromSigs(s: State, t: nat, values: seq<bytes>, i: nat)
    requires |s.changed| == |s.sigs| == |values| && i <= |s.sigs|
    ensures FromSigs(Marked(s, t, values, i), s.sigs)
    decreases |s.sigs| - i
  {
    if i < |s.sigs| {
      MarkedFromSigs(s, t, values, i + 1);
      assert s.sigs[i] == Signal(s.sigs[i].id, s.sigs[i].scope);
    }
  }

  lemma {:induction false} EverythingFromSigs(s: State, t: nat, values: seq<bytes>, i: nat)
    requires |s.sigs| == |values| && i <= |s.sigs|
    ensures FromSigs(Everything(s, t, values, i), s.sigs)
    decreases |s.sigs| - i
  {
    if i < |s.sigs| {
      EverythingFromSigs(s, t, values, i + 1);
      assert s.sigs[i] == Signal(s.sigs[i].id, s.sigs[i].scope);
    }
  }

  lemma EverythingOnce(s: State, t: nat, values: seq<bytes>, id: nat)
    requires |s.sigs| == |values| && IdsDistinct(s.sigs)
    ensures OnceEach(Everything(s, t, values, 0), id)
  {
    hide Count, IdsDistinct;
    forall at
      ensures Count(Everything(s, t, values, 0), id, at) <= 1
    {
      CountEverything(s, t, values, 0, id, at);
    }
  }

  /** A snapshot goes into blocks of its own, where every signal comes once. */
  lemma SnapshotClean(c: Config, s: State, t: nat, values: seq<bytes>, id: nat)
    requires Sound(c, s) && Tagged(c, s) && s.open && !s.paused && t == s.now && |values| == |s.sigs|
    ensures SameClean(c, s, Snapshot(c, s, t, values), id)
  {
    hide Sound, Core, Everything, WriteSome, FlushPending, FlushBlock, Clean, Tagged;
    CoreOfSound(c, s);
    if s.sigs != [] {
      var all := Everything(s, t, values, 0);
      assert IdsDistinct(s.sigs) by {
        TaggedIds(c, s);
      }
      EverythingOk(s, t, values, 0);
      EverythingFromSigs(s, t, values, 0);
      EverythingOnce(s, t, values, id);
      if c.grouped {
        SnapshotGroupedClean(c, s, t, all, id);
      } else {
        SnapshotDirectClean(c, s, t, all, id);
      }
    }
  }

  lemma TaggedIds(c: Config, s: State)
    requires Tagged(c, s)
    ensures IdsDistinct(s.sigs)
  {
  }

  /** Written into an empty block. */
  lemma FreshClean(c: Config, s: State, all: seq<Rec>, w: State, id: nat)
    requires Held(c, s) == [] && Held(c, w) == Held(c, s) + all && w.out.done == s.out.done && w.sigs == s.sigs
    requires Tagged(c, s) && OnceEach(all, id) && FromSigs(all, s.sigs)
    ensures (Clean(c, w, id) <==> Clean(c, s, id)) && Tagged(c, w)
  {
    assert [] + all == all;
  }

  lemma SnapshotGroupedClean(c: Config, s: State, t: nat, all: seq<Rec>, id: nat)
    requires c.grouped && Core(c, s) && Tagged(c, s) && s.open && !s.paused && t == s.now
    requires OnceEach(all, id) && FromSigs(all, s.sigs) && forall i :: 0 <= i < |all| ==> all[i].time == t && all[i].scope < NO_SCOPE
    ensures var s' := FlushPending(WriteSome(c, FlushPending(s, t).(start := t), all), t).(active := false, count := 0);
            SameClean(c, s, s', id)
  {
    hide Core, FlushPending, WriteSome, Clean, Tagged, OnceEach, FromSigs;
    FlushPendingKeeps(c, s, t);
    FlushPendingLog(s, t);
    FlushPendingClean(c, s, t, id);
    var f := FlushPending(s, t);
    StillTagged(c, s, f, id);
    RestartKeeps(c, f, t);
    var g := f.(start := t);
    SameStart(c, f, t, id);
    StillTagged(c, f, g, id);
    WriteSomeKeeps(c, g, t, all);
    WriteSomeHeld(c, g, all);
    var w := WriteSome(c, g, all);
    FreshClean(c, g, all, w, id);
    FlushPendingClean(c, w, t, id);
    FlushPendingKeeps(c, w, t);
    FlushPendingLog(w, t);
    AlreadyInactive(c, FlushPending(w, t));
  }

  lemma SameStart(c: Config, s: State, t: nat, id: nat)
    ensures SameClean(c, s, s.(start := t), id) && Held(c, s.(start := t)) == Held(c, s)
  {
  }

  lemma SnapshotDirectClean(c: Config, s: State, t: nat, all: seq<Rec>, id: nat)
    requires !c.grouped && Core(c, s) && Tagged(c, s) && s.open && !s.paused && t == s.now
    requires OnceEach(all, id) && FromSigs(all, s.sigs) && forall i :: 0 <= i < |all| ==> all[i].time == t && all[i].scope < NO_SCOPE
    ensures var begun := FlushBlock(s);
            var w := WriteSome(c, begun.(out := Begin(begun.out, t), active := true, start := t), all);
            SameClean(c, s, w.(out := Flush(w.out), active := false, count := 0), id)
  {
    hide Core, FlushBlock, WriteSome, Clean, Tagged, OnceEach, FromSigs;
    FlushBlockKeeps(c, s);
    FlushBlockSame(s);
    FlushBlockClean(c, s, id);
    var begun := FlushBlock(s);
    StillTagged(c, s, begun, id);
    BeginKeeps(c, begun, t);
    var b := begun.(out := Begin(begun.out, t), active := true, start := t);
    BeginClean(c, begun, t, id);
    StillTagged(c, begun, b, id);
    WriteSomeKeeps(c, b, t, all);
    WriteSomeHeld(c, b, all);
    var w := WriteSome(c, b, all);
    FreshClean(c, b, all, w, id);
    FlushBlockClean(c, w, id);
    ActiveFlush(w);
  }

  lemma BeginClean(c: Config, s: State, t: nat, id: nat)
    requires !c.grouped && !s.active
    ensures var b := s.(out := Begin(s.out, t), active := true, start := t);
            SameClean(c, s, b, id) && Held(c, b) == []
  {
  }

  // ---- Runs ----

  function Added(ops: seq<Op>): seq<Signal> {
    if ops == [] then []
    else (if ops[0].AddSignal? then [ops[0].sig] else []) + Added(ops[1..])
  }

  lemma IdsPart(a: seq<Signal>, b: seq<Signal>)
    requires IdsDistinct(a + b)
    ensures IdsDistinct(a) && IdsDistinct(b)
  {
    assert forall i :: 0 <= i < |a| ==> (a + b)[i] == a[i];
    assert forall i :: 0 <= i < |b| ==> (a + b)[|a| + i] == b[i];
  }

  lemma StepClean(c: Config, s: State, op: Op, id: nat)
    requires Sound(c, s) && BelowInterval(c, s) && |s.changed| == |s.sigs| && Legal(s, op) && Tagged(c, s)
    requires op.AddSignal? ==> IdsDistinct(s.sigs + [op.sig])
    ensures (Clean(c, Step(c, s, op), id) <==> Clean(c, s, id) && !Clashes(c, s, op, id)) && Tagged(c, Step(c, s, op))
  {
    hide Sound, Core, DrainMarks, DoFlush, Snapshot, Clean, Tagged, MarksOk;
    match op
    case OpenFile => FieldsSame(c, s, Step(c, s, op), id);
    case AddSignal(sig) => AddClean(c, s, sig, id);
    case ValueChange(idx) => FieldsSame(c, s, Step(c, s, op), id);
    case DumpLimit(n) => FieldsSame(c, s, Step(c, s, op), id);
    case Drain(t, values) =>
      LaterKeeps(c, s, t);
      FieldsSame(c, s, s.(now := t), id);
      DrainClean(c, s.(now := t), t, values, id);
    case DumpOff(t) => FlushedClean(c, s, t, id);
    case DumpFlush(t) => FlushedClean(c, s, t, id);
    case DumpOn(t, values) => ResumedClean(c, s, t, values, id);
    case DumpAll(t, values) =>
      LaterKeeps(c, s, t);
      FieldsSame(c, s, s.(now := t), id);
      var s1 := s.(now := t);
      if !s.paused && s.open {
        SnapshotClean(c, s1, t, values, id);
        StillTagged(c, s1, Snapshot(c, s1, t, values), id);
      } else if !s.paused {
        ClosedSnapshot(c, s1, t, values);
      }
    case EndOfSimulation(t) =>
      FlushedClean(c, s, t, id);
      ClosedClean(c, s.(now := t), t, id);
  }

  lemma ClosedSnapshot(c: Config, s: State, t: nat, values: seq<bytes>)
    requires |s.sigs| == |values| && !s.open
    ensures Snapshot(c, s, t, values) == s
  {
  }

  lemma ResumedClean(c: Config, s: State, t: nat, values: seq<bytes>, id: nat)
    requires Sound(c, s) && |s.changed| == |s.sigs| && Legal(s, DumpOn(t, values)) && Tagged(c, s)
    ensures SameClean(c, s, Step(c, s, DumpOn(t, values)), id) && Tagged(c, Step(c, s, DumpOn(t, values)))
  {
    hide Sound, Core, Snapshot, Clean, Tagged;
    LaterKeeps(c, s, t);
    FieldsSame(c, s, s.(now := t), id);
    if s.open {
      var s1, s2 := s.(now := t), s.(now := t, paused := false);
      ResumeKeeps(c, s1);
      FieldsSame(c, s, s2, id);
      SnapshotClean(c, s2, t, values, id);
      SameCleanTwice(c, s, s2, Snapshot(c, s2, t, values), id);
      StillTagged(c, s2, Snapshot(c, s2, t, values), id);
    }
  }

  /** Fields that hold no changes do not matter. */
  lemma FieldsSame(c: Config, s: State, s': State, id: nat)
    requires s'.out == s.out && s'.pending == s.pending && s'.active == s.active && s'.sigs == s.sigs
    ensures SameClean(c, s, s', id) && (Tagged(c, s) ==> Tagged(c, s')) && Held(c, s') == Held(c, s)
  {
  }

  lemma AddClean(c: Config, s: State, sig: Signal, id: nat)
    requires Tagged(c, s) && IdsDistinct(s.sigs + [sig])
    ensures var s' := s.(sigs := s.sigs + [sig], changed := s.changed + [false]);
            (Clean(c, s', id) <==> Clean(c, s, id)) && Tagged(c, s')
  {
    assert forall x :: x in s.sigs ==> x in s.sigs + [sig];
  }

  lemma FlushedClean(c: Config, s: State, t: nat, id: nat)
    requires Sound(c, s) && t >= s.now && Tagged(c, s)
    ensures var f := DoFlush(c, s.(now := t), t);
            SameClean(c, s, f, id) && Tagged(c, f) && SameClean(c, s, f.(paused := true), id) && Tagged(c, f.(paused := true)) &&
            SameClean(c, s, s.(now := t), id) && Tagged(c, s.(now := t)) && Core(c, s.(now := t))
  {
    hide Sound, Core, DoFlush, Clean, Tagged;
    var s1 := s.(now := t);
    LaterKeeps(c, s, t);
    CoreOfSound(c, s1);
    FieldsSame(c, s, s1, id);
    var f := DoFlush(c, s1, t);
    DoFlushClean(c, s1, t, id);
    SameCleanTwice(c, s, s1, f, id);
    StillTagged(c, s1, f, id);
    FieldsSame(c, f, f.(paused := true), id);
    SameCleanTwice(c, s, f, f.(paused := true), id);
  }

  lemma ClosedClean(c: Config, s: State, t: nat, id: nat)
    requires Core(c, s) && Tagged(c, s) && t == s.now
    ensures (Clean(c, Closed(c, s, t), id) <==> Clean(c, s, id)) && Tagged(c, Closed(c, s, t)) && Held(c, Closed(c, s, t)) == []
  {
    hide DoFlush, Conserved, BlocksOk, SigsOk, InTime, Core, OnceEach, AllOnce;
    DoFlushClean(c, s, t, id);
    DoFlushKeeps(c, s, t);
    FlushedInactive(c, s, t);
    NoneTwice(id);
  }

  lemma FlushedInactive(c: Config, s: State, t: nat)
    requires Core(c, s) && t == s.now
    ensures s.open ==> !DoFlush(c, s, t).out.active
  {
    hide Conserved, BlocksOk, SigsOk, InTime, EmitFrom, OnePerScope;
    if s.open && c.grouped {
      GroupedFlush(c, s, t);
    }
  }

  /** No drain of the run clashes on the signal. */
  ghost predicate CalmRun(c: Config, s: State, ops: seq<Op>, id: nat)
    requires LegalRun(c, s, ops)
    decreases |ops|
  {
    ops == [] || (!Clashes(c, s, ops[0], id) && CalmRun(c, Step(c, s, ops[0]), ops[1..], id))
  }

  lemma {:induction false} RunClean(c: Config, s: State, ops: seq<Op>, id: nat)
    requires Sound(c, s) && BelowInterval(c, s) && LegalRun(c, s, ops) && Tagged(c, s)
    requires IdsDistinct(s.sigs + Added(ops))
    ensures Clean(c, Run(c, s, ops), id) <==> Clean(c, s, id) && CalmRun(c, s, ops, id)
    decreases |ops|
  {
    hide Sound, BelowInterval, Step, Legal, Clean, Tagged, Clashes, IdsDistinct;
    if ops != [] {
      var op, s' := ops[0], Step(c, s, ops[0]);
      StepKeeps(c, s, op);
      IdsLeft(c, s, op, Added(ops[1..]));
      StepClean(c, s, op, id);
      RunClean(c, s', ops[1..], id);
    }
  }

  lemma IdsLeft(c: Config, s: State, op: Op, later: seq<Signal>)
    requires |s.changed| == |s.sigs| && Legal(s, op)
    requires IdsDistinct(s.sigs + ((if op.AddSignal? then [op.sig] else []) + later))
    ensures IdsDistinct(Step(c, s, op).sigs + later)
    ensures op.AddSignal? ==> IdsDistinct(s.sigs + [op.sig])
  {
    hide IdsDistinct, DrainMarks, DoFlush, Snapshot;
    SigsStay(c, s, op);
    var first := if op.AddSignal? then [op.sig] else [];
    assert s.sigs + (first + later) == (s.sigs + first) + later;
    assert s.sigs + [] == s.sigs && [] + later == later;
    IdsPart(s.sigs + first, later);
  }

  lemma SigsStay(c: Config, s: State, op: Op)
    requires |s.changed| == |s.sigs| && Legal(s, op)
    ensures Step(c, s, op).sigs ==
            if op.AddSignal? then s.sigs + [op.sig] else if op.EndOfSimulation? then [] else s.sigs
  {
    hide FlushPending, FlushBlock, DrainMarks, Snapshot, DoFlush;
    match op
    case Drain(t, values) => DrainSigs(c, s.(now := t), t, values);
    case DumpOn(t, values) => SnapshotSigs(c, s.(now := t, paused := false), t, values);
    case DumpAll(t, values) => SnapshotSigs(c, s.(now := t), t, values);
    case DumpOff(t) => FlushSigs(c, s.(now := t), t);
    case DumpFlush(t) => FlushSigs(c, s.(now := t), t);
    case _ =>
  }

  lemma FlushSigs(c: Config, s: State, t: nat)
    ensures DoFlush(c, s, t).sigs == s.sigs && FlushPending(s, t).sigs == s.sigs && FlushBlock(s).sigs == s.sigs
  {
    hide EmitFrom;
  }

  lemma DrainSigs(c: Config, s: State, t: nat, values: seq<bytes>)
    requires |s.changed| == |s.sigs| == |values|
    ensures DrainMarks(c, s, t, values).sigs == s.sigs
  {
    hide Marked, WriteSome, AutoFlush, CheckLimit;
    var o := OpenIfNeeded(c, Unmarked(s), t);
    var w := WriteSome(c, o, Marked(s, t, values, 0));
    WriteSigs(c, o, Marked(s, t, values, 0));
    AfterSigs(c, w, t);
  }

  lemma AfterSigs(c: Config, s: State, t: nat)
    ensures CheckLimit(c, AutoFlush(c, s, t), t).sigs == s.sigs
  {
    hide FlushPending, FlushBlock, DoFlush;
    FlushSigs(c, s, t);
    FlushSigs(c, AutoFlush(c, s, t), t);
  }

  lemma SnapshotSigs(c: Config, s: State, t: nat, values: seq<bytes>)
    requires |s.sigs| == |values|
    ensures Snapshot(c, s, t, values).sigs == s.sigs
  {
    hide EmitFrom, Everything, WriteSome;
    var all := Everything(s, t, values, 0);
    WriteSigs(c, FlushPending(s, t).(start := t), all);
    WriteSigs(c, FlushBlock(s).(out := Begin(FlushBlock(s).out, t), active := true, start := t), all);
  }

  lemma {:induction false} WriteSigs(c: Config, s: State, rs: seq<Rec>)
    ensures WriteSome(c, s, rs).sigs == s.sigs
    decreases |rs|
  {
    if rs != [] {
      WriteSigs(c, WriteOne(c, s, rs[0]), rs[1..]);
    }
  }

  /** Over any run with signals of different ids, for each signal: no block, finished or collected, has two
      changes of it at one time if and only if no drain found it marked while a change of it was held at the
      drain's time. */
  lemma SignalDistinctExactly(c: Config, ops: seq<Op>, id: nat)
    requires LegalRun(c, START, ops) && IdsDistinct(Added(ops))
    ensures var s := Run(c, START, ops);
            ((forall b :: b in s.out.done ==> OnceEach(b.changes, id)) && OnceEach(Held(c, s), id) <==> CalmRun(c, START, ops, id))
  {
    hide Sound, BelowInterval, Step, Legal, Clashes, Run, CalmRun, LegalRun, IdsDistinct;
    StartIsSound(c);
    assert IdsDistinct(START.sigs) && FromSigs(Held(c, START), START.sigs) by {
      NoSignals();
    }
    assert START.sigs + Added(ops) == Added(ops);
    NoneTwice(id);
    RunClean(c, START, ops, id);
  }

  /** No block, finished or collected, has two changes of one signal at one time. */
  ghost predicate RecordsDistinct(c: Config, s: State) {
    (forall b :: b in s.out.done ==> TimesDistinct(b.changes)) && TimesDistinct(Held(c, s))
  }

  /** For all signals together. */
  lemma BlocksDistinctExactly(c: Config, ops: seq<Op>)
    requires LegalRun(c, START, ops) && IdsDistinct(Added(ops))
    ensures RecordsDistinct(c, Run(c, START, ops)) <==> forall id :: CalmRun(c, START, ops, id)
  {
    hide Run, CalmRun, LegalRun, IdsDistinct, RecordsDistinct, OnceEach, Held;
    var s := Run(c, START, ops);
    AllSignals(c, s);
    forall id
      ensures Clean(c, s, id) <==> CalmRun(c, START, ops, id)
    {
      SignalDistinctExactly(c, ops, id);
    }
    if RecordsDistinct(c, s) {
      assert forall id :: CalmRun(c, START, ops, id);
    } else {
      var id :| !Clean(c, s, id);
      assert !CalmRun(c, START, ops, id);
    }
  }

  lemma AllSignals(c: Config, s: State)
    ensures RecordsDistinct(c, s) <==> forall id :: Clean(c, s, id)
  {
    hide TimesDistinct, OnceEach, Held;
    EachSignal(Held(c, s));
    forall b | b in s.out.done
      ensures TimesDistinct(b.changes) <==> forall id :: OnceEach(b.changes, id)
    {
      EachSignal(b.changes);
    }
    if RecordsDistinct(c, s) {
      forall id
        ensures Clean(c, s, id)
      {
        assert AllOnce(s.out.done, id);
      }
    } else if forall id :: Clean(c, s, id) {
      assert forall id :: Clean(c, s, id) ==> OnceEach(Held(c, s), id);
      forall b, id | b in s.out.done
        ensures OnceEach(b.changes, id)
      {
        assert Clean(c, s, id);
      }
    }
  }

  lemma NoSignals()
    ensures IdsDistinct([]) && FromSigs([], [])
  {
  }

  // ---- A run that does it ----

  lemma Then(c: Config, s: State, op: Op, rest: seq<Op>)
    requires |s.changed| == |s.sigs| && Legal(s, op) && LegalRun(c, Step(c, s, op), rest)
    ensures LegalRun(c, s, [op] + rest) && Run(c, s, [op] + rest) == Run(c, Step(c, s, op), rest)
  {
    hide Step, Legal;
    assert ([op] + rest)[1..] == rest;
  }

  const ONE: Signal := Signal(1, 0)

  /** One signal that changes twice at time 5, with a drain after each change. */
  function TwoDrains(a: bytes, b: bytes): seq<Op> {
    [OpenFile] + ([AddSignal(ONE)] + ([ValueChange(0)] + ([Drain(5, [a])] +
      ([ValueChange(0)] + ([Drain(5, [b])] + ([EndOfSimulation(5)] + []))))))
  }

  /** The state after the first drain, and after the second change. */
  function AfterDrain(c: Config, a: bytes, marked: bool): State {
    var r := Rec(0, 1, 5, a);
    if c.grouped then
      State(true, true, [ONE], [marked], marked, false, 5, 1, [r], false, 0, START.out, 5, [r])
    else
      State(true, true, [ONE], [marked], marked, true, 5, 1, [], false, 0, Out(Block(5, [r]), true, []), 5, [r])
  }

  lemma OneMark(s: State, t: nat, value: bytes)
    requires s.sigs == [ONE] && s.changed == [true]
    ensures Marked(s, t, [value], 0) == [Rec(0, 1, t, value)] && Unmarked(s).changed == [false]
  {
    assert Marked(s, t, [value], 1) == [];
  }

  lemma WriteJust(c: Config, s: State, r: Rec)
    ensures WriteSome(c, s, [r]) == WriteOne(c, s, r)
  {
    assert WriteSome(c, WriteOne(c, s, r), []) == WriteOne(c, s, r);
  }

  lemma FirstDrain(c: Config, a: bytes)
    requires c.interval >= 2
    ensures var s := START.(used := true, open := true, sigs := [ONE], changed := [true], outstanding := true);
            Step(c, s, Drain(5, [a])) == AfterDrain(c, a, false)
  {
    hide FlushPending;
    var s := START.(used := true, open := true, sigs := [ONE], changed := [true], outstanding := true).(now := 5);
    OneMark(s, 5, a);
    var o := OpenIfNeeded(c, Unmarked(s), 5);
    WriteJust(c, o, Rec(0, 1, 5, a));
    assert o.pending + [Rec(0, 1, 5, a)] == [Rec(0, 1, 5, a)] == o.log + [Rec(0, 1, 5, a)];
  }

  /** Both changes, held or already in a finished block. */
  lemma SecondDrain(c: Config, a: bytes, b: bytes)
    requires c.interval >= 2
    ensures var s := Step(c, AfterDrain(c, a, true), Drain(5, [b]));
            |s.changed| == |s.sigs| && s.now == 5 && Step(c, s, EndOfSimulation(5)).out.done == [Block(5, [Rec(0, 1, 5, a), Rec(0, 1, 5, b)])]
  {
    var s, r, r2 := AfterDrain(c, a, true), Rec(0, 1, 5, a), Rec(0, 1, 5, b);
    OneMark(s, 5, b);
    var o := OpenIfNeeded(c, Unmarked(s), 5);
    WriteJust(c, o, r2);
    var w := WriteOne(c, o, r2);
    assert [r] + [r2] == [r, r2];
    if c.grouped {
      TwoEmitted(w.out, r, r2);
      assert w.pending == [r, r2] && FlushPending(w, 5).out.done == [Block(5, [r, r2])];
    } else {
      assert w.out == Out(Block(5, [r, r2]), true, []);
      assert [] + [Block(5, [r, r2])] == [Block(5, [r, r2])];
    }
  }

  lemma TwoEmitted(o: Out, r: Rec, r2: Rec)
    requires r.scope == r2.scope == 0 && r.time == r2.time && o.done == []
    ensures S.Sort([r, r2], ByScope) == [r, r2]
    ensures EmitFrom(o, 5, NO_SCOPE, [r, r2]).done == [Block(5, [r, r2])] && !EmitFrom(o, 5, NO_SCOPE, [r, r2]).active
  {
    assert [r, r2][..1] == [r] && [r][..0] == [];
    assert S.Sort([r], ByScope) == [r];
    var one := Change(Begin(o, 5), r);
    assert [r, r2][1..] == [r2] && [r2][1..] == [];
    var two := Change(one, r2);
    assert two.vc.changes == [] + [r] + [r2] == [r, r2];
    assert EmitFrom(two, 5, 0, []) == Flush(two);
    assert EmitFrom(one, 5, 0, [r2]) == Flush(two);
    assert [] + [two.vc] == [two.vc];
  }

  /** From the start and through the interface only: the finished block has two changes of the signal at
      time 5. */
  lemma TwiceInOneStep(c: Config, a: bytes, b: bytes)
    requires c.interval >= 2
    ensures LegalRun(c, START, TwoDrains(a, b))
    ensures Run(c, START, TwoDrains(a, b)).out.done == [Block(5, [Rec(0, 1, 5, a), Rec(0, 1, 5, b)])]
    ensures !TimesDistinct([Rec(0, 1, 5, a), Rec(0, 1, 5, b)]) && !CalmRun(c, START, TwoDrains(a, b), 1)
  {
    hide DrainMarks, Closed, LegalRun, Run;
    var s1 := START.(used := true, open := true);
    var s2 := s1.(sigs := [ONE], changed := [false]);
    var s3 := s2.(changed := [true], outstanding := true);
    var s4, s5 := AfterDrain(c, a, false), AfterDrain(c, a, true);
    assert [] + [ONE] == [ONE] && [] + [false] == [false] && [false][0 := true] == [true];
    FirstDrain(c, a);
    SecondDrain(c, a, b);
    var s6 := Step(c, s5, Drain(5, [b]));
    var s7 := Step(c, s6, EndOfSimulation(5));
    Done(c, s7);
    var r7: seq<Op> := [EndOfSimulation(5)] + [];
    var r6: seq<Op> := [Drain(5, [b])] + r7;
    var r5: seq<Op> := [ValueChange(0)] + r6;
    var r4: seq<Op> := [Drain(5, [a])] + r5;
    var r3: seq<Op> := [ValueChange(0)] + r4;
    var r2: seq<Op> := [AddSignal(ONE)] + r3;
    Then(c, s6, EndOfSimulation(5), []);
    Then(c, s5, Drain(5, [b]), r7);
    Then(c, s4, ValueChange(0), r6);
    Then(c, s3, Drain(5, [a]), r5);
    Then(c, s2, ValueChange(0), r4);
    Then(c, s1, AddSignal(ONE), r3);
    Then(c, START, OpenFile, r2);
    assert TwoDrains(a, b) == [OpenFile] + r2;
    TwiceThere(a, b);
    assert Added(TwoDrains(a, b)) == [ONE] by {
      OnlyOne(a, b);
    }
    TwiceCounted(a, b);
    SignalDistinctExactly(c, TwoDrains(a, b), 1);
  }

  lemma Done(c: Config, s: State)
    ensures LegalRun(c, s, []) && Run(c, s, []) == s
  {
  }

  lemma TwiceCounted(a: bytes, b: bytes)
    ensures !OnceEach([Rec(0, 1, 5, a), Rec(0, 1, 5, b)], 1)
  {
    var rs := [Rec(0, 1, 5, a), Rec(0, 1, 5, b)];
    assert rs[1..] == [Rec(0, 1, 5, b)] && rs[1..][1..] == [];
    assert Count(rs[1..][1..], 1, 5) == 0 && Count(rs[1..], 1, 5) == 1;
    assert Count(rs, 1, 5) == 2;
  }

  lemma TwiceThere(a: bytes, b: bytes)
    ensures !TimesDistinct([Rec(0, 1, 5, a), Rec(0, 1, 5, b)])
  {
    var rs := [Rec(0, 1, 5, a), Rec(0, 1, 5, b)];
    assert rs[0].id == rs[1].id;
  }

  lemma {:induction false} AddedCons(op: Op, rest: seq<Op>)
    ensures Added([op] + rest) == (if op.AddSignal? then [op.sig] else []) + Added(rest)
  {
    assert ([op] + rest)[1..] == rest;
  }

  lemma OnlyOne(a: bytes, b: bytes)
    ensures Added(TwoDrains(a, b)) == [ONE]
  {
    hide Added;
    var r7: seq<Op> := [EndOfSimulation(5)] + [];
    var r6: seq<Op> := [Drain(5, [b])] + r7;
    var r5: seq<Op> := [ValueChange(0)] + r6;
    var r4: seq<Op> := [Drain(5, [a])] + r5;
    var r3: seq<Op> := [ValueChange(0)] + r4;
    assert Added([]) == [] by {
      NoneAdded();
    }
    AddedCons(EndOfSimulation(5), []);
    AddedCons(Drain(5, [b]), r7);
    AddedCons(ValueChange(0), r6);
    AddedCons(Drain(5, [a]), r5);
    AddedCons(ValueChange(0), r4);
    AddedCons(AddSignal(ONE), r3);
    AddedCons(OpenFile, [AddSignal(ONE)] + r3);
  }

  lemma NoneAdded()
    ensures Added([]) == []
  {
  }
}
