/** What two changes at one time mean for a recording: the native encoder writes them, and the native
    reader stops there, unless the signal's headers leave the distance unshifted. */
module VpiNative {
  import opened Bytes
  import opened Varint
  import opened Lists
  import opened Vpi
  import opened VpiRuns
  import opened VpiTimes
  import V = VcValues
  import W = VcWave
  import B = VcBlock
  import N = VcNative
  import E = VcNativeEntries
  import S = Sorting

  function OfSignal(rs: seq<Rec>, id: nat): seq<Rec> {
    if rs == [] then [] else (if rs[0].id == id then [rs[0]] else []) + OfSignal(rs[1..], id)
  }

  function ByTime(a: Rec, b: Rec): bool {
    a.time <= b.time
  }

  /** A signal's changes in a block, as the encoder sorts them. */
  function InOrder(rs: seq<Rec>, id: nat): seq<Rec> {
    S.Sort(OfSignal(rs, id), ByTime)
  }

  /** The same as items of a wave, each value taken in some way. */
  function Items<V>(s: seq<Rec>, value: bytes -> V): (items: seq<N.Timed<V>>)
    ensures |items| == |s| && forall i :: 0 <= i < |s| ==> items[i] == N.Timed(s[i].time, value(s[i].value))
  {
    seq(|s|, i requires 0 <= i < |s| => N.Timed(s[i].time, value(s[i].value)))
  }

  function AsVector(value: bytes): N.NativeValue {
    N.Raw(value)
  }

  /** The recording call that fits the encoding. */
  function AsRecorded(sig: V.Sig): bytes -> E.Recorded {
    value => match sig.enc
             case Real => E.Double(value)
             case Str => E.Chars(value)
             case _ => E.Vector(N.Raw(value))
  }

  /** The block's time table. */
  ghost function TimesOf(rs: seq<Rec>): seq<nat> {
    Ascending(set r | r in rs :: r.time)
  }

  /** A double has eight bytes, and everything fits into memory. */
  ghost predicate Recordable(rs: seq<Rec>, sigs: B.SigMap) {
    |TimesOf(rs)| < E.TABLE && |rs| < WORD &&
    forall r :: r in rs ==> (B.SigOf(sigs, r.id).enc == V.Real ==> |r.value| == 8) && |r.value| < WORD
  }

  lemma {:induction false} CountOfSignal(rs: seq<Rec>, id: nat, t: nat)
    ensures Count(OfSignal(rs, id), id, t) == Count(rs, id, t)
    decreases |rs|
  {
    if rs != [] {
      CountOfSignal(rs[1..], id, t);
      CountAppend(if rs[0].id == id then [rs[0]] else [], OfSignal(rs[1..], id), id, t);
    }
  }

  lemma {:induction false} SignalMembers(rs: seq<Rec>, id: nat)
    ensures |OfSignal(rs, id)| <= |rs| && forall r :: r in OfSignal(rs, id) ==> r in rs && r.id == id
    decreases |rs|
  {
    if rs != [] {
      SignalMembers(rs[1..], id);
    }
  }

  /** Sorted changes of one signal. */
  lemma SortedSignal(rs: seq<Rec>, id: nat)
    ensures var s := InOrder(rs, id);
            |s| <= |rs| && multiset(s) == multiset(OfSignal(rs, id)) &&
            (forall i :: 0 <= i < |s| ==> s[i] in rs && s[i].id == id) &&
            forall i, j :: 0 <= i < j < |s| ==> s[i].time <= s[j].time
  {
    var part := OfSignal(rs, id);
    var s := InOrder(rs, id);
    SignalMembers(rs, id);
    S.SortKeeps(part, ByTime);
    S.SameMembers(part, ByTime);
    S.SortSorts(part, ByTime);
    forall i | 0 <= i < |s|
      ensures s[i] in rs && s[i].id == id
    {
      assert s[i] in part;
    }
    forall i, j | 0 <= i < j < |s|
      ensures s[i].time <= s[j].time
    {
      assert ByTime(s[i], s[j]);
    }
  }

  lemma ItemsFine<V>(rs: seq<Rec>, id: nat, value: bytes -> V)
    requires |TimesOf(rs)| < E.TABLE && |rs| < WORD
    ensures N.ItemsOk(Items(InOrder(rs, id), value), TimesOf(rs))
  {
    hide InOrder;
    SortedSignal(rs, id);
  }

  lemma KindsFine(rs: seq<Rec>, id: nat, sigs: B.SigMap)
    requires Recordable(rs, sigs)
    ensures var sig := B.SigOf(sigs, id);
            E.Fine(sig, Items(InOrder(rs, id), AsRecorded(sig)), TimesOf(rs))
  {
    hide InOrder, N.ItemsOk, B.SigOf;
    ItemsFine(rs, id, AsRecorded(B.SigOf(sigs, id)));
    SortedSignal(rs, id);
  }

  lemma StrictCounts<V>(rs: seq<Rec>, id: nat, value: bytes -> V)
    ensures N.Strict(Items(InOrder(rs, id), value)) <==> OnceEach(rs, id)
  {
    hide InOrder, Count, OfSignal;
    var s := InOrder(rs, id);
    SortedSignal(rs, id);
    assert N.Strict(Items(s, value)) <==> TimesDistinct(s) by {
      assert forall i :: 0 <= i < |s| ==> Items(s, value)[i].time == s[i].time && s[i].id == id;
    }
    DistinctCounts(s);
    forall t
      ensures Count(s, id, t) == Count(rs, id, t)
    {
      CountMultiset(s, OfSignal(rs, id), id, t);
      CountOfSignal(rs, id, t);
    }
    OthersNever(s, id);
    if OnceEach(rs, id) {
      forall other, t
        ensures Count(s, other, t) <= 1
      {
        assert other == id ==> Count(rs, id, t) <= 1;
      }
    }
    if AtMostOnce(s) {
      forall t
        ensures Count(rs, id, t) <= 1
      {
        assert Count(s, id, t) <= 1;
      }
    }
  }

  lemma {:induction false} OthersNever(s: seq<Rec>, id: nat)
    requires forall i :: 0 <= i < |s| ==> s[i].id == id
    ensures forall other, t :: other != id ==> Count(s, other, t) == 0
    decreases |s|
  {
    if s != [] {
      OthersNever(s[1..], id);
    }
  }

  /** The native reader gets through the wave that the native encoder made of a signal's changes: by runs
      for wide two-state signals, by entries for all others. */
  ghost predicate WaveReads(rs: seq<Rec>, id: nat, sigs: B.SigMap, t: bytes)
    requires Recordable(rs, sigs)
  {
    ItemsFine(rs, id, AsVector);
    KindsFine(rs, id, sigs);
    var sig, s := B.SigOf(sigs, id), InOrder(rs, id);
    if W.Runs(sig) then
      var head := DecU(N.NativeRuns(N.EntriesFrom(Items(s, AsVector), TimesOf(rs))) + t);
      head.Ok? && N.EmitAll(head.value, head.rest, 0, 0, TimesOf(rs), sig.width).1
    else
      var head := DecU(E.EncWaveEntries(sig, Items(s, AsRecorded(sig)), TimesOf(rs)) + t);
      head.Ok? && E.EmitEntries(head.value, sig, head.rest, 0, TimesOf(rs)).1
  }

  /** Whether a repeated time stops the reader of a signal: not for real and string signals. */
  predicate Sensitive(sig: V.Sig) {
    W.Runs(sig) || E.Shifts(sig)
  }

  /** A wave can be read if and only if its signal does not mind repeated times or has none. */
  lemma WaveReadsExactly(rs: seq<Rec>, id: nat, sigs: B.SigMap, t: bytes)
    requires Recordable(rs, sigs)
    ensures WaveReads(rs, id, sigs, t) <==> (Sensitive(B.SigOf(sigs, id)) ==> OnceEach(rs, id))
  {
    hide Count, InOrder, TimesOf, OnceEach, Items, E.EncWaveEntries, E.EmitEntries, N.EmitAll, N.NativeRuns, DecU, B.SigOf,
      E.Shifts, N.Climbing;
    var sig, s := B.SigOf(sigs, id), InOrder(rs, id);
    KindsFine(rs, id, sigs);
    ItemsFine(rs, id, AsVector);
    if W.Runs(sig) {
      N.NativeRoundTrip(Items(s, AsVector), TimesOf(rs), sig.width, t);
      StrictCounts(rs, id, AsVector);
    } else {
      E.EntriesRoundTrip(sig, Items(s, AsRecorded(sig)), TimesOf(rs), t);
      StrictCounts(rs, id, AsRecorded(sig));
    }
  }

  /** All waves of a block can be read if and only if no signal that minds changes twice at one time. */
  lemma BlockReadsExactly(rs: seq<Rec>, sigs: B.SigMap, t: bytes)
    requires Recordable(rs, sigs)
    ensures (forall id :: WaveReads(rs, id, sigs, t)) <==> forall id :: Sensitive(B.SigOf(sigs, id)) ==> OnceEach(rs, id)
  {
    hide WaveReads, OnceEach, Sensitive, B.SigOf, Recordable;
    forall id
      ensures WaveReads(rs, id, sigs, t) <==> (Sensitive(B.SigOf(sigs, id)) ==> OnceEach(rs, id))
    {
      WaveReadsExactly(rs, id, sigs, t);
    }
  }

  /** Over any run that has ended, for each signal: all its waves can be read if and only if it does not mind
      repeated times or no drain of the run found it marked with a change at the drain's own time in the
      block being collected. */
  lemma RecordingReadsExactly(c: Config, ops: seq<Op>, sigs: B.SigMap, id: nat, t: bytes)
    requires LegalRun(c, START, ops) && IdsDistinct(Added(ops)) && Held(c, Run(c, START, ops)) == []
    requires forall b :: b in Run(c, START, ops).out.done ==> Recordable(b.changes, sigs)
    ensures (forall b :: b in Run(c, START, ops).out.done ==> WaveReads(b.changes, id, sigs, t))
            <==> (Sensitive(B.SigOf(sigs, id)) ==> CalmRun(c, START, ops, id))
  {
    hide Run, LegalRun, CalmRun, WaveReads, OnceEach, IdsDistinct, Sensitive, B.SigOf, Recordable;
    SignalDistinctExactly(c, ops, id);
    var done := Run(c, START, ops).out.done;
    forall b | b in done
      ensures WaveReads(b.changes, id, sigs, t) <==> (Sensitive(B.SigOf(sigs, id)) ==> OnceEach(b.changes, id))
    {
      WaveReadsExactly(b.changes, id, sigs, t);
    }
    NoneTwice(id);
  }
}
