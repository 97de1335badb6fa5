/** Waves and a whole payload of the golden files, byte by byte: vc_9state.trl, vc_4state.trl, derived.trl. */
module GoldenWaves {
  import opened Bytes
  import opened Varint
  import opened Lists
  import opened VcValues
  import opened VcWave
  import opened VcBlock
  import opened VcStore
  import opened VcPayload
  import opened Golden
  import S = Sorting

  // ---- The nine states of a one-bit signal ----

  const NINE: Sig := Sig(NineState, 1)

  function Letter(c: byte): Value {
    Text([c])
  }

  /** 0, 1, X, Z, H, U, W, L and -, as vc_9state.trl records them. */
  const NINE_VALUES: seq<Value> :=
    [Int(0), Int(1), Letter(0x58), Letter(0x5A), Letter(0x48), Letter(0x55), Letter(0x57), Letter(0x4C), Letter(0x2D)]

  const NINE_ENTRIES: seq<(byte, byte)> :=
    [(1, 0x00), (1, 0x01), (0, 0x20), (0, 0x30), (0, 0x40), (0, 0x50), (0, 0x60), (0, 0x70), (0, 0x80)]

  lemma NineEntry(k: nat)
    requires k < 9
    ensures Storable(NINE, NINE_VALUES[k])
    ensures EncEntry(NINE, 0, NINE_VALUES[k]) == [NINE_ENTRIES[k].0] + [NINE_ENTRIES[k].1]
  {
    hide EncU;
    SmallUnsigned(0);
    SmallUnsigned(1);
    var v := NINE_VALUES[k];
    if k < 2 {
      OneByteBe(v.n);
    } else {
      NineLetter(v.utf8[0]);
      assert PackNine(NineCodes(v, 1), 1) == [NINE_ENTRIES[k].1];
    }
  }

  lemma OneByteBe(n: nat)
    requires n < 256
    ensures EncBe(1, n) == [n] && FitsBytes(Int(n), 1)
  {
    assert EncBe(0, 0) == [];
  }

  lemma NineLetter(c: byte)
    requires c in {0x58, 0x5A, 0x48, 0x55, 0x57, 0x4C, 0x2D}
    ensures var code := NineCodes(Letter(c), 1)[0];
            code == if c == 0x58 then 2 else if c == 0x5A then 3 else if c == 0x48 then 4 else if c == 0x55 then 5
                    else if c == 0x57 then 6 else if c == 0x4C then 7 else 8
  {
    assert Chars([c]) == [Chr(c as char)] + Chars([]);
  }

  // ---- One change a place ----

  /** Values one after another, each at the next place. */
  function Placed(vs: seq<Value>, k: nat): seq<Entry>
    requires k <= |vs|
    decreases |vs| - k
  {
    if k == |vs| then [] else [Entry(k, vs[k])] + Placed(vs, k + 1)
  }

  function Pairs(ps: seq<(byte, byte)>, k: nat): bytes
    requires k <= |ps|
    decreases |ps| - k
  {
    if k == |ps| then [] else ([ps[k].0] + [ps[k].1]) + Pairs(ps, k + 1)
  }

  lemma {:induction false} PlacedFine(sig: Sig, vs: seq<Value>, k: nat)
    requires k <= |vs| < 128 && forall i :: 0 <= i < |vs| ==> Storable(sig, vs[i])
    ensures |Placed(vs, k)| == |vs| - k && EntriesOk(sig, Placed(vs, k)) && Climbs(Placed(vs, k), k)
    decreases |vs| - k
  {
    hide Storable;
    if k < |vs| {
      PlacedFine(sig, vs, k + 1);
    }
  }

  lemma {:induction false} NineEntries(k: nat)
    requires k <= 9
    ensures EntriesOk(NINE, Placed(NINE_VALUES, k)) && Climbs(Placed(NINE_VALUES, k), k)
    ensures EncEntries(NINE, Placed(NINE_VALUES, k), k) == Pairs(NINE_ENTRIES, k)
    decreases 9 - k
  {
    hide EncEntry, Storable, EntriesOk;
    forall i | 0 <= i < 9
      ensures Storable(NINE, NINE_VALUES[i])
    {
      NineEntry(i);
    }
    PlacedFine(NINE, NINE_VALUES, k);
    if k < 9 {
      NineEntry(k);
      NineEntries(k + 1);
      assert Placed(NINE_VALUES, k)[1..] == Placed(NINE_VALUES, k + 1);
    }
  }

  /** The wave of vc_9state.trl. */
  lemma NineWave()
    ensures EntriesOk(NINE, Placed(NINE_VALUES, 0)) && Climbs(Placed(NINE_VALUES, 0), 0)
    ensures EncWave(NINE, Placed(NINE_VALUES, 0)) == [9] + Pairs(NINE_ENTRIES, 0)
  {
    hide EncU, EncEntries, Pairs, EntriesOk;
    SmallUnsigned(9);
    NineEntries(0);
    assert |Placed(NINE_VALUES, 0)| == 9;
  }

  // ---- The four states of a one-bit signal ----

  const FOUR: Sig := Sig(FourState, 1)

  /** 0, 1, X, Z, 1, 0, X, 1, as vc_4state.trl records them. */
  const FOUR_VALUES: seq<Value> := [Int(0), Int(1), Letter(0x58), Letter(0x5A), Int(1), Int(0), Letter(0x58), Int(1)]

  const FOUR_BYTES: bytes := [1, 3, 5, 7, 3, 1, 5, 3]

  lemma FourEntry(k: nat)
    requires k < 8
    ensures Storable(FOUR, FOUR_VALUES[k]) && EncEntry(FOUR, 0, FOUR_VALUES[k]) == [FOUR_BYTES[k]]
  {
    hide EncU;
    SmallUnsigned(FOUR_BYTES[k]);
  }

  lemma {:induction false} FourEntries(k: nat)
    requires k <= 8
    ensures EntriesOk(FOUR, Placed(FOUR_VALUES, k)) && Climbs(Placed(FOUR_VALUES, k), k)
    ensures EncEntries(FOUR, Placed(FOUR_VALUES, k), k) == FOUR_BYTES[k..]
    decreases 8 - k
  {
    hide EntriesOk, EncEntry, Storable;
    forall i | 0 <= i < 8
      ensures Storable(FOUR, FOUR_VALUES[i])
    {
      FourEntry(i);
    }
    PlacedFine(FOUR, FOUR_VALUES, k);
    if k < 8 {
      FourEntry(k);
      FourEntries(k + 1);
      assert Placed(FOUR_VALUES, k)[1..] == Placed(FOUR_VALUES, k + 1);
      assert FOUR_BYTES[k..] == [FOUR_BYTES[k]] + FOUR_BYTES[k + 1..];
    }
  }

  /** The wave of vc_4state.trl. */
  lemma FourWave()
    ensures EntriesOk(FOUR, Placed(FOUR_VALUES, 0)) && Climbs(Placed(FOUR_VALUES, 0), 0)
    ensures EncWave(FOUR, Placed(FOUR_VALUES, 0)) == [8] + FOUR_BYTES
  {
    hide EncU, EncEntries, EntriesOk;
    SmallUnsigned(8);
    FourEntries(0);
    assert |Placed(FOUR_VALUES, 0)| == 8 && FOUR_BYTES[0..] == FOUR_BYTES;
  }

  // ---- Runs ----

  /** Three changes of a wide two-state signal, 5, 6, 5 at successive places: the value 5 appears, then twice
      the lowest two bits flip. */
  lemma RunsWave(width: nat)
    requires width > 1
    ensures var es := [Entry(0, Int(5)), Entry(1, Int(6)), Entry(2, Int(5))];
            EntriesOk(Sig(TwoState, width), es) && Climbs(es, 0) &&
            EncWave(Sig(TwoState, width), es) == [2] + (([1] + ([5] + [0])) + ([1] + ([3] + [1])))
  {
    hide EncU, Steps, Collapse, EncGroups, Maximal, Climbs, EntriesOk;
    var es := [Entry(0, Int(5)), Entry(1, Int(6)), Entry(2, Int(5))];
    SmallUnsigned(2);
    RunsFine(width);
    RunSteps();
    RunGroups();
    CollapseIsMaximal(STEPS);
    assert Wide(es);
  }

  const STEPS: seq<Step> := [Step(0, 5), Step(0, 3), Step(0, 3)]

  lemma RunsFine(width: nat)
    requires width > 1
    ensures var es := [Entry(0, Int(5)), Entry(1, Int(6)), Entry(2, Int(5))];
            EntriesOk(Sig(TwoState, width), es) && Climbs(es, 0)
  {
    var es := [Entry(0, Int(5)), Entry(1, Int(6)), Entry(2, Int(5))];
    assert es[1..] == [Entry(1, Int(6)), Entry(2, Int(5))] && es[1..][1..] == [Entry(2, Int(5))];
    assert Climbs(es[1..][1..], 2) && Climbs(es[1..], 1);
  }

  lemma RunSteps()
    ensures var es := [Entry(0, Int(5)), Entry(1, Int(6)), Entry(2, Int(5))];
            Wide(es) && Climbs(es, 0) && Steps(es, 0, 0) == STEPS
  {
    hide XorNat;
    RunsFine(2);
    Flips();
    var es1, es2 := [Entry(1, Int(6)), Entry(2, Int(5))], [Entry(2, Int(5))];
    assert [Entry(0, Int(5)), Entry(1, Int(6)), Entry(2, Int(5))][1..] == es1 && es1[1..] == es2 && es2[1..] == [];
    assert Steps(es2, 2, 6) == [Step(0, 3)];
    assert Steps(es1, 1, 5) == [Step(0, 3)] + [Step(0, 3)];
  }

  lemma RunGroups()
    ensures Maximal(Collapse(STEPS)) && |Collapse(STEPS)| == 2
    ensures EncGroups(Collapse(STEPS)) == ([1] + ([5] + [0])) + ([1] + ([3] + [1]))
  {
    hide EncU;
    CollapseIsMaximal(STEPS);
    SmallUnsigned(0);
    SmallUnsigned(1);
    SmallUnsigned(3);
    SmallUnsigned(5);
    var g1, g2 := Group(Step(0, 5), 1), Group(Step(0, 3), 2);
    assert STEPS[1..] == [Step(0, 3), Step(0, 3)] && STEPS[1..][1..] == [Step(0, 3)] && [Step(0, 3)][1..] == [];
    assert CollapseFrom([Step(0, 3)], Step(0, 3), 1) == [g2];
    assert Collapse(STEPS) == [g1] + [g2];
    assert ([g1] + [g2])[1..] == [g2] && [g2][1..] == [];
    assert EncGroups([g2]) == EncGroup(g2) + [];
  }

  lemma Flips()
    ensures XorNat(5, 0) == 5 && XorNat(6, 5) == 3 && XorNat(5, 6) == 3
  {
  }

  // ---- The payload of derived.trl ----

  const A_CHANGES: seq<Change> := [Change(0, Int(0)), Change(10, Int(1)), Change(30, Int(0))]
  const B_CHANGES: seq<Change> := [Change(0, Int(0)), Change(20, Int(1))]

  /** Two one-bit signals; where types or initial values are not given, the defaults do. */
  ghost predicate TwoSignals(sigs: SigMap, b: Block) {
    && b.start == 0 && b.end == 30 && b.changes == map[1 := A_CHANGES, 2 := B_CHANGES]
    && (forall id :: id in sigs ==> sigs[id] == Sig(TwoState, 1))
    && (forall id :: id in b.init ==> id in {1, 2} && b.init[id] == Int(0))
  }

  const BIT: Sig := Sig(TwoState, 1)

  lemma Untyped(sigs: SigMap, b: Block, id: nat)
    requires TwoSignals(sigs, b)
    ensures SigOf(sigs, id) == BIT && InitOf(b, sigs, id) == Int(0)
  {
  }

  lemma TwoIds(sigs: SigMap, b: Block)
    requires TwoSignals(sigs, b)
    ensures VarIds(b) == [1, 2]
  {
    hide Ascending;
    assert forall id :: id in b.changes.Keys + b.init.Keys <==> id in [1, 2];
    AscendingUnique(VarIds(b), [1, 2]);
  }

  lemma FourTimes(sigs: SigMap, b: Block)
    requires TwoSignals(sigs, b)
    ensures Times(b) == [0, 10, 20, 30]
  {
    hide Ascending, TimeSet;
    forall t
      ensures t in TimeSet(b) <==> t in [0, 10, 20, 30]
    {
      TimeIn(sigs, b, t);
    }
    AscendingUnique(Times(b), [0, 10, 20, 30]);
  }

  lemma TimeIn(sigs: SigMap, b: Block, t: nat)
    requires TwoSignals(sigs, b)
    ensures t in TimeSet(b) <==> t in [0, 10, 20, 30]
  {
    if t in TimeSet(b) {
      var id, k :| id in b.changes && 0 <= k < |b.changes[id]| && b.changes[id][k].time == t;
      assert b.changes[id][k] in A_CHANGES + B_CHANGES;
    }
    assert A_CHANGES[0].time == 0 && A_CHANGES[1].time == 10 && A_CHANGES[2].time == 30 && B_CHANGES[1].time == 20;
    assert b.changes[1] == A_CHANGES && b.changes[2] == B_CHANGES;
  }

  lemma OneOk(sigs: SigMap, b: Block, id: nat)
    requires TwoSignals(sigs, b) && id in {1, 2}
    ensures VarOk(b, sigs, id)
  {
    hide SigOf, InitOf;
    OneByteBe(0);
    Untyped(sigs, b, id);
  }

  lemma TwoOk(sigs: SigMap, b: Block)
    requires TwoSignals(sigs, b)
    ensures BlockOk(b, sigs)
  {
    hide VarIds, VarOk;
    TwoIds(sigs, b);
    OneOk(sigs, b, 1);
    OneOk(sigs, b, 2);
  }

  lemma InPlace(sigs: SigMap, b: Block)
    requires TwoSignals(sigs, b)
    ensures InOrder(b, 1) == A_CHANGES && InOrder(b, 2) == B_CHANGES
  {
    assert A_CHANGES[..2] == [Change(0, Int(0)), Change(10, Int(1))];
    assert A_CHANGES[..2][..1] == [Change(0, Int(0))] && [Change(0, Int(0))][..0] == [];
    assert B_CHANGES[..1] == [Change(0, Int(0))];
    assert S.Sort([Change(0, Int(0))], Earlier) == [Change(0, Int(0))];
    assert S.Sort(A_CHANGES[..2], Earlier) == A_CHANGES[..2];
  }

  lemma TwoEntries(sigs: SigMap, b: Block)
    requires TwoSignals(sigs, b)
    ensures EntriesOf(b, 1) == [Entry(0, Int(0)), Entry(1, Int(1)), Entry(3, Int(0))]
    ensures EntriesOf(b, 2) == [Entry(0, Int(0)), Entry(2, Int(1))]
  {
    hide InOrder, Times, EntriesOf, TimeToIdx;
    InPlace(sigs, b);
    FourTimes(sigs, b);
    Place(0);
    Place(1);
    Place(2);
    Place(3);
    var x, y := EntriesOf(b, 1), EntriesOf(b, 2);
    assert |x| == 3 && |y| == 2;
    assert x[0] == Entry(0, Int(0)) && x[1] == Entry(1, Int(1)) && x[2] == Entry(3, Int(0));
    assert y[0] == Entry(0, Int(0)) && y[1] == Entry(2, Int(1));
  }

  lemma Place(i: nat)
    requires i < 4
    ensures Rising([0, 10, 20, 30])
    ensures 10 * i in TimeToIdx([0, 10, 20, 30]) && TimeToIdx([0, 10, 20, 30])[10 * i] == i
  {
    hide TimeToIdx;
    var times := [0, 10, 20, 30];
    assert Rising(times);
    assert times[i] == 10 * i;
  }

  const A_WAVE: bytes := [3] + ([1] + ([3] + ([5] + [])))
  const B_WAVE: bytes := [2] + ([1] + ([7] + []))

  lemma OneBit(delta: nat, n: nat)
    requires delta < 8 && n < 2
    ensures Storable(BIT, Int(n)) && EncEntry(BIT, delta, Int(n)) == [4 * delta + 2 * n + 1]
  {
    hide EncU;
    SmallUnsigned(4 * delta + 2 * n + 1);
  }

  lemma AWave(es: seq<Entry>)
    requires es == [Entry(0, Int(0)), Entry(1, Int(1)), Entry(3, Int(0))] && EntriesOk(BIT, es) && Climbs(es, 0)
    ensures EncWave(BIT, es) == A_WAVE
  {
    hide EncU, EncEntry, Storable;
    SmallUnsigned(3);
    OneBit(0, 0);
    OneBit(0, 1);
    OneBit(1, 0);
    var es1, es2 := [Entry(1, Int(1)), Entry(3, Int(0))], [Entry(3, Int(0))];
    assert es[1..] == es1 && es1[1..] == es2 && es2[1..] == [];
    assert EncEntries(BIT, es2, 2) == [5] + [];
    assert EncEntries(BIT, es1, 1) == [3] + ([5] + []);
  }

  lemma BWave(es: seq<Entry>)
    requires es == [Entry(0, Int(0)), Entry(2, Int(1))] && EntriesOk(BIT, es) && Climbs(es, 0)
    ensures EncWave(BIT, es) == B_WAVE
  {
    hide EncU, EncEntry, Storable;
    SmallUnsigned(2);
    OneBit(0, 0);
    OneBit(1, 1);
    var es1 := [Entry(2, Int(1))];
    assert es[1..] == es1 && es1[1..] == [];
    assert EncEntries(BIT, es1, 1) == [7] + [];
  }

  lemma TwoWaves(sigs: SigMap, b: Block)
    requires TwoSignals(sigs, b)
    ensures BlockOk(b, sigs) && 1 in VarIds(b) && 2 in VarIds(b) && RawWave(b, sigs, 1) == A_WAVE && RawWave(b, sigs, 2) == B_WAVE
  {
    hide EncWave, EntriesOf, SigOf, BlockOk, VarIds, EntriesOk, Climbs;
    TwoOk(sigs, b);
    TwoIds(sigs, b);
    TwoEntries(sigs, b);
    Untyped(sigs, b, 1);
    Untyped(sigs, b, 2);
    EntriesFine(b, sigs, 1);
    EntriesFine(b, sigs, 2);
    AWave(EntriesOf(b, 1));
    BWave(EntriesOf(b, 2));
  }

  // ---- Header and tables ----

  lemma TwoHead(zlib: Compressor, sigs: SigMap, b: Block)
    requires TwoSignals(sigs, b)
    ensures BlockOk(b, sigs)
    ensures Head(zlib, false, sigs, b) == HEAD
  {
    hide EncU, EncLe, VarIds, Times, BlockOk, SigOf, InitOf, InitOk;
    TwoOk(sigs, b);
    TwoIds(sigs, b);
    FourTimes(sigs, b);
    StartsBeforeTimes(b, sigs);
    AllIdsOk(b, sigs);
    Le8(0);
    Le8(30);
    SmallUnsigned(4);
    SmallUnsigned(0);
    SmallUnsigned(10);
    SmallUnsigned(2);
    SmallUnsigned(1);
    TableBytes();
    InitBytes(sigs, b);
  }

  lemma TableBytes()
    ensures EncTimes([0, 10, 20, 30], 0) == [0] + ([10] + ([10] + ([10] + [])))
  {
    hide EncU;
    SmallUnsigned(0);
    SmallUnsigned(10);
    assert [0, 10, 20, 30][1..] == [10, 20, 30] && [10, 20, 30][1..] == [20, 30] && [20, 30][1..] == [30] && [30][1..] == [];
    assert EncTimes([30], 20) == [10] + [];
    assert EncTimes([20, 30], 10) == [10] + ([10] + []);
    assert EncTimes([10, 20, 30], 0) == [10] + ([10] + ([10] + []));
  }

  lemma InitBytes(sigs: SigMap, b: Block)
    requires TwoSignals(sigs, b)
    ensures IdsOk(b, sigs, [1, 2]) && EncInits(b, sigs, [1, 2]) == [1] + (([1] + [0]) + ([2] + (([1] + [0]) + [])))
  {
    hide EncU, SigOf, InitOf, VarOk;
    OneOk(sigs, b, 1);
    OneOk(sigs, b, 2);
    OneInit(sigs, b, 1);
    OneInit(sigs, b, 2);
    SmallUnsigned(1);
    SmallUnsigned(2);
    assert [1, 2][1..] == [2] && [2][1..] == [];
    assert IdsOk(b, sigs, [2]) && EncInits(b, sigs, [2]) == [2] + (([1] + [0]) + []);
  }

  lemma OneInit(sigs: SigMap, b: Block, id: nat)
    requires TwoSignals(sigs, b) && VarOk(b, sigs, id)
    ensures EncInit(SigOf(sigs, id), InitOf(b, sigs, id)) == [1] + [0]
  {
    hide EncU, SigOf, InitOf;
    Untyped(sigs, b, id);
    SmallUnsigned(1);
    OneByteBe(0);
  }

  /** Compressing these short waves saves nothing. */
  predicate NotWorth(zip: Compressor) {
    |zip.pack(A_WAVE)| + 2 >= |A_WAVE| && |zip.pack(B_WAVE)| + 2 >= |B_WAVE|
  }

  lemma TwoStored(mode: WaveMode, sigs: SigMap, b: Block)
    requires TwoSignals(sigs, b) && mode.Packed? && mode.zip.Some? && NotWorth(mode.zip.value)
    ensures BlockOk(b, sigs)
    ensures WaveStore(mode, b, sigs) == Store(([] + ([0] + A_WAVE)) + ([0] + B_WAVE), map[A_WAVE := 0, B_WAVE := 5])
    ensures RawWaves(b, sigs, VarIds(b)) == [A_WAVE, B_WAVE]
  {
    hide VarIds, BlockOk, RawWave;
    TwoIds(sigs, b);
    TwoWaves(sigs, b);
    var raws := RawWaves(b, sigs, VarIds(b));
    assert raws == [A_WAVE, B_WAVE];
    assert raws[1..] == [B_WAVE] && [B_WAVE][1..] == [];
    var a, both := Store([] + ([0] + A_WAVE), map[A_WAVE := 0]),
                   Store(([] + ([0] + A_WAVE)) + ([0] + B_WAVE), map[A_WAVE := 0, B_WAVE := 5]);
    PutBoth(mode);
    assert PutAll(mode, both, []) == both;
    assert PutAll(mode, a, [B_WAVE]) == both;
  }

  lemma PutBoth(mode: WaveMode)
    requires mode.Packed? && mode.zip.Some? && NotWorth(mode.zip.value)
    ensures var a := Store([] + ([0] + A_WAVE), map[A_WAVE := 0]);
            Put(mode, EMPTY, A_WAVE) == a &&
            Put(mode, a, B_WAVE) == Store(([] + ([0] + A_WAVE)) + ([0] + B_WAVE), map[A_WAVE := 0, B_WAVE := 5])
  {
    assert A_WAVE[0] != B_WAVE[0];
    assert |[] + ([0] + A_WAVE)| == 5;
  }

  const HEAD: bytes := [0, 0, 0, 0, 0, 0, 0, 0] + ([30, 0, 0, 0, 0, 0, 0, 0] +
              (([4] + ([0] + ([10] + ([10] + ([10] + []))))) + ([2] + ([1] + (([1] + [0]) + ([2] + (([1] + [0]) + [])))))))
  const WAVES: bytes := ([] + ([0] + A_WAVE)) + ([0] + B_WAVE)
  const TABLES: bytes := [4] + (([0, 0, 0, 0] + ([5, 0, 0, 0] + [])) + ([9] + WAVES))

  lemma TwoTables(mode: WaveMode, sigs: SigMap, b: Block)
    requires TwoSignals(sigs, b) && mode.Packed? && mode.zip.Some? && NotWorth(mode.zip.value)
    ensures BlockOk(b, sigs) && Tables(mode, sigs, b) == TABLES
  {
    hide EncU, WaveStore, RawWaves, BlockOk, EncLe, VarIds;
    TwoStored(mode, sigs, b);
    var st := WaveStore(mode, b, sigs);
    SmallUnsigned(9);
    var ps := PositionsOf(st, [A_WAVE, B_WAVE]);
    assert A_WAVE[0] != B_WAVE[0];
    assert ps == [0, 5] && [0, 5][1..] == [5] && [5][1..] == [];
    Le4(0);
    Le4(5);
    assert EncPositions(4, [5]) == [5, 0, 0, 0] + [];
    assert EncPositions(4, ps) == [0, 0, 0, 0] + ([5, 0, 0, 0] + []);
    assert |WAVES| == 9;
  }

  /** The payload of derived.trl: header, time table, initial values, positions and waves. */
  lemma TwoPayload(c: Codecs, sigs: SigMap, b: Block)
    requires TwoSignals(sigs, b) && NotWorth(c.zlib)
    ensures BlockOk(b, sigs)
    ensures EncPayload(c, Flags(false, false, false, false, true, true, false), sigs, b) == HEAD + TABLES + []
  {
    hide Head, Tables, BlockOk, VarIds;
    TwoHead(c.zlib, sigs, b);
    TwoTables(Packed(Some(c.zlib)), sigs, b);
  }

  lemma Le4(n: nat)
    requires n < 256
    ensures EncLe(4, n) == [n, 0, 0, 0]
  {
    assert EncLe(1, 0) == [0] + EncLe(0, 0);
    assert EncLe(2, 0) == [0] + EncLe(1, 0);
    assert EncLe(3, 0) == [0] + EncLe(2, 0);
  }
}
