/** `VcDataBlock` of `python/src/trlog/_vc_data.py`: collecting changes, whole blocks with their
    compression, and what a reader gets to see. */
module VcDataBlocks {
  import opened Bits
  import opened Bytes
  import opened Lists
  import opened VcValues
  import opened VcWave
  import opened VcBlock
  import opened VcStore
  import opened VcPayload
  import S = Sorting

  // ---- What a reader sees ----

  ghost function Listing(b: Block, sigs: SigMap): seq<VcChange> {
    S.Sort(Expected(b, sigs, VarIds(b)), ByTimeAndId)
  }

  /** A change of the block, or the initial value of a variable that has none. */
  ghost predicate IsSeen(b: Block, sigs: SigMap, c: VcChange) {
    var cs, sig := ChangesOf(b, c.id), SigOf(sigs, c.id);
    c.id in VarIds(b) &&
    if cs == [] then c == VcChange(c.id, b.start, SeenInit(sig, InitOf(b, sigs, c.id)))
    else exists k :: 0 <= k < |cs| && cs[k].time == c.time && c.value == Seen(sig, cs[k].value)
  }

  ghost predicate StrictlyOrdered(cs: seq<VcChange>) {
    forall i, j :: 0 <= i < j < |cs| ==> ByTimeAndId(cs[i], cs[j]) && !ByTimeAndId(cs[j], cs[i])
  }

  lemma ExpectedVarMembers(b: Block, sigs: SigMap, id: nat, c: VcChange)
    requires id in VarIds(b)
    ensures c in ExpectedVar(b, sigs, id) <==> c.id == id && IsSeen(b, sigs, c)
  {
    hide Seen, SeenInit, SigOf, InitOf, VarIds;
    var cs, r := InOrder(b, id), ExpectedVar(b, sigs, id);
    S.SameMembers(ChangesOf(b, id), Earlier);
    if c.id == id && IsSeen(b, sigs, c) && ChangesOf(b, id) != [] {
      var k :| 0 <= k < |ChangesOf(b, id)| && ChangesOf(b, id)[k].time == c.time
               && c.value == Seen(SigOf(sigs, id), ChangesOf(b, id)[k].value);
      assert ChangesOf(b, id)[k] in cs;
      var i :| 0 <= i < |cs| && cs[i] == ChangesOf(b, id)[k];
      assert r[i] == c;
    }
    if c in r && ChangesOf(b, id) != [] {
      var i :| 0 <= i < |r| && r[i] == c;
      assert cs[i] in ChangesOf(b, id);
    }
  }

  lemma {:induction false} ExpectedMembers(b: Block, sigs: SigMap, ids: seq<nat>, c: VcChange)
    requires forall id :: id in ids ==> id in VarIds(b)
    ensures c in Expected(b, sigs, ids) <==> c.id in ids && IsSeen(b, sigs, c)
    decreases |ids|
  {
    hide IsSeen, ExpectedVar, VarIds;
    if ids != [] {
      ExpectedVarMembers(b, sigs, ids[0], c);
      ExpectedMembers(b, sigs, ids[1..], c);
      assert c.id in ids <==> c.id == ids[0] || c.id in ids[1..];
    }
  }

  /** No two changes of a block agree in time and variable. */
  ghost predicate KeysDistinct(cs: seq<VcChange>) {
    forall i, j :: 0 <= i < j < |cs| ==> cs[i].time != cs[j].time || cs[i].id != cs[j].id
  }

  lemma {:induction false} ExpectedDistinct(b: Block, sigs: SigMap, ids: seq<nat>)
    requires Rising(ids) && forall i :: 0 <= i < |ids| ==> DistinctTimes(ChangesOf(b, ids[i]))
    ensures KeysDistinct(Expected(b, sigs, ids)) && forall c :: c in Expected(b, sigs, ids) ==> c.id in ids
    decreases |ids|
  {
    hide ChangesOf, InOrder, Seen, SeenInit, SigOf, InitOf, DistinctTimes;
    if ids != [] {
      var here, more := ExpectedVar(b, sigs, ids[0]), Expected(b, sigs, ids[1..]);
      InOrderRises(b, ids[0]);
      ExpectedDistinct(b, sigs, ids[1..]);
      OwnId(b, sigs, ids[0]);
      DistinctApart(here, more, ids);
    }
  }

  lemma OwnId(b: Block, sigs: SigMap, id: nat)
    ensures forall c :: c in ExpectedVar(b, sigs, id) ==> c.id == id
  {
  }

  lemma DistinctApart(here: seq<VcChange>, more: seq<VcChange>, ids: seq<nat>)
    requires Rising(ids) && ids != [] && KeysDistinct(here) && KeysDistinct(more)
    requires (forall c :: c in here ==> c.id == ids[0]) && forall c :: c in more ==> c.id in ids[1..]
    ensures KeysDistinct(here + more)
  {
    var all := here + more;
    forall i, j | 0 <= i < j < |all|
      ensures all[i].time != all[j].time || all[i].id != all[j].id
    {
      if i < |here| <= j {
        assert here[i] in here && more[j - |here|] in more;
      }
    }
  }

  lemma OrderTotal()
    ensures S.Total(ByTimeAndId)
  {
  }

  /** A reader sees exactly the block's changes, strictly ordered by time and variable. */
  lemma ListingMeaning(b: Block, sigs: SigMap)
    requires BlockOk(b, sigs)
    ensures StrictlyOrdered(Listing(b, sigs))
    ensures forall c :: c in Listing(b, sigs) <==> IsSeen(b, sigs, c)
  {
    hide IsSeen, Expected, SigOf, InitOf, ChangeOk, InitOk;
    var ids := VarIds(b);
    var all, r := Expected(b, sigs, ids), Listing(b, sigs);
    forall i | 0 <= i < |ids|
      ensures DistinctTimes(ChangesOf(b, ids[i]))
    {
      assert VarOk(b, sigs, ids[i]);
    }
    ExpectedDistinct(b, sigs, ids);
    OrderTotal();
    S.SortSorts(all, ByTimeAndId);
    S.SameMembers(all, ByTimeAndId);
    SortedKeys(all);
    forall c
      ensures c in r <==> IsSeen(b, sigs, c)
    {
      ExpectedMembers(b, sigs, ids, c);
      SeenHasId(b, sigs, c);
    }
  }

  lemma SeenHasId(b: Block, sigs: SigMap, c: VcChange)
    ensures IsSeen(b, sigs, c) ==> c.id in VarIds(b)
  {
  }

  lemma SortedKeys(all: seq<VcChange>)
    requires KeysDistinct(all)
    ensures StrictlyOrdered(S.Sort(all, ByTimeAndId))
  {
    var r := S.Sort(all, ByTimeAndId);
    OrderTotal();
    S.SortSorts(all, ByTimeAndId);
    S.SortDistinct(all, ByTimeAndId);
    S.SameMembers(all, ByTimeAndId);
    forall i, j | 0 <= i < j < |r|
      ensures ByTimeAndId(r[i], r[j]) && !ByTimeAndId(r[j], r[i])
    {
      assert r[i] in all && r[j] in all;
    }
  }

  // ---- One variable ----

  function Pick(cs: seq<VcChange>, id: nat): seq<VcChange> {
    if cs == [] then [] else Pick(cs[..|cs| - 1], id) + if cs[|cs| - 1].id == id then [cs[|cs| - 1]] else []
  }

  lemma {:induction false} PickMeaning(cs: seq<VcChange>, id: nat)
    requires StrictlyOrdered(cs)
    ensures StrictlyOrdered(Pick(cs, id)) && forall c :: c in Pick(cs, id) <==> c in cs && c.id == id
  {
    hide ByTimeAndId;
    if cs != [] {
      var init, last := cs[..|cs| - 1], cs[|cs| - 1];
      PickMeaning(init, id);
      assert cs == init + [last];
      var r := Pick(init, id);
      forall i | 0 <= i < |r|
        ensures ByTimeAndId(r[i], last) && !ByTimeAndId(last, r[i])
      {
        assert r[i] in init;
      }
    }
  }

  /** A variable's part of the listing depends on nothing but that variable: its changes in time order,
      or its initial value at the start of the block. */
  lemma PickIsExpected(b: Block, sigs: SigMap, id: nat)
    requires BlockOk(b, sigs)
    ensures Pick(Listing(b, sigs), id) == if id in VarIds(b) then ExpectedVar(b, sigs, id) else []
  {
    hide IsSeen, VarIds, SigOf, InitOf, ChangeOk, InitOk, Listing, Pick, ExpectedVar;
    var r := Pick(Listing(b, sigs), id);
    ListingMeaning(b, sigs);
    PickMeaning(Listing(b, sigs), id);
    if id in VarIds(b) {
      assert VarOk(b, sigs, id);
      ExpectedVarOrdered(b, sigs, id);
      forall c
        ensures c in r <==> c in ExpectedVar(b, sigs, id)
      {
        ExpectedVarMembers(b, sigs, id, c);
      }
      S.StrictUnique(r, ExpectedVar(b, sigs, id), ByTimeAndId);
    } else if r != [] {
      assert r[0] in r;
      SeenHasId(b, sigs, r[0]);
    }
  }

  lemma ExpectedVarOrdered(b: Block, sigs: SigMap, id: nat)
    requires DistinctTimes(ChangesOf(b, id))
    ensures StrictlyOrdered(ExpectedVar(b, sigs, id))
  {
    hide InOrder, Seen, SeenInit, SigOf, InitOf, DistinctTimes;
    InOrderRises(b, id);
  }

  // ---- Whole blocks ----

  datatype Options = Options(compress: bool, zstd: bool, compressTimes: bool, compressWaves: bool, wavesZlib: bool, seekable: bool)

  /** Parts of a block are compressed on their own only when the block as a whole is not. */
  function SubFlags(o: Options): Flags {
    if o.compress then Flags(false, false, false, false, false, true, false)
    else Flags(false, false, o.compressTimes, o.compressWaves && !o.wavesZlib, o.compressWaves && o.wavesZlib, true, o.seekable)
  }

  ghost function EncBlock(c: Codecs, o: Options, sigs: SigMap, b: Block): (Flags, bytes)
    requires BlockOk(b, sigs)
  {
    var f := SubFlags(o);
    var payload := EncPayload(c, f, sigs, b);
    if o.compress then (f.(compressed := true, zstd := o.zstd), (if o.zstd then c.zstd else c.zlib).pack(payload))
    else (f, payload)
  }

  function Stripped(f: Flags): Flags {
    Flags(false, false, false, false, false, f.xorDelta, false)
  }

  function DecBlock(c: Codecs, sigs: SigMap, f: Flags, payload: bytes): Parse<Decoded> {
    if f.compressed then
      match (if f.zstd then c.zstd else c.zlib).unpack(payload)
      case None => Fail(Corrupt)
      case Some(inner) => DecPayload(c, Stripped(f), sigs, inner)
    else DecPayload(c, f, sigs, payload)
  }

  /** Whatever the compression options, a block reads back as its listing. */
  lemma BlockRoundTrip(c: Codecs, o: Options, sigs: SigMap, b: Block)
    requires CodecsOk(c) && BlockOk(b, sigs) && SizesFit(c, SubFlags(o), sigs, b)
    ensures var e := EncBlock(c, o, sigs, b);
            DecBlock(c, sigs, e.0, e.1) == Ok(Decoded(b.start, b.end, Listing(b, sigs)), [])
  {
    hide BlockOk, SizesFit, EncPayload, DecPayload, VarIds, Expected;
    PayloadRoundTrip(c, SubFlags(o), sigs, b);
  }

  /** The variable's changes as they were added, in time order. */
  function AsAdded(b: Block, id: nat): (r: seq<VcChange>)
    ensures |r| == |InOrder(b, id)|
    ensures forall i :: 0 <= i < |r| ==> r[i] == VcChange(id, InOrder(b, id)[i].time, InOrder(b, id)[i].value)
  {
    var cs := InOrder(b, id);
    seq(|cs|, i requires 0 <= i < |cs| => VcChange(id, cs[i].time, cs[i].value))
  }

  /** A variable's very changes come back if and only if each value is one its signal's encoding holds
      exactly. */
  lemma ExactValuesComeBack(b: Block, sigs: SigMap, id: nat)
    requires BlockOk(b, sigs) && id in VarIds(b) && ChangesOf(b, id) != []
    ensures Pick(Listing(b, sigs), id) == AsAdded(b, id)
       <==> forall c :: c in ChangesOf(b, id) ==> Exact(SigOf(sigs, id), c.value)
  {
    hide VarIds, SigOf, InitOf, InitOk, Listing, Exact, Seen, Storable, Pick;
    PickIsExpected(b, sigs, id);
    assert VarOk(b, sigs, id);
    InOrderOk(b, sigs, id);
    S.SameMembers(ChangesOf(b, id), Earlier);
    var cs, seen := InOrder(b, id), ExpectedVar(b, sigs, id);
    forall i | 0 <= i < |cs|
      ensures seen[i] == AsAdded(b, id)[i] <==> Exact(SigOf(sigs, id), cs[i].value)
    {
      assert cs[i] in cs && ChangeOk(b.start, SigOf(sigs, id), cs[i]);
      SeenExact(SigOf(sigs, id), cs[i].value);
    }
    if seen == AsAdded(b, id) {
      forall c | c in ChangesOf(b, id)
        ensures Exact(SigOf(sigs, id), c.value)
      {
        var i :| 0 <= i < |cs| && cs[i] == c;
      }
    }
  }

  /** An initial value comes back unchanged exactly when packing it state by state loses nothing: a
      one-bit four-state signal that starts at Z does not. */
  lemma InitExact(sig: Sig, v: Value)
    requires InitOk(sig, v)
    ensures SeenInit(sig, v) == v <==>
            match sig.enc
            case FourState =>
              if v.Int? then 0 <= v.n < Pow2(sig.width)
              else sig.width > 0 && v.States? && |v.list| == sig.width && forall i :: 0 <= i < sig.width ==> v.list[i] == Chr('X')
            case NineState =>
              (match v
               case Int(n) => 0 <= n < Pow2(sig.width)
               case States(list) =>
                 && |list| == sig.width && (forall i :: 0 <= i < sig.width ==> list[i] in NINE_STATES)
                 && exists i :: 0 <= i < sig.width && list[i].Chr?
               case _ => false)
            case _ => true
  {
    hide Pow2, FourBack, NineBack;
    FourExact(v, sig.width);
    NineExact(v, sig.width);
  }

  lemma InitialZIsLost()
    ensures SeenInit(Sig(FourState, 1), Text([0x5A])) == States([Chr('X')])
  {
    var back := FourBack(Text([0x5A]), 1);
    assert FourCodes(Text([0x5A]), 1)[0] == 2;
    assert back.States? && back.list == [Chr('X')];
  }

  /** The block's range covers its changes. */
  ghost predicate RangeOk(b: Block) {
    b.start <= b.end && forall t :: t in TimeSet(b) ==> t <= b.end
  }

  /** Everything a reader sees of a block lies in its range. */
  lemma SeenInRange(b: Block, sigs: SigMap, c: VcChange)
    requires BlockOk(b, sigs) && RangeOk(b) && c in Listing(b, sigs)
    ensures b.start <= c.time <= b.end
  {
    hide Listing, VarIds, SigOf, InitOf, InitOk, Seen, SeenInit, Storable, DistinctTimes;
    ListingMeaning(b, sigs);
    assert IsSeen(b, sigs, c);
    var cs := ChangesOf(b, c.id);
    if cs != [] {
      var k :| 0 <= k < |cs| && cs[k].time == c.time && c.value == Seen(SigOf(sigs, c.id), cs[k].value);
      assert VarOk(b, sigs, c.id);
      assert ChangeOk(b.start, SigOf(sigs, c.id), cs[k]);
      assert c.time in TimeSet(b);
    }
  }

  // ---- Collecting changes ----

  function Added(b: Block, id: nat, time: nat, value: Value): Block {
    Block(b.start, if time > b.end then time else b.end,
          b.changes[id := ChangesOf(b, id) + [Change(time, value)]],
          if id in b.init then b.init else b.init[id := value])
  }

  lemma AddedKeepsRange(b: Block, id: nat, time: nat, value: Value)
    requires RangeOk(b)
    ensures RangeOk(Added(b, id, time, value))
  {
    var b' := Added(b, id, time, value);
    forall t | t in TimeSet(b')
      ensures t <= b'.end
    {
      var i, k :| i in b'.changes && 0 <= k < |b'.changes[i]| && b'.changes[i][k].time == t;
      assert k < |ChangesOf(b, i)| ==> ChangesOf(b, i)[k].time in TimeSet(b);
    }
  }
}
