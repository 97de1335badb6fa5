/** Value-change blocks: the payload of `BLK_VC_DATA` (`VcDataBlock` of `python/src/trlog/_vc_data.py`).
    A time table that all variables share, initial values, a position table, and wave data in which
    variables with the same wave share one stored copy. */
module VcBlock {
  import opened Bits
  import opened Bytes
  import opened Varint
  import opened Lists
  import opened VcValues
  import opened VcWave
  import S = Sorting

  type SigMap = map<nat, Sig>

  datatype VcChange = VcChange(id: nat, time: nat, value: Value)

  /** A block under construction. */
  datatype Block = Block(start: nat, end: nat, changes: map<nat, seq<Change>>, init: map<nat, Value>)

  datatype Flags =
    Flags(compressed: bool, zstd: bool, timeZlib: bool, waveLz4: bool, waveZlib: bool, xorDelta: bool, seekable: bool)

  /** The compressors at hand; lz4 may not be installed. */
  datatype Codecs = Codecs(zlib: Compressor, zstd: Compressor, lz4: Option<Compressor>)

  ghost predicate CodecsOk(c: Codecs) {
    Lossless(c.zlib) && Lossless(c.zstd) && (c.lz4.Some? ==> Lossless(c.lz4.value))
  }

  function SigOf(sigs: SigMap, id: nat): Sig {
    if id in sigs then sigs[id] else Sig(TwoState, 1)
  }

  // ---- What a block holds ----

  function ChangesOf(b: Block, id: nat): seq<Change> {
    if id in b.changes then b.changes[id] else []
  }

  function TimeSet(b: Block): set<nat> {
    set id, k | id in b.changes && 0 <= k < |b.changes[id]| :: b.changes[id][k].time
  }

  function Times(b: Block): (r: seq<nat>)
    ensures Rising(r)
  {
    Ascending(TimeSet(b))
  }

  function VarIds(b: Block): seq<nat> {
    Ascending(b.changes.Keys + b.init.Keys)
  }

  function Earlier(a: Change, b: Change): bool {
    a.time <= b.time
  }

  function InOrder(b: Block, id: nat): (r: seq<Change>)
    ensures |r| == |ChangesOf(b, id)|
  {
    S.Sort(ChangesOf(b, id), Earlier)
  }

  function Default(enc: Enc): Value {
    match enc
    case Real => Dbl(ZEROS)
    case Analog => Dbl(ZEROS)
    case Str => Text([])
    case _ => Int(0)
  }

  const ZEROS: bytes := [0, 0, 0, 0, 0, 0, 0, 0]

  function InitOf(b: Block, sigs: SigMap, id: nat): Value {
    if id in b.init then b.init[id] else Default(SigOf(sigs, id).enc)
  }

  ghost predicate DistinctTimes(cs: seq<Change>) {
    forall i, j :: 0 <= i < j < |cs| ==> cs[i].time != cs[j].time
  }

  ghost predicate InitOk(sig: Sig, v: Value) {
    && sig.width < LIMIT
    && match sig.enc
       case TwoState => FitsBytes(v, sig.width)
       case BitVec => FitsBytes(v, sig.width)
       case Real => v.Dbl? && |v.raw| == 8
       case Analog => v.Dbl? && |v.raw| == 8
       case Str => v.Text? && |v.utf8| < LIMIT
       case _ => true
  }

  /** One variable's changes: at distinct times from the block start on, each value in its signal's
      range. */
  ghost predicate VarOk(b: Block, sigs: SigMap, id: nat) {
    var cs := ChangesOf(b, id);
    && id < LIMIT && |cs| < WORD && DistinctTimes(cs)
    && (forall i :: 0 <= i < |cs| ==> ChangeOk(b.start, SigOf(sigs, id), cs[i]))
    && InitOk(SigOf(sigs, id), InitOf(b, sigs, id))
  }

  ghost predicate ChangeOk(start: nat, sig: Sig, c: Change) {
    start <= c.time < WORD && Storable(sig, c.value)
  }

  /** What callers owe: values in their signals' ranges, and numbers of 64 bits. */
  ghost predicate VarFits(b: Block, sigs: SigMap, id: nat) {
    var cs := ChangesOf(b, id);
    && id < LIMIT && |cs| < WORD
    && (forall i :: 0 <= i < |cs| ==> ChangeFits(SigOf(sigs, id), cs[i]))
    && InitOk(SigOf(sigs, id), InitOf(b, sigs, id))
  }

  ghost predicate ChangeFits(sig: Sig, c: Change) {
    c.time < WORD && Storable(sig, c.value)
  }

  ghost predicate Fits(b: Block, sigs: SigMap) {
    b.start < WORD && b.end < WORD && |VarIds(b)| < WORD && forall id :: id in VarIds(b) ==> VarFits(b, sigs, id)
  }

  ghost predicate NotEarly(b: Block, id: nat) {
    forall i :: 0 <= i < |ChangesOf(b, id)| ==> b.start <= ChangesOf(b, id)[i].time
  }

  ghost predicate BlockOk(b: Block, sigs: SigMap) {
    b.start < WORD && b.end < WORD && |VarIds(b)| < WORD && forall id :: id in VarIds(b) ==> VarOk(b, sigs, id)
  }

  lemma OkIfTimely(b: Block, sigs: SigMap)
    ensures BlockOk(b, sigs) <==> Fits(b, sigs) && NoneTwice(b) && NoneEarly(b)
  {
    hide VarIds, VarOk, VarFits, DistinctTimes, NotEarly;
    forall id
      ensures VarOk(b, sigs, id) <==> VarFits(b, sigs, id) && DistinctTimes(ChangesOf(b, id)) && NotEarly(b, id)
    {
      VarOkIfTimely(b, sigs, id);
    }
  }

  /** No variable changes twice at one time. */
  ghost predicate NoneTwice(b: Block) {
    forall id :: id in VarIds(b) ==> DistinctTimes(ChangesOf(b, id))
  }

  /** No change is before the start of the block. */
  ghost predicate NoneEarly(b: Block) {
    forall id :: id in VarIds(b) ==> NotEarly(b, id)
  }

  lemma VarOkIfTimely(b: Block, sigs: SigMap, id: nat)
    ensures VarOk(b, sigs, id) <==> VarFits(b, sigs, id) && DistinctTimes(ChangesOf(b, id)) && NotEarly(b, id)
  {
    hide SigOf, InitOk, Storable, InitOf, DistinctTimes;
    var cs := ChangesOf(b, id);
    assert forall i :: 0 <= i < |cs| ==> (ChangeOk(b.start, SigOf(sigs, id), cs[i]) <==> b.start <= cs[i].time && ChangeFits(SigOf(sigs, id), cs[i]));
  }

  /** No change is early exactly if the first time of the table is not. */
  lemma EarlyExactly(b: Block)
    ensures NoneEarly(b) <==> (Times(b) == [] || b.start <= Times(b)[0])
  {
    var times := Times(b);
    if NoneEarly(b) {
      if times != [] {
        assert times[0] in times;
        var id, k :| id in b.changes && 0 <= k < |b.changes[id]| && b.changes[id][k].time == times[0];
        assert id in VarIds(b) && NotEarly(b, id) && ChangesOf(b, id)[k].time == times[0];
      }
    }
    if times == [] || b.start <= times[0] {
      forall id, i | id in VarIds(b) && 0 <= i < |ChangesOf(b, id)|
        ensures b.start <= ChangesOf(b, id)[i].time
      {
        var t := ChangesOf(b, id)[i].time;
        assert t in TimeSet(b) && t in times;
        var k :| 0 <= k < |times| && times[k] == t;
      }
    }
  }

  // ---- Waves ----

  function TimeToIdx(times: seq<nat>): (m: map<nat, nat>)
    requires Rising(times)
    ensures forall i :: 0 <= i < |times| ==> times[i] in m && m[times[i]] == i
    ensures forall t :: t in m ==> m[t] < |times| && times[m[t]] == t
  {
    map i: nat | 0 <= i < |times| :: times[i] := i
  }

  ghost function EntriesOf(b: Block, id: nat): (es: seq<Entry>)
    ensures |es| == |ChangesOf(b, id)|
    ensures forall i :: 0 <= i < |es| ==>
      var c := InOrder(b, id)[i];
      c.time in TimeToIdx(Times(b)) && es[i] == Entry(TimeToIdx(Times(b))[c.time], c.value)
  {
    InOrderPlaced(b, id);
    Places(InOrder(b, id), TimeToIdx(Times(b)))
  }

  lemma InOrderPlaced(b: Block, id: nat)
    ensures Placed(InOrder(b, id), TimeToIdx(Times(b)))
  {
    var cs := InOrder(b, id);
    S.SameMembers(ChangesOf(b, id), Earlier);
    forall i | 0 <= i < |cs|
      ensures cs[i].time in TimeToIdx(Times(b))
    {
      assert cs[i] in ChangesOf(b, id);
      var k :| 0 <= k < |ChangesOf(b, id)| && ChangesOf(b, id)[k] == cs[i];
      assert cs[i].time in TimeSet(b) && cs[i].time in Times(b);
    }
  }

  lemma EarlierTotal()
    ensures S.Total(Earlier)
  {
  }

  /** In time order a variable's changes climb strictly. */
  lemma InOrderRises(b: Block, id: nat)
    requires DistinctTimes(ChangesOf(b, id))
    ensures forall i, j :: 0 <= i < j < |InOrder(b, id)| ==> InOrder(b, id)[i].time < InOrder(b, id)[j].time
  {
    var cs, r := ChangesOf(b, id), InOrder(b, id);
    EarlierTotal();
    S.SortSorts(cs, Earlier);
    S.SortDistinct(cs, Earlier);
    S.SameMembers(cs, Earlier);
    forall i, j | 0 <= i < j < |r|
      ensures r[i].time < r[j].time
    {
      assert Earlier(r[i], r[j]);
      assert r[i] in cs && r[j] in cs;
    }
  }

  lemma {:induction false} ClimbsIfRising(es: seq<Entry>, next: nat)
    requires forall i, j :: 0 <= i < j < |es| ==> es[i].tidx < es[j].tidx
    requires es != [] ==> es[0].tidx >= next
    ensures Climbs(es, next)
    decreases |es|
  {
    if es != [] {
      ClimbsIfRising(es[1..], es[0].tidx + 1);
    }
  }

  lemma {:induction false} RisingIfClimbs(es: seq<Entry>, next: nat)
    requires Climbs(es, next)
    ensures forall i :: 0 <= i < |es| ==> next <= es[i].tidx
    ensures forall i, j :: 0 <= i < j < |es| ==> es[i].tidx < es[j].tidx
    decreases |es|
  {
    if es != [] {
      RisingIfClimbs(es[1..], es[0].tidx + 1);
    }
  }

  /** A variable's time places climb exactly if its times differ. */
  lemma ClimbsExactly(b: Block, id: nat)
    ensures Climbs(EntriesOf(b, id), 0) <==> DistinctTimes(ChangesOf(b, id))
  {
    hide InOrder, Times, ChangesOf, Climbs, TimeToIdx;
    if DistinctTimes(ChangesOf(b, id)) {
      EntriesClimb(b, id);
    }
    if Climbs(EntriesOf(b, id), 0) {
      var es, r, times := EntriesOf(b, id), InOrder(b, id), Times(b);
      RisingIfClimbs(es, 0);
      forall i, j | 0 <= i < j < |r|
        ensures r[i].time < r[j].time
      {
        assert times[es[i].tidx] == r[i].time && times[es[j].tidx] == r[j].time;
      }
      InOrderDistinct(b, id);
    }
  }

  lemma InOrderDistinct(b: Block, id: nat)
    requires forall i, j :: 0 <= i < j < |InOrder(b, id)| ==> InOrder(b, id)[i].time < InOrder(b, id)[j].time
    ensures DistinctTimes(ChangesOf(b, id))
  {
    hide S.Sort;
    var cs, r := ChangesOf(b, id), InOrder(b, id);
    S.SortKeeps(cs, Earlier);
    S.SameMembers(cs, Earlier);
    S.OnceEach(r);
    forall i, j | 0 <= i < j < |cs|
      ensures cs[i].time != cs[j].time
    {
      if cs[i] == cs[j] {
        S.Twice(cs, i, j);
      } else {
        assert cs[i] in r && cs[j] in r;
      }
    }
  }

  lemma TimesFit(b: Block, sigs: SigMap)
    requires Fits(b, sigs)
    ensures |Times(b)| <= WORD
  {
    forall t | t in Times(b)
      ensures t < WORD
    {
      var id, k :| id in b.changes && 0 <= k < |b.changes[id]| && b.changes[id][k].time == t;
      assert id in VarIds(b) && VarFits(b, sigs, id);
      assert ChangeFits(SigOf(sigs, id), ChangesOf(b, id)[k]);
    }
    RisingCount(Times(b), WORD);
  }

  lemma EntriesFit(b: Block, sigs: SigMap, id: nat)
    requires Fits(b, sigs) && id in VarIds(b)
    ensures EntriesOk(SigOf(sigs, id), EntriesOf(b, id))
  {
    hide VarIds, Times, EntriesOf;
    assert VarFits(b, sigs, id);
    TimesFit(b, sigs);
    EntriesStorable(b, sigs, id);
  }

  lemma TimesBelowWord(b: Block, sigs: SigMap)
    requires BlockOk(b, sigs)
    ensures forall t :: t in Times(b) ==> b.start <= t < WORD
    ensures |Times(b)| <= WORD
  {
    forall t | t in Times(b)
      ensures b.start <= t < WORD
    {
      var id, k :| id in b.changes && 0 <= k < |b.changes[id]| && b.changes[id][k].time == t;
      assert id in VarIds(b) && VarOk(b, sigs, id);
      assert ChangeOk(b.start, SigOf(sigs, id), ChangesOf(b, id)[k]);
    }
    RisingCount(Times(b), WORD);
  }

  lemma EntriesClimb(b: Block, id: nat)
    requires DistinctTimes(ChangesOf(b, id))
    ensures Climbs(EntriesOf(b, id), 0)
  {
    hide InOrder, Times, ChangesOf, Climbs, DistinctTimes, TimeToIdx;
    var es, cs, times := EntriesOf(b, id), InOrder(b, id), Times(b);
    InOrderRises(b, id);
    forall i, j | 0 <= i < j < |es|
      ensures es[i].tidx < es[j].tidx
    {
      assert times[es[i].tidx] == cs[i].time && times[es[j].tidx] == cs[j].time;
    }
    ClimbsIfRising(es, 0);
  }

  lemma InOrderOk(b: Block, sigs: SigMap, id: nat)
    requires VarOk(b, sigs, id)
    ensures forall c :: c in InOrder(b, id) ==> ChangeOk(b.start, SigOf(sigs, id), c)
  {
    hide ChangeOk, SigOf, InitOk;
    S.SameMembers(ChangesOf(b, id), Earlier);
    forall c | c in InOrder(b, id)
      ensures ChangeOk(b.start, SigOf(sigs, id), c)
    {
      var k :| 0 <= k < |ChangesOf(b, id)| && ChangesOf(b, id)[k] == c;
    }
  }

  lemma InOrderFits(b: Block, sigs: SigMap, id: nat)
    requires VarFits(b, sigs, id)
    ensures forall c :: c in InOrder(b, id) ==> ChangeFits(SigOf(sigs, id), c)
  {
    hide ChangeFits, SigOf, InitOk;
    S.SameMembers(ChangesOf(b, id), Earlier);
    forall c | c in InOrder(b, id)
      ensures ChangeFits(SigOf(sigs, id), c)
    {
      var k :| 0 <= k < |ChangesOf(b, id)| && ChangesOf(b, id)[k] == c;
    }
  }

  lemma EntriesStorable(b: Block, sigs: SigMap, id: nat)
    requires VarFits(b, sigs, id) && |Times(b)| <= WORD
    ensures EntriesOk(SigOf(sigs, id), EntriesOf(b, id))
  {
    hide InOrder, Storable, Times, SigOf, DistinctTimes, InitOk, TimeToIdx, EntriesOf, ChangesOf;
    var es, cs := EntriesOf(b, id), InOrder(b, id);
    InOrderFits(b, sigs, id);
    forall i | 0 <= i < |es|
      ensures EntryOk(SigOf(sigs, id), es[i])
    {
      assert cs[i] in InOrder(b, id);
      assert ChangeFits(SigOf(sigs, id), cs[i]);
    }
  }

  /** Every variable's entries can be encoded. */
  lemma EntriesFine(b: Block, sigs: SigMap, id: nat)
    requires BlockOk(b, sigs) && id in VarIds(b)
    ensures EntriesOk(SigOf(sigs, id), EntriesOf(b, id)) && Climbs(EntriesOf(b, id), 0)
  {
    hide VarIds, Times, Climbs, EntriesOk, EntriesOf, Fits, BlockOk;
    OkIfTimely(b, sigs);
    EntriesFit(b, sigs, id);
    EntriesClimb(b, id);
  }

  ghost function RawWave(b: Block, sigs: SigMap, id: nat): (s: bytes)
    requires BlockOk(b, sigs) && id in VarIds(b)
    ensures |s| >= 1
  {
    EntriesFine(b, sigs, id);
    EncWave(SigOf(sigs, id), EntriesOf(b, id))
  }
}
