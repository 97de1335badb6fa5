/** Flushing value-change blocks, whole or split by scope: `_flush_vc` of
    `python/src/trlog/_writer.py`.  However blocks were flushed, a signal reads back the same. */
module TraceWrite {
  import opened Bytes
  import opened Varint
  import opened Lists
  import opened VcValues
  import opened VcWave
  import opened VcBlock
  import opened VcStore
  import opened VcPayload
  import opened VcSizes
  import opened VcDataBlocks
  import opened VcCodec
  import opened TraceRead

  // ---- Parts of a block ----

  /** Scope 0 for variables that belong to none. */
  function ScopeOf(scopes: map<nat, nat>, id: nat): nat {
    if id in scopes then scopes[id] else 0
  }

  /** Every variable with changes has an initial value, as blocks under construction do. */
  ghost predicate InitCovers(b: Block) {
    b.changes.Keys <= b.init.Keys
  }

  /** So they do from the start on, and after every call of their builders. */
  lemma BuildersCover(b: Block, id: nat, time: nat, value: Value)
    ensures InitCovers(Block(b.start, b.start, map[], map[]))
    ensures InitCovers(b) ==> InitCovers(Added(b, id, time, value)) && InitCovers(b.(init := b.init[id := value]))
  {
  }

  /** What the block holds of some variables, and a range that covers it. */
  ghost predicate IsPartOf(b: Block, ids: seq<nat>, part: Block) {
    && part.start == b.start && part.end <= b.end && RangeOk(part)
    && (forall id :: id in part.changes ==> id in ids)
    && (forall id :: ChangesOf(part, id) == if id in ids then ChangesOf(b, id) else [])
    && (forall id :: id in part.init <==> id in b.init && id in ids)
    && (forall id :: id in part.init ==> part.init[id] == b.init[id])
  }

  /** The variables of a scope. */
  function InScope(b: Block, scopes: map<nat, nat>, s: nat): (r: seq<nat>)
    ensures Rising(r)
  {
    Ascending(set id | id in b.changes.Keys + b.init.Keys && ScopeOf(scopes, id) == s)
  }

  function ScopesOf(b: Block, scopes: map<nat, nat>): (r: seq<nat>)
    ensures Rising(r)
  {
    Ascending(set id | id in b.changes.Keys + b.init.Keys :: ScopeOf(scopes, id))
  }

  lemma PartIds(b: Block, ids: seq<nat>, part: Block)
    requires IsPartOf(b, ids, part) && InitCovers(b) && forall id :: id in ids ==> id in VarIds(b)
    ensures forall id :: id in VarIds(part) <==> id in ids
  {
    forall id
      ensures id in VarIds(part) <==> id in ids
    {
      assert id in VarIds(part) <==> id in part.changes || id in part.init;
      assert id in VarIds(b) <==> id in b.changes || id in b.init;
    }
  }

  lemma PartVar(b: Block, sigs: SigMap, ids: seq<nat>, part: Block, id: nat)
    requires IsPartOf(b, ids, part) && InitCovers(b) && id in ids && id in VarIds(b)
    ensures part.start == b.start && ChangesOf(part, id) == ChangesOf(b, id)
    ensures InitOf(part, sigs, id) == InitOf(b, sigs, id)
  {
    hide SigOf, RangeOk;
    assert id in b.init;
  }

  lemma PartVarOk(b: Block, sigs: SigMap, ids: seq<nat>, part: Block, id: nat)
    requires IsPartOf(b, ids, part) && InitCovers(b) && VarOk(b, sigs, id) && id in ids && id in VarIds(b)
    ensures VarOk(part, sigs, id)
  {
    hide InitOk, DistinctTimes, SigOf, ChangeOk, IsPartOf, InitCovers, VarIds, ChangesOf, InitOf;
    PartVar(b, sigs, ids, part, id);
  }

  lemma FewerIds(part: Block, b: Block)
    requires forall id :: id in VarIds(part) ==> id in VarIds(b)
    ensures |VarIds(part)| <= |VarIds(b)|
  {
    var few, all := part.changes.Keys + part.init.Keys, b.changes.Keys + b.init.Keys;
    assert forall id :: id in few ==> id in VarIds(part);
    SubsetSize(few, all);
  }

  /** A part of a good block is a good block. */
  lemma PartOk(b: Block, sigs: SigMap, ids: seq<nat>, part: Block)
    requires BlockOk(b, sigs) && InitCovers(b) && IsPartOf(b, ids, part) && forall id :: id in ids ==> id in VarIds(b)
    ensures BlockOk(part, sigs)
  {
    hide VarOk, IsPartOf, VarIds, InitCovers;
    PartIds(b, ids, part);
    forall id | id in VarIds(part)
      ensures VarOk(part, sigs, id)
    {
      PartVarOk(b, sigs, ids, part, id);
    }
    PartRange(b, ids, part);
    FewerIds(part, b);
  }

  lemma PartRange(b: Block, ids: seq<nat>, part: Block)
    requires IsPartOf(b, ids, part)
    ensures part.start == b.start && part.end <= b.end && RangeOk(part)
  {
  }

  /** A part shows its variables as the whole block does, and no others. */
  lemma PartShows(b: Block, sigs: SigMap, ids: seq<nat>, part: Block, id: nat)
    requires BlockOk(b, sigs) && BlockOk(part, sigs) && InitCovers(b) && IsPartOf(b, ids, part)
    requires forall x :: x in ids ==> x in VarIds(b)
    ensures Pick(Listing(part, sigs), id) == if id in ids then Pick(Listing(b, sigs), id) else []
  {
    hide Listing, VarIds, InitCovers, VarOk, Pick;
    PartIds(b, ids, part);
    PickIsExpected(b, sigs, id);
    PickIsExpected(part, sigs, id);
    if id in ids {
      PartVar(b, sigs, ids, part, id);
      SameVar(b, part, sigs, id);
    }
  }

  lemma SameVar(b: Block, part: Block, sigs: SigMap, id: nat)
    requires part.start == b.start && ChangesOf(part, id) == ChangesOf(b, id) && InitOf(part, sigs, id) == InitOf(b, sigs, id)
    ensures ExpectedVar(part, sigs, id) == ExpectedVar(b, sigs, id)
  {
    assert InOrder(part, id) == InOrder(b, id);
  }

  // ---- Building a part ----

  /** The variables of `before`, and of `id` its first `i` changes. */
  ghost predicate Copied(b: Block, before: seq<nat>, id: nat, i: nat, p: Block)
    requires i <= |ChangesOf(b, id)|
  {
    && p.start == b.start && p.end <= b.end && RangeOk(p)
    && (forall x :: x in p.changes ==> x in before || x == id)
    && (forall x :: x != id ==> ChangesOf(p, x) == if x in before then ChangesOf(b, x) else [])
    && ChangesOf(p, id) == ChangesOf(b, id)[..i]
    && (forall x :: x in p.init <==> x in b.init && (x in before || x == id))
    && (forall x :: x in p.init ==> p.init[x] == b.init[x])
  }

  lemma StartCopy(b: Block, before: seq<nat>, id: nat, p: Block, q: Block)
    requires IsPartOf(b, before, p) && id !in before && RangeOk(q)
    requires q == if id in b.init then p.(init := p.init[id := b.init[id]]) else p
    ensures Copied(b, before, id, 0, q)
  {
    assert ChangesOf(p, id) == [];
    forall x | x != id
      ensures ChangesOf(q, x) == if x in before then ChangesOf(b, x) else []
    {
      assert ChangesOf(q, x) == ChangesOf(p, x);
    }
  }

  lemma CopyStep(b: Block, before: seq<nat>, id: nat, i: nat, p: Block, q: Block)
    requires i < |ChangesOf(b, id)| && Copied(b, before, id, i, p) && InitCovers(b) && RangeOk(b) && RangeOk(q)
    requires q == Added(p, id, ChangesOf(b, id)[i].time, ChangesOf(b, id)[i].value)
    ensures Copied(b, before, id, i + 1, q)
  {
    var cs := ChangesOf(b, id);
    assert id in p.init && q.init == p.init;
    assert cs[i].time in TimeSet(b);
    assert cs[..i + 1] == cs[..i] + [cs[i]] && Change(cs[i].time, cs[i].value) == cs[i];
    forall x | x != id
      ensures ChangesOf(q, x) == if x in before then ChangesOf(b, x) else []
    {
      assert ChangesOf(q, x) == ChangesOf(p, x);
    }
  }

  lemma CopyDone(b: Block, before: seq<nat>, id: nat, p: Block)
    requires Copied(b, before, id, |ChangesOf(b, id)|, p)
    ensures IsPartOf(b, before + [id], p)
  {
    assert forall x :: x in before + [id] <==> x in before || x == id;
    assert ChangesOf(b, id)[..|ChangesOf(b, id)|] == ChangesOf(b, id);
  }

  /** One variable goes into a part: its initial value, then its changes. */
  method CopyVar(b: Block, part: VcDataBlock, ghost before: seq<nat>, id: nat)
    requires IsPartOf(b, before, part.Now()) && id !in before && InitCovers(b) && RangeOk(b)
    modifies part
    ensures IsPartOf(b, before + [id], part.Now()) && part.sigTypes == old(part.sigTypes)
  {
    hide IsPartOf, Copied, InitCovers;
    ghost var empty := part.Now();
    PartRange(b, before, empty);
    if id in b.init {
      part.SetInitial(id, b.init[id]);
    }
    var cs := ChangesOf(b, id);
    StartCopy(b, before, id, empty, part.Now());
    for i := 0 to |cs|
      invariant Copied(b, before, id, i, part.Now()) && RangeOk(part.Now()) && part.sigTypes == old(part.sigTypes)
    {
      ghost var was := part.Now();
      part.AddChange(id, cs[i].time, cs[i].value);
      CopyStep(b, before, id, i, was, part.Now());
    }
    CopyDone(b, before, id, part.Now());
  }

  /** A scope's block, filled variable by variable. */
  method BuildPart(b: Block, sigs: SigMap, options: Options, codecs: Codecs, ids: seq<nat>) returns (part: VcDataBlock)
    requires InitCovers(b) && RangeOk(b) && Rising(ids)
    ensures fresh(part) && part.sigTypes == sigs && part.options == options && part.codecs == codecs
    ensures IsPartOf(b, ids, part.Now())
  {
    hide IsPartOf, InitCovers, RangeOk;
    part := new VcDataBlock(b.start, sigs, options, codecs);
    NothingCopied(b, part.Now());
    for i := 0 to |ids|
      invariant IsPartOf(b, ids[..i], part.Now()) && part.sigTypes == sigs
    {
      assert ids[i] !in ids[..i];
      CopyVar(b, part, ids[..i], ids[i]);
      assert ids[..i + 1] == ids[..i] + [ids[i]];
    }
    assert ids[..|ids|] == ids;
  }

  lemma NothingCopied(b: Block, p: Block)
    requires p == Block(b.start, b.start, map[], map[]) && RangeOk(b)
    ensures IsPartOf(b, [], p)
  {
  }

  // ---- Appending to a trace ----

  function Appended(tr: Trace, block: FileBlock, entries: seq<IndexEntry>): Trace {
    tr.(file := tr.file + [block], index := tr.index + entries)
  }

  lemma {:induction false} ScanAppend(tr: Trace, block: FileBlock, entries: seq<IndexEntry>, id: nat, k: nat)
    requires k <= |tr.file|
    ensures Scan(Appended(tr, block, entries), id, None, None, k)
         == Joined(Scan(tr, id, None, None, k), FromBlock(tr, block, id, None, None))
    decreases |tr.file| - k
  {
    hide DecBlock, Within, Pick;
    var tr' := Appended(tr, block, entries);
    assert FromBlock(tr', block, id, None, None) == FromBlock(tr, block, id, None, None);
    if k == |tr.file| {
      assert tr'.file[k] == block && Scan(tr', id, None, None, k + 1) == Some([]);
      JoinedEnds(FromBlock(tr, block, id, None, None));
    } else {
      assert tr'.file[k] == tr.file[k];
      ScanAppend(tr, block, entries, id, k + 1);
      JoinedTurns(FromBlock(tr, tr.file[k], id, None, None), Scan(tr, id, None, None, k + 1), FromBlock(tr, block, id, None, None));
    }
  }

  lemma JoinedEnds(p: Option<seq<VcChange>>)
    ensures Joined(p, Some([])) == Joined(Some([]), p) == p
  {
    if p.Some? {
      assert p.value + [] == p.value && [] + p.value == p.value;
    }
  }

  lemma JoinedTurns(a: Option<seq<VcChange>>, b: Option<seq<VcChange>>, c: Option<seq<VcChange>>)
    ensures Joined(a, Joined(b, c)) == Joined(Joined(a, b), c)
  {
    if a.Some? && b.Some? && c.Some? {
      assert a.value + (b.value + c.value) == (a.value + b.value) + c.value;
    }
  }

  /** One entry for a value-change block, none for others. */
  ghost predicate EntryFor(tr: Trace, block: FileBlock, entries: seq<IndexEntry>) {
    if block.Foreign? then entries == []
    else |entries| == 1 && entries[0].at == |tr.file| && Covered(tr, entries[0], block)
  }

  lemma {:induction false} IndexAppend(tr: Trace, block: FileBlock, entries: seq<IndexEntry>, j: nat, k: nat)
    requires j <= |tr.index| && k <= |tr.file| && IndexedFrom(tr, j, k) && EntryFor(tr, block, entries)
    ensures IndexedFrom(Appended(tr, block, entries), j, k)
    decreases |tr.file| - k
  {
    hide DecBlock;
    var tr' := Appended(tr, block, entries);
    if k == |tr.file| {
      assert tr'.file[k] == block && k + 1 == |tr'.file|;
    } else if tr.file[k].Foreign? {
      assert tr'.file[k] == tr.file[k];
      IndexAppend(tr, block, entries, j, k + 1);
    } else {
      assert tr'.file[k] == tr.file[k] && tr'.index[j] == tr.index[j];
      IndexAppend(tr, block, entries, j + 1, k + 1);
    }
  }

  lemma {:induction false} WithinAll(cs: seq<VcChange>)
    ensures Within(cs, None, None) == cs
  {
    if cs != [] {
      WithinAll(cs[..|cs| - 1]);
      assert cs == cs[..|cs| - 1] + [cs[|cs| - 1]];
    }
  }

  /** What an encoded block adds to a read, and that its entry covers it. */
  lemma EncodedReads(tr: Trace, o: Options, b: Block, id: nat)
    requires CodecsOk(tr.codecs) && BlockOk(b, tr.sigs) && RangeOk(b) && SizesFit(tr.codecs, SubFlags(o), tr.sigs, b)
    ensures var e := EncBlock(tr.codecs, o, tr.sigs, b);
            FromBlock(tr, Vc(e.0, e.1), id, None, None) == Some(Pick(Listing(b, tr.sigs), id))
  {
    hide BlockOk, SizesFit, EncBlock, DecBlock, Listing, Within, Pick, CodecsOk;
    BlockRoundTrip(tr.codecs, o, tr.sigs, b);
    WithinAll(Pick(Listing(b, tr.sigs), id));
  }

  lemma EncodedCovered(tr: Trace, o: Options, b: Block, at: nat)
    requires CodecsOk(tr.codecs) && BlockOk(b, tr.sigs) && RangeOk(b) && SizesFit(tr.codecs, SubFlags(o), tr.sigs, b)
    ensures var e := EncBlock(tr.codecs, o, tr.sigs, b);
            Covered(tr, IndexEntry(b.start, b.end, at), Vc(e.0, e.1))
  {
    hide BlockOk, SizesFit, EncBlock, DecBlock, Listing, CodecsOk, RangeOk;
    BlockRoundTrip(tr.codecs, o, tr.sigs, b);
    forall c | c in Listing(b, tr.sigs)
      ensures b.start <= c.time <= b.end
    {
      SeenInRange(b, tr.sigs, c);
    }
  }

  // ---- What was recorded ----

  /** A signal's part of the blocks flushed so far, as if each had been written whole. */
  ghost function Recorded(flushed: seq<Block>, sigs: SigMap, id: nat): seq<VcChange> {
    if flushed == [] then []
    else Recorded(flushed[..|flushed| - 1], sigs, id) + Pick(Listing(flushed[|flushed| - 1], sigs), id)
  }

  ghost predicate Holds(tr: Trace, id: nat, cs: seq<VcChange>) {
    Scan(tr, id, None, None, 0) == Some(cs)
  }

  /** The scan finds what was recorded, and the index is right. */
  ghost predicate Faithful(tr: Trace, flushed: seq<Block>) {
    CodecsOk(tr.codecs) && IndexedFrom(tr, 0, 0) && forall id: nat :: Holds(tr, id, Recorded(flushed, tr.sigs, id))
  }

  lemma {:induction false} WithinAppend(a: seq<VcChange>, b: seq<VcChange>, start: Option<nat>, end: Option<nat>)
    ensures Within(a + b, start, end) == Within(a, start, end) + Within(b, start, end)
  {
    if b == [] {
      assert a + b == a && Within(a, start, end) + [] == Within(a, start, end);
    } else {
      var init := b[..|b| - 1];
      assert (a + b)[..|a + b| - 1] == a + init;
      WithinAppend(a, init, start, end);
      var last := if TimeWanted(b[|b| - 1].time, start, end) then [b[|b| - 1]] else [];
      assert (Within(a, start, end) + Within(init, start, end)) + last == Within(a, start, end) + (Within(init, start, end) + last);
    }
  }

  /** A read with bounds is the whole read, cut to them. */
  lemma {:induction false} ScanWithin(tr: Trace, id: nat, start: Option<nat>, end: Option<nat>, k: nat)
    requires k <= |tr.file| && Scan(tr, id, None, None, k).Some?
    ensures Scan(tr, id, start, end, k) == Some(Within(Scan(tr, id, None, None, k).value, start, end))
    decreases |tr.file| - k
  {
    hide DecBlock, Pick;
    if k < |tr.file| {
      ScanWithin(tr, id, start, end, k + 1);
      BlockWithin(tr, tr.file[k], id, start, end);
      WithinAppend(FromBlock(tr, tr.file[k], id, None, None).value, Scan(tr, id, None, None, k + 1).value, start, end);
    }
  }

  lemma BlockWithin(tr: Trace, b: FileBlock, id: nat, start: Option<nat>, end: Option<nat>)
    requires FromBlock(tr, b, id, None, None).Some?
    ensures FromBlock(tr, b, id, start, end) == Some(Within(FromBlock(tr, b, id, None, None).value, start, end))
  {
    hide DecBlock, Pick;
    if b.Vc? {
      WithinAll(Pick(DecBlock(tr.codecs, tr.sigs, b.flags, b.payload).value.changes, id));
    }
  }

  /** Reading a signal back, through the index or not, gives its recorded changes within the bounds:
      the same whether blocks were flushed whole or split by scope. */
  lemma ReadBack(tr: Trace, flushed: seq<Block>, indexed: bool, id: nat, start: Option<nat>, end: Option<nat>)
    requires Faithful(tr, flushed) && (end.Some? || StartsInTime(tr))
    ensures ReadSignal(tr, indexed, id, start, end) == Some(Within(Recorded(flushed, tr.sigs, id), start, end))
  {
    hide Scan, Recorded, Within, FindVcBlocks, ReadAll, IndexedFrom, CodecsOk, StartsInTime;
    assert Holds(tr, id, Recorded(flushed, tr.sigs, id));
    ScanWithin(tr, id, start, end, 0);
    if indexed && start.Some? {
      IndexedIsScan(tr, id, start.value, end, 0, 0);
    }
  }

  // ---- What a part's block comes to ----

  /** Scope-grouped blocks are compressed as a whole. */
  const GROUPED: Options := Options(true, false, false, false, false, false)

  /** What a block under construction keeps to. */
  ghost predicate Splittable(b: Block, sigs: SigMap) {
    BlockOk(b, sigs) && RangeOk(b) && InitCovers(b)
  }

  /** The block of some variables. */
  ghost function PartOf(b: Block, ids: seq<nat>): Block {
    Block(b.start, b.end, map id | id in b.changes && id in ids :: b.changes[id],
          map id | id in b.init && id in ids :: b.init[id])
  }

  lemma PartOfOk(b: Block, sigs: SigMap, ids: seq<nat>)
    requires Splittable(b, sigs) && forall id :: id in ids ==> id in VarIds(b)
    ensures IsPartOf(b, ids, PartOf(b, ids)) && BlockOk(PartOf(b, ids), sigs)
  {
    hide BlockOk, InitCovers, IsPartOf, PartOf, RangeOk, VarIds;
    PartOfIs(b, ids);
    PartOk(b, sigs, ids, PartOf(b, ids));
  }

  lemma PartOfIs(b: Block, ids: seq<nat>)
    requires RangeOk(b)
    ensures IsPartOf(b, ids, PartOf(b, ids))
  {
    var part := PartOf(b, ids);
    forall t | t in TimeSet(part)
      ensures t in TimeSet(b)
    {
      var id, k :| id in part.changes && 0 <= k < |part.changes[id]| && part.changes[id][k].time == t;
      assert b.changes[id][k].time == t;
    }
  }

  /** The wave data of a part's block stays below 2^64 bytes. */
  ghost predicate PartFits(b: Block, sigs: SigMap, ids: seq<nat>)
    requires Splittable(b, sigs) && forall id :: id in ids ==> id in VarIds(b)
  {
    PartOfOk(b, sigs, ids);
    |WaveStore(PlainWaves, PartOf(b, ids), sigs).data| < WORD
  }

  /** The wave data depends on the changes only. */
  lemma SameWaves(p: Block, q: Block, sigs: SigMap)
    requires BlockOk(p, sigs) && BlockOk(q, sigs) && VarIds(p) == VarIds(q)
    requires forall id :: ChangesOf(p, id) == ChangesOf(q, id)
    ensures WaveStore(PlainWaves, p, sigs) == WaveStore(PlainWaves, q, sigs)
  {
    hide BlockOk, VarIds, EncWave, PutAll;
    SameTimes(p, q);
    var ids := VarIds(p);
    forall i | 0 <= i < |ids|
      ensures RawWave(p, sigs, ids[i]) == RawWave(q, sigs, ids[i])
    {
      assert ids[i] in ids;
      assert ChangesOf(p, ids[i]) == ChangesOf(q, ids[i]);
    }
    assert RawWaves(p, sigs, ids) == RawWaves(q, sigs, ids);
  }

  lemma SameTimes(p: Block, q: Block)
    requires forall id :: ChangesOf(p, id) == ChangesOf(q, id)
    ensures Times(p) == Times(q)
  {
    TimesWithin(p, q);
    TimesWithin(q, p);
    assert TimeSet(p) == TimeSet(q);
  }

  lemma TimesWithin(p: Block, q: Block)
    requires forall id :: ChangesOf(p, id) == ChangesOf(q, id)
    ensures TimeSet(p) <= TimeSet(q)
  {
    forall t | t in TimeSet(p)
      ensures t in TimeSet(q)
    {
      var id, k :| id in p.changes && 0 <= k < |p.changes[id]| && p.changes[id][k].time == t;
      assert ChangesOf(q, id) == p.changes[id] && id in q.changes;
      assert q.changes[id][k].time == t;
    }
  }

  /** Any part with the same variables has the same waves. */
  lemma PartLength(c: Codecs, b: Block, sigs: SigMap, ids: seq<nat>, part: Block)
    requires Splittable(b, sigs) && (forall id :: id in ids ==> id in VarIds(b)) && PartFits(b, sigs, ids)
    requires IsPartOf(b, ids, part) && BlockOk(part, sigs)
    ensures SizesFit(c, SubFlags(GROUPED), sigs, part)
  {
    hide BlockOk, VarIds, WaveStore, Head, RawWave, EncTimes, Times, PartOf;
    var p := PartOf(b, ids);
    PartOfOk(b, sigs, ids);
    PartIds(b, ids, p);
    PartIds(b, ids, part);
    SameIds(p, part);
    SameWaves(p, part, sigs);
  }

  lemma SameIds(p: Block, q: Block)
    requires forall id :: id in VarIds(p) <==> id in VarIds(q)
    ensures VarIds(p) == VarIds(q)
  {
    AscendingUnique(VarIds(p), VarIds(q));
  }

  /** A block whose changes and values are few enough, by a count that does not look at times or scopes,
      fits however it is split. */
  lemma SmallPartFits(b: Block, sigs: SigMap, ids: seq<nat>)
    requires Splittable(b, sigs) && (forall id :: id in ids ==> id in VarIds(b)) && Rising(ids)
    requires Bulk(b, sigs, VarIds(b)) < WORD
    ensures PartFits(b, sigs, ids)
  {
    hide BlockOk, VarIds, RawWaves, PutAll, PartOf, Bulk, InitCovers, RangeOk;
    PartOfOk(b, sigs, ids);
    var p := PartOf(b, ids);
    PartIds(b, ids, p);
    assert Rising(VarIds(p)) && Rising(VarIds(b)) by {
      IdsRise(p);
      IdsRise(b);
    }
    assert forall i :: 0 <= i < |VarIds(p)| ==> VarIds(p)[i] in VarIds(p);
    DataWithin(p, sigs, VarIds(p), EMPTY);
    BulkSame(p, b, sigs, VarIds(p));
    BulkMono(b, sigs, VarIds(p), VarIds(b));
  }

  lemma IdsRise(b: Block)
    ensures Rising(VarIds(b))
  {
  }

  lemma ScopeIds(b: Block, scopes: map<nat, nat>, s: nat)
    ensures forall id :: id in InScope(b, scopes, s) <==> id in VarIds(b) && ScopeOf(scopes, id) == s
  {
  }

  // ---- The writer ----

  ghost predicate Flushable(codecs: Codecs, o: Options, sigs: SigMap, b: Block) {
    BlockOk(b, sigs) && RangeOk(b) && SizesFit(codecs, SubFlags(o), sigs, b)
  }

  class TraceWriter {
    const codecs: Codecs
    const sigs: SigMap
    const options: Options
    const scopeGrouped: bool
    var varScope: map<nat, nat>
    var file: seq<FileBlock>
    var index: seq<IndexEntry>
    /** The blocks flushed so far, as they were before any splitting. */
    ghost var flushed: seq<Block>

    constructor (codecs: Codecs, sigs: SigMap, options: Options, scopeGrouped: bool)
      requires CodecsOk(codecs)
      ensures Faithful(Now(), flushed) && flushed == [] && file == [] && index == [] && varScope == map[]
      ensures this.codecs == codecs && this.sigs == sigs && this.options == options && this.scopeGrouped == scopeGrouped
    {
      this.codecs, this.sigs, this.options, this.scopeGrouped := codecs, sigs, options, scopeGrouped;
      varScope, file, index, flushed := map[], [], [], [];
    }

    function Now(): Trace
      reads this
    {
      Trace(codecs, sigs, file, index)
    }

    /** A block of another type changes no read. */
    method WriteOther()
      requires Faithful(Now(), flushed)
      modifies this`file
      ensures Faithful(Now(), flushed) && file == old(file) + [Foreign] && index == old(index)
    {
      hide FromBlock, IndexedFrom, CodecsOk, Recorded;
      ghost var was := Now();
      file := file + [Foreign];
      assert Now() == Appended(was, Foreign, []);
      IndexAppend(was, Foreign, [], 0, 0);
      forall id: nat
        ensures Holds(Now(), id, Recorded(flushed, sigs, id))
      {
        assert Holds(was, id, Recorded(flushed, sigs, id));
        ScanAppend(was, Foreign, [], id, 0);
        OtherAddsNothing(was, id, Scan(was, id, None, None, 0));
      }
    }

    static lemma OtherAddsNothing(tr: Trace, id: nat, p: Option<seq<VcChange>>)
      ensures Joined(p, FromBlock(tr, Foreign, id, None, None)) == p
    {
      JoinedEnds(p);
    }

    /** Every signal's whole read grows by what the block shows of it. */
    ghost predicate Grown(before: Trace, b: Block)
      reads this
    {
      forall id: nat, cs: seq<VcChange> :: Holds(before, id, cs) ==> Holds(Now(), id, cs + Pick(Listing(b, sigs), id))
    }

    /** So many blocks and entries have been added behind the others. */
    ghost predicate Longer(before: Trace, n: nat)
      reads this
    {
      |file| == |before.file| + n && |index| == |before.index| + n && before.file <= file && before.index <= index
    }

    /** A block stands in the file as it was encoded, and in the index with its own range. */
    ghost predicate Wrote(b: Block, o: Options, fb: FileBlock, entry: IndexEntry, at: nat) {
      BlockOk(b, sigs) && entry == IndexEntry(b.start, b.end, at) &&
      var e := EncBlock(codecs, o, sigs, b);
      fb == Vc(e.0, e.1)
    }

    /** A block stands there that holds all of the variables of one scope and no others; variables that belong
        to no scope go with scope 0. */
    ghost predicate WroteScope(b: Block, scope: nat, fb: FileBlock, entry: IndexEntry, at: nat)
      reads this`varScope
    {
      exists ids: seq<nat>, part: Block :: AllOfScope(b, scope, ids) && IsPartOf(b, ids, part) && Wrote(part, GROUPED, fb, entry, at)
    }

    ghost predicate AllOfScope(b: Block, scope: nat, ids: seq<nat>)
      reads this`varScope
    {
      forall id :: id in ids <==> (id in b.changes || id in b.init) && (if id in varScope then varScope[id] == scope else scope == 0)
    }

    /** The scopes there are blocks for: each that has a variable, once, in rising order. */
    lemma ScopesAre(b: Block, s: nat)
      ensures Rising(ScopesOf(b, varScope))
      ensures s in ScopesOf(b, varScope) <==>
              exists id :: (id in b.changes || id in b.init) && (if id in varScope then varScope[id] == s else s == 0)
    {
      var scopes := set id | id in b.changes.Keys + b.init.Keys :: ScopeOf(varScope, id);
      if s in scopes {
        var id :| id in b.changes.Keys + b.init.Keys && ScopeOf(varScope, id) == s;
      }
    }

    lemma ScopeHasAll(b: Block, scope: nat)
      ensures AllOfScope(b, scope, InScope(b, varScope, scope))
    {
    }

    /** Encodes one block, indexes it and appends it. */
    method Append(blk: VcDataBlock)
      requires CodecsOk(codecs) && blk.codecs == codecs && blk.sigTypes == sigs && Flushable(codecs, blk.options, sigs, blk.Now())
      requires IndexedFrom(Now(), 0, 0)
      modifies this`file, this`index
      ensures IndexedFrom(Now(), 0, 0) && Grown(old(Now()), blk.Now())
      ensures Longer(old(Now()), 1) && Wrote(blk.Now(), blk.options, file[|old(file)|], index[|old(index)|], |old(file)|)
    {
      hide BlockOk, Fits, NoneTwice, NoneEarly, SizesFit, EncBlock, FromBlock, IndexedFrom, CodecsOk, Covered, Listing, Pick, RangeOk;
      ghost var was, b := Now(), blk.Now();
      OkIfTimely(b, sigs);
      var f, encoded := blk.EncodeBlock();
      var payload := encoded.value;
      var entry := IndexEntry(blk.startTime, blk.endTime, |file|);
      index := index + [entry];
      file := file + [Vc(f, payload)];
      EncodedCovered(was, blk.options, b, |was.file|);
      assert Now() == Appended(was, Vc(f, payload), [entry]);
      IndexAppend(was, Vc(f, payload), [entry], 0, 0);
      forall id: nat, cs: seq<VcChange> | Holds(was, id, cs)
        ensures Holds(Now(), id, cs + Pick(Listing(b, sigs), id))
      {
        EncodedReads(was, blk.options, b, id);
        ScanAppend(was, Vc(f, payload), [entry], id, 0);
      }
    }

    lemma GrownRecorded(before: Trace, b: Block, was: seq<Block>)
      requires Faithful(before, was) && before.sigs == sigs && Grown(before, b) && IndexedFrom(Now(), 0, 0) && CodecsOk(codecs)
      ensures Faithful(Now(), was + [b])
    {
      hide IndexedFrom, CodecsOk, Listing, Pick;
      var all := was + [b];
      assert all[..|all| - 1] == was;
      forall id: nat
        ensures Holds(Now(), id, Recorded(all, sigs, id))
      {
        assert Holds(before, id, Recorded(was, sigs, id));
      }
    }

    /** The wave data of every scope's block stays below 2^64 bytes. */
    ghost predicate PartsFit(b: Block)
      requires Splittable(b, sigs)
      reads this`varScope
    {
      forall i :: 0 <= i < |ScopesOf(b, varScope)| ==> PartFitsAt(b, ScopesOf(b, varScope)[i])
    }

    ghost predicate PartFitsAt(b: Block, s: nat)
      requires Splittable(b, sigs)
      reads this`varScope
    {
      ScopeIds(b, varScope, s);
      PartFits(b, sigs, InScope(b, varScope, s))
    }

    lemma SmallPartsFit(b: Block)
      requires Splittable(b, sigs) && Bulk(b, sigs, VarIds(b)) < WORD
      ensures PartsFit(b)
    {
      hide BlockOk, VarIds, InScope, ScopesOf, Bulk, InitCovers, RangeOk, PartFits;
      forall i | 0 <= i < |ScopesOf(b, varScope)|
        ensures PartFitsAt(b, ScopesOf(b, varScope)[i])
      {
        var s := ScopesOf(b, varScope)[i];
        ScopeIds(b, varScope, s);
        SmallPartFits(b, sigs, InScope(b, varScope, s));
      }
    }

    /** `_flush_vc`: one block as it is, or one for each scope. */
    method FlushVc(blk: VcDataBlock)
      requires Faithful(Now(), flushed) && blk.codecs == codecs && blk.sigTypes == sigs
      requires Splittable(blk.Now(), sigs)
      requires if scopeGrouped then PartsFit(blk.Now()) else SizesFit(codecs, SubFlags(blk.options), sigs, blk.Now())
      modifies this`file, this`index, this`flushed
      ensures Faithful(Now(), flushed) && flushed == old(flushed) + [blk.Now()]
      ensures Longer(old(Now()), if scopeGrouped then |ScopesOf(blk.Now(), varScope)| else 1)
      ensures !scopeGrouped ==> Wrote(blk.Now(), blk.options, file[|old(file)|], index[|old(index)|], |old(file)|)
    {
      hide BlockOk, RangeOk, IndexedFrom, CodecsOk, SizesFit, InitCovers, PartsFit, Grown, Holds, Recorded, WroteScope, Wrote, ScopesOf;
      ghost var was, b := Now(), blk.Now();
      if !scopeGrouped {
        Append(blk);
      } else {
        FlushByScope(blk.Now());
      }
      GrownRecorded(was, b, flushed);
      flushed := flushed + [b];
    }

    method FlushByScope(b: Block)
      requires CodecsOk(codecs) && IndexedFrom(Now(), 0, 0)
      requires Splittable(b, sigs) && PartsFit(b)
      modifies this`file, this`index
      ensures IndexedFrom(Now(), 0, 0) && Grown(old(Now()), b)
      ensures Longer(old(Now()), |ScopesOf(b, varScope)|)
      ensures forall k :: 0 <= k < |ScopesOf(b, varScope)| ==>
                WroteScope(b, ScopesOf(b, varScope)[k], file[|old(file)| + k], index[|old(index)| + k], |old(file)| + k)
    {
      hide BlockOk, RangeOk, IndexedFrom, CodecsOk, InitCovers, PartsFit, Grown, GrownBy, ScopesOf, WroteScope;
      ghost var was := Now();
      var scopes := ScopesOf(b, varScope);
      NothingGrown(was, b);
      for i := 0 to |scopes|
        invariant IndexedFrom(Now(), 0, 0) && GrownBy(was, b, scopes[..i]) && Longer(was, i)
        invariant forall k :: 0 <= k < i ==> WroteScope(b, scopes[k], file[|was.file| + k], index[|was.index| + k], |was.file| + k)
      {
        FlushScope(was, b, scopes, i);
      }
      assert scopes[..|scopes|] == scopes;
      GrownWhole(was, b);
    }

    /** One scope's block. */
    method FlushScope(ghost was: Trace, b: Block, scopes: seq<nat>, i: nat)
      requires CodecsOk(codecs) && IndexedFrom(Now(), 0, 0) && i < |scopes| && scopes == ScopesOf(b, varScope)
      requires Splittable(b, sigs) && PartsFit(b) && GrownBy(was, b, scopes[..i])
      modifies this`file, this`index
      ensures IndexedFrom(Now(), 0, 0) && GrownBy(was, b, scopes[..i + 1])
      ensures Longer(old(Now()), 1) && WroteScope(b, scopes[i], file[|old(file)|], index[|old(index)|], |old(file)|)
    {
      hide BlockOk, RangeOk, IndexedFrom, CodecsOk, Flushable, InitCovers, PartsFit, Grown, Holds, IsPartOf, Share, InScope, Wrote,
        AllOfScope;
      ghost var before := Now();
      var part := BuildPart(b, sigs, GROUPED, codecs, InScope(b, varScope, scopes[i]));
      FlushableParts(b, i, part.Now());
      ScopeHasAll(b, scopes[i]);
      ghost var p := part.Now();
      Append(part);
      assert Wrote(p, GROUPED, file[|before.file|], index[|before.index|], |before.file|);
      GrownMore(was, before, b, scopes, i, part.Now());
    }

    /** Grown by the variables of some scopes. */
    ghost predicate GrownBy(before: Trace, b: Block, scopes: seq<nat>)
      reads this
    {
      forall id: nat, cs: seq<VcChange> :: Holds(before, id, cs) ==> Holds(Now(), id, cs + Share(b, scopes, id))
    }

    ghost function Share(b: Block, scopes: seq<nat>, id: nat): seq<VcChange>
      reads this`varScope
    {
      if id in VarIds(b) && ScopeOf(varScope, id) in scopes then Pick(Listing(b, sigs), id) else []
    }

    lemma NothingGrown(before: Trace, b: Block)
      requires before == Now()
      ensures GrownBy(before, b, [])
    {
      hide Holds;
      assert forall cs: seq<VcChange> :: cs + [] == cs;
    }

    /** A scope's block can be flushed: it is as good as the whole block, and short enough. */
    lemma FlushableParts(b: Block, i: nat, part: Block)
      requires Splittable(b, sigs) && PartsFit(b) && i < |ScopesOf(b, varScope)|
      requires IsPartOf(b, InScope(b, varScope, ScopesOf(b, varScope)[i]), part)
      ensures Flushable(codecs, GROUPED, sigs, part) && BlockOk(part, sigs)
    {
      hide BlockOk, RangeOk, IsPartOf, InitCovers, VarIds, Head, WaveStore, ScopesOf, InScope, PartFits, SizesFit;
      var s := ScopesOf(b, varScope)[i];
      var ids := InScope(b, varScope, s);
      ScopeIds(b, varScope, s);
      assert PartFitsAt(b, s);
      PartOk(b, sigs, ids, part);
      PartRange(b, ids, part);
      PartLength(codecs, b, sigs, ids, part);
    }

    lemma GrownMore(first: Trace, before: Trace, b: Block, scopes: seq<nat>, i: nat, part: Block)
      requires i < |scopes| && Rising(scopes) && BlockOk(b, sigs) && BlockOk(part, sigs) && InitCovers(b)
      requires IsPartOf(b, InScope(b, varScope, scopes[i]), part)
      requires forall id: nat, cs: seq<VcChange> :: Holds(first, id, cs) ==> Holds(before, id, cs + Share(b, scopes[..i], id))
      requires Grown(before, part)
      ensures GrownBy(first, b, scopes[..i + 1])
    {
      hide BlockOk, InitCovers, Holds, IsPartOf, Listing, Pick, InScope, Share;
      forall id: nat, cs: seq<VcChange> | Holds(first, id, cs)
        ensures Holds(Now(), id, cs + Share(b, scopes[..i + 1], id))
      {
        assert Holds(Now(), id, (cs + Share(b, scopes[..i], id)) + Pick(Listing(part, sigs), id));
        ScopeAdds(b, scopes, i, part, id);
        assert (cs + Share(b, scopes[..i], id)) + Pick(Listing(part, sigs), id) == cs + Share(b, scopes[..i + 1], id);
      }
    }

    lemma ScopeAdds(b: Block, scopes: seq<nat>, i: nat, part: Block, id: nat)
      requires i < |scopes| && Rising(scopes) && BlockOk(b, sigs) && BlockOk(part, sigs) && InitCovers(b)
      requires IsPartOf(b, InScope(b, varScope, scopes[i]), part)
      ensures Share(b, scopes[..i], id) + Pick(Listing(part, sigs), id) == Share(b, scopes[..i + 1], id)
    {
      hide BlockOk, InitCovers, IsPartOf, Listing, Pick, VarIds, InScope, ScopeOf;
      ScopeIds(b, varScope, scopes[i]);
      PartShows(b, sigs, InScope(b, varScope, scopes[i]), part, id);
      assert scopes[..i + 1] == scopes[..i] + [scopes[i]];
      assert scopes[i] !in scopes[..i];
    }

    lemma GrownWhole(before: Trace, b: Block)
      requires GrownBy(before, b, ScopesOf(b, varScope)) && BlockOk(b, sigs)
      ensures Grown(before, b)
    {
      hide BlockOk, Holds, Listing, Pick;
      forall id: nat, cs: seq<VcChange> | Holds(before, id, cs)
        ensures Holds(Now(), id, cs + Pick(Listing(b, sigs), id))
      {
        AllShared(b, id);
      }
    }

    lemma AllShared(b: Block, id: nat)
      requires BlockOk(b, sigs)
      ensures Share(b, ScopesOf(b, varScope), id) == Pick(Listing(b, sigs), id)
    {
      hide BlockOk, Listing, Pick, ExpectedVar;
      PickIsExpected(b, sigs, id);
      if id in VarIds(b) {
        assert id in b.changes.Keys + b.init.Keys;
        assert ScopeOf(varScope, id) in ScopesOf(b, varScope);
      }
    }
  }
}
