/** Writing value-change blocks to a trace and reading one signal back: `_flush_vc` of
    `python/src/trlog/_writer.py`, `read_signal` and `iter_vc_blocks` of `python/src/trlog/_reader.py`,
    `add_vc_entry` and `find_vc_blocks` of `python/src/trlog/_index.py`.  A file is the list of its
    blocks; a block's offset is its place in that list. */
module TraceRead {
  import opened Bytes
  import opened Varint
  import opened Lists
  import opened VcWave
  import opened VcBlock
  import opened VcStore
  import opened VcPayload
  import opened VcDataBlocks

  datatype FileBlock = Vc(flags: Flags, payload: bytes) | Foreign

  datatype IndexEntry = IndexEntry(start: nat, end: nat, at: nat)

  datatype Trace = Trace(codecs: Codecs, sigs: SigMap, file: seq<FileBlock>, index: seq<IndexEntry>)

  const FOREVER: nat := 0x8000_0000_0000_0000   // 1 << 63

  // ---- Reading ----

  predicate TimeWanted(t: nat, start: Option<nat>, end: Option<nat>) {
    (start.Some? ==> t >= start.value) && (end.Some? ==> t <= end.value)
  }

  function Within(cs: seq<VcChange>, start: Option<nat>, end: Option<nat>): seq<VcChange> {
    if cs == [] then []
    else Within(cs[..|cs| - 1], start, end) +
         if TimeWanted(cs[|cs| - 1].time, start, end) then [cs[|cs| - 1]] else []
  }

  /** One block's part of a read; a block of another type has none, a damaged one raises. */
  function FromBlock(tr: Trace, b: FileBlock, id: nat, start: Option<nat>, end: Option<nat>): Option<seq<VcChange>> {
    match b
    case Foreign => Some([])
    case Vc(f, payload) =>
      match DecBlock(tr.codecs, tr.sigs, f, payload)
      case Fail(_) => None
      case Ok(d, _) => Some(Within(Pick(d.changes, id), start, end))
  }

  function Joined(a: Option<seq<VcChange>>, b: Option<seq<VcChange>>): Option<seq<VcChange>> {
    if a.Some? && b.Some? then Some(a.value + b.value) else None
  }

  /** The scan from block `k` on. */
  function Scan(tr: Trace, id: nat, start: Option<nat>, end: Option<nat>, k: nat): Option<seq<VcChange>>
    requires k <= |tr.file|
    decreases |tr.file| - k
  {
    if k == |tr.file| then Some([])
    else Joined(FromBlock(tr, tr.file[k], id, start, end), Scan(tr, id, start, end, k + 1))
  }

  /** `find_vc_blocks`, from entry `j` on: blocks whose range overlaps. */
  function FindVcBlocks(index: seq<IndexEntry>, start: nat, end: nat, j: nat): seq<nat>
    requires j <= |index|
    decreases |index| - j
  {
    if j == |index| then []
    else (if index[j].end >= start && index[j].start <= end then [index[j].at] else []) + FindVcBlocks(index, start, end, j + 1)
  }

  function ReadAll(tr: Trace, id: nat, start: Option<nat>, end: Option<nat>, offsets: seq<nat>): Option<seq<VcChange>> {
    if offsets == [] then Some([])
    else if offsets[0] >= |tr.file| then None
    else Joined(FromBlock(tr, tr.file[offsets[0]], id, start, end), ReadAll(tr, id, start, end, offsets[1..]))
  }

  /** `read_signal`: through the index only when there is one and a start is given. */
  function ReadSignal(tr: Trace, indexed: bool, id: nat, start: Option<nat>, end: Option<nat>): Option<seq<VcChange>> {
    if indexed && start.Some? then
      ReadAll(tr, id, start, end, FindVcBlocks(tr.index, start.value, if end.Some? then end.value else FOREVER, 0))
    else Scan(tr, id, start, end, 0)
  }

  // ---- Traces whose index is right ----

  /** A value-change block decodes, and its entry's range holds all its changes. */
  ghost predicate Covered(tr: Trace, e: IndexEntry, b: FileBlock) {
    b.Vc? && var d := DecBlock(tr.codecs, tr.sigs, b.flags, b.payload);
    d.Ok? && forall c :: c in d.value.changes ==> e.start <= c.time <= e.end
  }

  /** From block `k` on, entries from `j` on name the value-change blocks in file order. */
  ghost predicate IndexedFrom(tr: Trace, j: nat, k: nat)
    requires j <= |tr.index| && k <= |tr.file|
    decreases |tr.file| - k
  {
    if k == |tr.file| then j == |tr.index|
    else if tr.file[k].Foreign? then IndexedFrom(tr, j, k + 1)
    else j < |tr.index| && tr.index[j].at == k && Covered(tr, tr.index[j], tr.file[k]) && IndexedFrom(tr, j + 1, k + 1)
  }

  lemma {:induction false} PickFrom(cs: seq<VcChange>, id: nat)
    ensures forall c :: c in Pick(cs, id) <==> c in cs && c.id == id
  {
    if cs != [] {
      PickFrom(cs[..|cs| - 1], id);
      assert cs == cs[..|cs| - 1] + [cs[|cs| - 1]];
    }
  }

  lemma {:induction false} WithinNone(cs: seq<VcChange>, start: Option<nat>, end: Option<nat>)
    requires forall c :: c in cs ==> !TimeWanted(c.time, start, end)
    ensures Within(cs, start, end) == []
  {
    if cs != [] {
      WithinNone(cs[..|cs| - 1], start, end);
    }
  }

  lemma {:induction false} WithinSome(cs: seq<VcChange>, start: Option<nat>, end: Option<nat>, c: VcChange)
    requires c in cs && TimeWanted(c.time, start, end)
    ensures Within(cs, start, end) != []
  {
    if cs[|cs| - 1] != c {
      assert cs == cs[..|cs| - 1] + [cs[|cs| - 1]];
      WithinSome(cs[..|cs| - 1], start, end, c);
    }
  }

  /** A block the index passes over has nothing for the read, unless it starts beyond the bound that
      stands in for a missing end. */
  lemma SkippedIsEmpty(tr: Trace, e: IndexEntry, b: FileBlock, id: nat, start: nat, end: Option<nat>)
    requires Covered(tr, e, b)
    requires e.end < start || (end.Some? && e.start > end.value)
    ensures FromBlock(tr, b, id, Some(start), end) == Some([])
  {
    hide DecBlock;
    var d := DecBlock(tr.codecs, tr.sigs, b.flags, b.payload).value.changes;
    PickFrom(d, id);
    WithinNone(Pick(d, id), Some(start), end);
  }

  ghost predicate StartsInTime(tr: Trace) {
    forall j :: 0 <= j < |tr.index| ==> tr.index[j].start <= FOREVER
  }

  /** The indexed read is the scan: for any trace when an end is given, and without one for traces whose
      blocks start no later than 2^63. */
  lemma {:induction false} IndexedIsScan(tr: Trace, id: nat, start: nat, end: Option<nat>, j: nat, k: nat)
    requires j <= |tr.index| && k <= |tr.file| && IndexedFrom(tr, j, k)
    requires end.None? ==> StartsInTime(tr)
    ensures ReadAll(tr, id, Some(start), end, FindVcBlocks(tr.index, start, if end.Some? then end.value else FOREVER, j))
         == Scan(tr, id, Some(start), end, k)
    decreases |tr.file| - k
  {
    hide FromBlock, Covered;
    if k < |tr.file| {
      if tr.file[k].Foreign? {
        IndexedIsScan(tr, id, start, end, j, k + 1);
        ForeignAddsNothing(tr, id, Some(start), end, Scan(tr, id, Some(start), end, k + 1));
      } else {
        IndexedIsScan(tr, id, start, end, j + 1, k + 1);
        var bound, e := if end.Some? then end.value else FOREVER, tr.index[j];
        var later := FindVcBlocks(tr.index, start, bound, j + 1);
        if e.end >= start && e.start <= bound {
          assert ([k] + later)[0] == k && ([k] + later)[1..] == later;
        } else {
          assert [] + later == later;
          SkippedIsEmpty(tr, e, tr.file[k], id, start, end);
          assert forall more: seq<VcChange> :: [] + more == more;
        }
      }
    }
  }

  lemma ForeignAddsNothing(tr: Trace, id: nat, start: Option<nat>, end: Option<nat>, more: Option<seq<VcChange>>)
    ensures Joined(FromBlock(tr, Foreign, id, start, end), more) == more
  {
    if more.Some? {
      assert [] + more.value == more.value;
    }
  }

  /** Every block decodes, so the scan and every indexed read return. */
  lemma {:induction false} ReadsReturn(tr: Trace, id: nat, start: nat, end: nat, j: nat, k: nat)
    requires j <= |tr.index| && k <= |tr.file| && IndexedFrom(tr, j, k)
    ensures Scan(tr, id, Some(start), None, k).Some?
    ensures ReadAll(tr, id, Some(start), None, FindVcBlocks(tr.index, start, end, j)).Some?
    ensures |ReadAll(tr, id, Some(start), None, FindVcBlocks(tr.index, start, end, j)).value| <= |Scan(tr, id, Some(start), None, k).value|
    decreases |tr.file| - k
  {
    hide DecBlock, Within, Pick;
    if k < |tr.file| {
      if tr.file[k].Foreign? {
        ReadsReturn(tr, id, start, end, j, k + 1);
      } else {
        ReadsReturn(tr, id, start, end, j + 1, k + 1);
        var later := FindVcBlocks(tr.index, start, end, j + 1);
        assert ([k] + later)[0] == k && ([k] + later)[1..] == later && [] + later == later;
      }
    }
  }

  /** A block past 2^63 that holds a wanted change is missed by an indexed read without an end. */
  lemma {:induction false} LateBlockIsMissed(tr: Trace, start: nat, j: nat, k: nat, late: nat, c: VcChange)
    requires j <= late < |tr.index| && k <= |tr.file| && IndexedFrom(tr, j, k)
    requires tr.index[late].start > FOREVER && tr.index[late].at < |tr.file| && c.time >= start
    requires var b := tr.file[tr.index[late].at];
             b.Vc? && var d := DecBlock(tr.codecs, tr.sigs, b.flags, b.payload); d.Ok? && c in d.value.changes
    ensures Scan(tr, c.id, Some(start), None, k).Some?
    ensures ReadAll(tr, c.id, Some(start), None, FindVcBlocks(tr.index, start, FOREVER, j)).Some?
    ensures |ReadAll(tr, c.id, Some(start), None, FindVcBlocks(tr.index, start, FOREVER, j)).value| < |Scan(tr, c.id, Some(start), None, k).value|
    decreases |tr.file| - k
  {
    hide DecBlock, Within, Pick;
    ReadsReturn(tr, c.id, start, FOREVER, j, k);
    if tr.file[k].Foreign? {
      LateBlockIsMissed(tr, start, j, k + 1, late, c);
    } else if j < late {
      LateBlockIsMissed(tr, start, j + 1, k + 1, late, c);
      var later := FindVcBlocks(tr.index, start, FOREVER, j + 1);
      assert ([k] + later)[0] == k && ([k] + later)[1..] == later && [] + later == later;
    } else {
      ReadsReturn(tr, c.id, start, FOREVER, j + 1, k + 1);
      var later := FindVcBlocks(tr.index, start, FOREVER, j + 1);
      assert [] + later == later;
      var d := DecBlock(tr.codecs, tr.sigs, tr.file[k].flags, tr.file[k].payload).value.changes;
      PickFrom(d, c.id);
      WithinSome(Pick(d, c.id), Some(start), None, c);
    }
  }

  /** Some block that starts past 2^63 holds a change of the signal at or after the start of the read. */
  ghost predicate LateChanges(tr: Trace, id: nat, start: nat) {
    exists late, c: VcChange :: 0 <= late < |tr.index| && c.id == id && c.time >= start && LateChange(tr, late, c)
  }

  ghost predicate LateChange(tr: Trace, late: nat, c: VcChange)
    requires late < |tr.index|
  {
    tr.index[late].start > FOREVER && tr.index[late].at < |tr.file| &&
    var b := tr.file[tr.index[late].at];
    b.Vc? && var d := DecBlock(tr.codecs, tr.sigs, b.flags, b.payload); d.Ok? && c in d.value.changes
  }

  /** Without late changes the blocks past the bound add nothing. */
  lemma {:induction false} NothingLate(tr: Trace, id: nat, start: nat, j: nat, k: nat)
    requires j <= |tr.index| && k <= |tr.file| && IndexedFrom(tr, j, k) && !LateChanges(tr, id, start)
    ensures ReadAll(tr, id, Some(start), None, FindVcBlocks(tr.index, start, FOREVER, j)) == Scan(tr, id, Some(start), None, k)
    decreases |tr.file| - k
  {
    hide FromBlock, DecBlock, LateChanges;
    if k < |tr.file| {
      if tr.file[k].Foreign? {
        NothingLate(tr, id, start, j, k + 1);
        ForeignAddsNothing(tr, id, Some(start), None, Scan(tr, id, Some(start), None, k + 1));
      } else {
        NothingLate(tr, id, start, j + 1, k + 1);
        var e := tr.index[j];
        var later := FindVcBlocks(tr.index, start, FOREVER, j + 1);
        if e.end >= start && e.start <= FOREVER {
          assert ([k] + later)[0] == k && ([k] + later)[1..] == later;
        } else {
          assert [] + later == later;
          PassedOver(tr, id, start, j);
          assert forall more: seq<VcChange> :: [] + more == more;
        }
      }
    }
  }

  lemma PassedOver(tr: Trace, id: nat, start: nat, j: nat)
    requires j < |tr.index| && tr.index[j].at < |tr.file| && Covered(tr, tr.index[j], tr.file[tr.index[j].at])
    requires !LateChanges(tr, id, start) && (tr.index[j].end < start || tr.index[j].start > FOREVER)
    ensures FromBlock(tr, tr.file[tr.index[j].at], id, Some(start), None) == Some([])
  {
    hide DecBlock;
    var e, b := tr.index[j], tr.file[tr.index[j].at];
    if e.end < start {
      SkippedIsEmpty(tr, e, b, id, start, None);
    } else {
      var d := DecBlock(tr.codecs, tr.sigs, b.flags, b.payload).value.changes;
      PickFrom(d, id);
      forall c | c in Pick(d, id)
        ensures c.time < start
      {
        assert c.time >= start ==> LateChange(tr, j, c);
      }
      WithinNone(Pick(d, id), Some(start), None);
    }
  }

  /** An indexed read without an end is the scan if and only if no block that starts past 2^63 holds a
      change of the signal at or after its start. */
  lemma OpenEndedExactly(tr: Trace, id: nat, start: nat)
    requires IndexedFrom(tr, 0, 0)
    ensures ReadSignal(tr, true, id, Some(start), None) == Scan(tr, id, Some(start), None, 0) <==> !LateChanges(tr, id, start)
  {
    hide DecBlock, FindVcBlocks, ReadAll, Scan, IndexedFrom;
    if LateChanges(tr, id, start) {
      var late, c: VcChange :| 0 <= late < |tr.index| && c.id == id && c.time >= start && LateChange(tr, late, c);
      LateBlockIsMissed(tr, start, 0, 0, late, c);
    } else {
      NothingLate(tr, id, start, 0, 0);
    }
  }

  // ---- The loops of `read_signal` ----

  lemma PickStep(cs: seq<VcChange>, i: nat, id: nat, start: Option<nat>, end: Option<nat>)
    requires i < |cs|
    ensures Within(Pick(cs[..i + 1], id), start, end) ==
            Within(Pick(cs[..i], id), start, end) + if cs[i].id == id && TimeWanted(cs[i].time, start, end) then [cs[i]] else []
  {
    var head := cs[..i + 1];
    assert head[..i] == cs[..i] && head[i] == cs[i];
    var p := Pick(cs[..i], id);
    if cs[i].id == id {
      assert (p + [cs[i]])[..|p|] == p && (p + [cs[i]])[|p|] == cs[i];
    } else {
      assert p + [] == p;
    }
  }

  /** The changes of one block that a read keeps, added to what it has. */
  method Keep(cs: seq<VcChange>, id: nat, start: Option<nat>, end: Option<nat>, kept: seq<VcChange>) returns (out: seq<VcChange>)
    ensures out == kept + Within(Pick(cs, id), start, end)
  {
    hide Pick, Within;
    out := kept;
    NoneKept(id, start, end);
    for i := 0 to |cs|
      invariant out == kept + Within(Pick(cs[..i], id), start, end)
    {
      PickStep(cs, i, id, start, end);
      if cs[i].id == id {
        if start.None? || cs[i].time >= start.value {
          if end.None? || cs[i].time <= end.value {
            out := out + [cs[i]];
          }
        }
      }
    }
    assert cs[..|cs|] == cs;
  }

  lemma NoneKept(id: nat, start: Option<nat>, end: Option<nat>)
    ensures Within(Pick([], id), start, end) == []
  {
  }

  lemma JoinedAgain(a: seq<VcChange>, b: seq<VcChange>, p: Option<seq<VcChange>>)
    ensures Joined(Some(a), Joined(Some(b), p)) == Joined(Some(a + b), p)
  {
    if p.Some? {
      assert a + (b + p.value) == (a + b) + p.value;
    }
  }

  lemma JoinedNothing(a: seq<VcChange>, p: Option<seq<VcChange>>)
    ensures Joined(Some([]), p) == p && Joined(Some(a), Some([])) == Some(a)
  {
    assert a + [] == a;
    if p.Some? {
      assert [] + p.value == p.value;
    }
  }

  method ScanSignal(tr: Trace, id: nat, start: Option<nat>, end: Option<nat>) returns (r: Option<seq<VcChange>>)
    ensures r == Scan(tr, id, start, end, 0)
  {
    hide DecBlock, Within, Pick, Joined;
    var changes: seq<VcChange> := [];
    JoinedNothing([], Scan(tr, id, start, end, 0));
    for k := 0 to |tr.file|
      invariant Scan(tr, id, start, end, 0) == Joined(Some(changes), Scan(tr, id, start, end, k))
    {
      ghost var later := Scan(tr, id, start, end, k + 1);
      match tr.file[k] {
        case Foreign => JoinedNothing(changes, later);
        case Vc(f, payload) =>
          match DecBlock(tr.codecs, tr.sigs, f, payload) {
            case Fail(_) =>
              NothingJoins(changes, later);
              return None;
            case Ok(d, _) =>
              JoinedAgain(changes, Within(Pick(d.changes, id), start, end), later);
              changes := Keep(d.changes, id, start, end, changes);
          }
      }
    }
    JoinedNothing(changes, None);
    r := Some(changes);
  }

  lemma NothingJoins(a: seq<VcChange>, p: Option<seq<VcChange>>)
    ensures Joined(None, p) == None && Joined(Some(a), None) == None
  {
  }

  method FindBlocks(index: seq<IndexEntry>, start: nat, end: nat) returns (offsets: seq<nat>)
    ensures offsets == FindVcBlocks(index, start, end, 0)
  {
    offsets := [];
    for j := 0 to |index|
      invariant FindVcBlocks(index, start, end, 0) == offsets + FindVcBlocks(index, start, end, j)
    {
      if index[j].end >= start && index[j].start <= end {
        offsets := offsets + [index[j].at];
      }
    }
  }

  method ReadIndexed(tr: Trace, id: nat, start: Option<nat>, end: Option<nat>, offsets: seq<nat>) returns (r: Option<seq<VcChange>>)
    ensures r == ReadAll(tr, id, start, end, offsets)
  {
    hide DecBlock, Within, Pick, Joined;
    var changes: seq<VcChange> := [];
    JoinedNothing([], ReadAll(tr, id, start, end, offsets));
    assert offsets[0..] == offsets;
    for i := 0 to |offsets|
      invariant ReadAll(tr, id, start, end, offsets) == Joined(Some(changes), ReadAll(tr, id, start, end, offsets[i..]))
    {
      Tail(offsets, i);
      ghost var later := ReadAll(tr, id, start, end, offsets[i + 1..]);
      NothingJoins(changes, later);
      if offsets[i] >= |tr.file| {
        return None;
      }
      match tr.file[offsets[i]] {
        case Foreign => JoinedNothing(changes, later);
        case Vc(f, payload) =>
          match DecBlock(tr.codecs, tr.sigs, f, payload) {
            case Fail(_) => return None;
            case Ok(d, _) =>
              JoinedAgain(changes, Within(Pick(d.changes, id), start, end), later);
              changes := Keep(d.changes, id, start, end, changes);
          }
      }
    }
    JoinedNothing(changes, None);
    r := Some(changes);
  }

  method ReadOneSignal(tr: Trace, indexed: bool, id: nat, start: Option<nat>, end: Option<nat>) returns (r: Option<seq<VcChange>>)
    ensures r == ReadSignal(tr, indexed, id, start, end)
  {
    hide Scan, ReadAll, FindVcBlocks;
    if indexed && start.Some? {
      var offsets := FindBlocks(tr.index, start.value, if end.Some? then end.value else FOREVER);
      r := ReadIndexed(tr, id, start, end, offsets);
    } else {
      r := ScanSignal(tr, id, start, end);
    }
  }
}
