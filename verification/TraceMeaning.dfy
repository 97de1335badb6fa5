/** What the bounds of a read mean, told apart from the functions that scans and indexed reads share. */
module TraceMeaning {
  import opened Bytes
  import opened VcBlock
  import opened VcDataBlocks
  import opened TraceRead

  /** A time within bounds that are both inclusive; a missing one does not bound. */
  ghost predicate Inside(t: nat, start: Option<nat>, end: Option<nat>) {
    match (start, end)
    case (None, None) => true
    case (Some(a), None) => a <= t
    case (None, Some(b)) => t <= b
    case (Some(a), Some(b)) => a <= t <= b
  }

  /** The places of the kept changes: they rise, and are exactly those of the changes asked for. */
  ghost predicate KeptAt(cs: seq<VcChange>, r: seq<VcChange>, at: seq<nat>, wanted: VcChange -> bool) {
    && |at| == |r| && (forall k :: 0 <= k < |at| ==> at[k] < |cs| && r[k] == cs[at[k]] && wanted(r[k]))
    && (forall j, k :: 0 <= j < k < |at| ==> at[j] < at[k])
    && forall i :: 0 <= i < |cs| && wanted(cs[i]) ==> i in at
  }

  lemma KeptSnoc(cs: seq<VcChange>, c: VcChange, r: seq<VcChange>, at: seq<nat>, wanted: VcChange -> bool) returns (at': seq<nat>)
    requires KeptAt(cs, r, at, wanted)
    ensures KeptAt(cs + [c], r + if wanted(c) then [c] else [], at', wanted)
  {
    var all := cs + [c];
    at' := at + if wanted(c) then [|cs|] else [];
    assert r + [] == r;
    forall i | 0 <= i < |all| && wanted(all[i])
      ensures i in at'
    {
      if i < |cs| {
        assert all[i] == cs[i] && i in at;
      } else {
        assert at'[|at|] == |cs|;
      }
    }
  }

  /** What a read keeps of a list: exactly the changes within the bounds, each as often as it is there, in
      their order. */
  lemma {:induction false} WithinMeans(cs: seq<VcChange>, start: Option<nat>, end: Option<nat>) returns (at: seq<nat>)
    ensures KeptAt(cs, Within(cs, start, end), at, (c: VcChange) => Inside(c.time, start, end))
    decreases |cs|
  {
    if cs == [] {
      at := [];
    } else {
      var init, c := cs[..|cs| - 1], cs[|cs| - 1];
      var before := WithinMeans(init, start, end);
      at := KeptSnoc(init, c, Within(init, start, end), before, (x: VcChange) => Inside(x.time, start, end));
      assert init + [c] == cs;
    }
  }

  /** What a read keeps of a block: exactly the signal's own changes. */
  lemma {:induction false} PickMeans(cs: seq<VcChange>, id: nat) returns (at: seq<nat>)
    ensures KeptAt(cs, Pick(cs, id), at, (c: VcChange) => c.id == id)
    decreases |cs|
  {
    if cs == [] {
      at := [];
    } else {
      var init, c := cs[..|cs| - 1], cs[|cs| - 1];
      var before := PickMeans(init, id);
      at := KeptSnoc(init, c, Pick(init, id), before, (x: VcChange) => x.id == id);
      assert init + [c] == cs;
    }
  }

  /** The block's range and the range asked for have a time in common. */
  ghost predicate Shares(e: IndexEntry, start: nat, end: nat) {
    exists t :: Common(t, e, start, end)
  }

  ghost predicate Common(t: nat, e: IndexEntry, start: nat, end: nat) {
    e.start <= t <= e.end && start <= t <= end
  }

  lemma SharesIfOverlap(e: IndexEntry, start: nat, end: nat)
    requires e.start <= e.end && start <= end
    ensures Shares(e, start, end) <==> e.end >= start && e.start <= end
  {
    if e.end >= start && e.start <= end {
      assert Common(if e.start >= start then e.start else start, e, start, end);
    }
  }

  /** The places in the index of the blocks to read: they rise, and are exactly those of the blocks that may
      hold a time asked for. */
  ghost predicate FoundAt(index: seq<IndexEntry>, start: nat, end: nat, j: nat, r: seq<nat>, at: seq<nat>) {
    && |at| == |r| && (forall k :: 0 <= k < |at| ==> j <= at[k] < |index| && index[at[k]].at == r[k])
    && (forall k, l :: 0 <= k < l < |at| ==> at[k] < at[l])
    && forall k :: j <= k < |index| ==> (k in at <==> Shares(index[k], start, end))
  }

  lemma FoundCons(index: seq<IndexEntry>, start: nat, end: nat, j: nat, r: seq<nat>, at: seq<nat>)
    requires j < |index| && FoundAt(index, start, end, j + 1, r, at)
    ensures if Shares(index[j], start, end) then FoundAt(index, start, end, j, [index[j].at] + r, [j] + at)
            else FoundAt(index, start, end, j, r, at)
  {
    hide Shares;
    assert j !in at;
    if Shares(index[j], start, end) {
      var both := [j] + at;
      assert forall k :: k in both <==> k == j || k in at;
    }
  }

  lemma {:induction false} FindsCommonTimes(index: seq<IndexEntry>, start: nat, end: nat, j: nat) returns (at: seq<nat>)
    requires j <= |index| && start <= end && forall k :: 0 <= k < |index| ==> index[k].start <= index[k].end
    ensures FoundAt(index, start, end, j, FindVcBlocks(index, start, end, j), at)
    decreases |index| - j
  {
    hide Shares, FoundAt;
    if j == |index| {
      at := [];
      NoneLeft(index, start, end);
    } else {
      var more := FindsCommonTimes(index, start, end, j + 1);
      SharesIfOverlap(index[j], start, end);
      FoundCons(index, start, end, j, FindVcBlocks(index, start, end, j + 1), more);
      at := if Shares(index[j], start, end) then [j] + more else more;
      assert [] + FindVcBlocks(index, start, end, j + 1) == FindVcBlocks(index, start, end, j + 1);
    }
  }

  lemma NoneLeft(index: seq<IndexEntry>, start: nat, end: nat)
    ensures FoundAt(index, start, end, |index|, [], [])
  {
  }
}
