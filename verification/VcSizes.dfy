/** How long the wave data of a block can get: a bound that depends on the number of changes and on their
    values, and not on the time table they are coded against. */
module VcSizes {
  import opened Bits
  import opened Bytes
  import opened Varint
  import opened Lists
  import opened VcValues
  import opened VcWave
  import opened VcBlock
  import opened VcStore
  import opened VcPayload

  /** A varint below 2^70 takes at most ten bytes. */
  lemma TenBytes(n: nat)
    requires n < LIMIT
    ensures |EncU(n)| <= 10
  {
    Pow2Values();
    ULength(n, 10);
  }

  /** The bytes of one value, without the varints beside it. */
  function ValueSize(sig: Sig, v: Value): nat {
    ByteCount(sig.width) + FourSize(sig.width) + NineSize(sig.width) + 8 + if v.Text? then |v.utf8| else 0
  }

  lemma EntryWithin(sig: Sig, delta: nat, v: Value)
    requires Storable(sig, v) && (sig.enc == TwoState ==> sig.width <= 1) && delta < WORD
    ensures |EncEntry(sig, delta, v)| <= 30 + ValueSize(sig, v)
  {
    hide EncU, EncBe, Pow2, FourCodes, NineCodes, FourCode;
    assert 8 * delta + 8 < LIMIT;
    TenBytes(delta);
    TenBytes(2 * delta);
    TenBytes(2 * delta + 1);
    match sig.enc
    case TwoState => TenBytes(4 * delta + 2 * (if v.Int? then v.n % 2 else 0) + 1);
    case FourState => TenBytes(8 * delta + 2 * FourCode(v) + 1);
    case Str => TenBytes(|v.utf8|);
    case _ =>
  }

  /** Ten bytes for the count; thirty and the value for each change. */
  function ChangesBound(sig: Sig, cs: seq<Change>): nat {
    if cs == [] then 10 else 30 + ValueSize(sig, cs[0].value) + ChangesBound(sig, cs[1..])
  }

  ghost predicate SameValues(es: seq<Entry>, cs: seq<Change>) {
    |es| == |cs| && forall i :: 0 <= i < |es| ==> es[i].value == cs[i].value
  }

  lemma {:induction false} EntriesWithin(sig: Sig, es: seq<Entry>, next: nat, cs: seq<Change>)
    requires EntriesOk(sig, es) && Climbs(es, next) && (sig.enc == TwoState ==> sig.width <= 1) && SameValues(es, cs)
    ensures |EncEntries(sig, es, next)| + 10 <= ChangesBound(sig, cs)
    decreases |es|
  {
    hide EncEntry, Storable, ValueSize;
    if es != [] {
      assert EntryOk(sig, es[0]);
      EntryWithin(sig, es[0].tidx - next, es[0].value);
      EntriesWithin(sig, es[1..], es[0].tidx + 1, cs[1..]);
    }
  }

  lemma {:induction false} GroupsWithin(gs: seq<Group>)
    requires Maximal(gs) && forall i :: 0 <= i < |gs| ==> GroupOk(gs[i])
    ensures |EncGroups(gs)| <= 30 * |gs|
    decreases |gs|
  {
    hide EncU;
    if gs != [] {
      TenBytes(2 * gs[0].step.delta + 1);
      TenBytes(gs[0].step.xor);
      TenBytes(gs[0].count - 1);
      GroupsWithin(gs[1..]);
    }
  }

  lemma {:induction false} BoundAtLeast(sig: Sig, cs: seq<Change>)
    ensures 10 + 30 * |cs| <= ChangesBound(sig, cs)
    decreases |cs|
  {
    if cs != [] {
      BoundAtLeast(sig, cs[1..]);
    }
  }

  /** Whatever the places in time, a wave stays within the bound of its changes. */
  lemma WaveWithin(sig: Sig, es: seq<Entry>, cs: seq<Change>)
    requires EntriesOk(sig, es) && Climbs(es, 0) && SameValues(es, cs)
    ensures |EncWave(sig, es)| <= ChangesBound(sig, cs)
  {
    hide EncU, EncGroups, Collapse, Expand, Steps, Climbs, Maximal, EncEntries, ChangesBound, GroupOk;
    if Runs(sig) {
      WideIfRuns(sig, es);
      var steps := Steps(es, 0, 0);
      CollapseIsMaximal(steps);
      assert forall i :: 0 <= i < |es| ==> EntryOk(sig, es[i]);
      StepsFit(es, 0, 0);
      GroupsFit(Collapse(steps), steps);
      GroupsWithin(Collapse(steps));
      BoundAtLeast(sig, cs);
      TenBytes(|Collapse(steps)|);
    } else {
      TenBytes(|es|);
      EntriesWithin(sig, es, 0, cs);
    }
  }

  /** The bound for some of a block's variables. */
  function Bulk(b: Block, sigs: SigMap, ids: seq<nat>): nat {
    if ids == [] then 0 else ChangesBound(SigOf(sigs, ids[0]), InOrder(b, ids[0])) + Bulk(b, sigs, ids[1..])
  }

  lemma RawWithin(b: Block, sigs: SigMap, id: nat)
    requires BlockOk(b, sigs) && id in VarIds(b)
    ensures |RawWave(b, sigs, id)| <= ChangesBound(SigOf(sigs, id), InOrder(b, id))
  {
    hide BlockOk, VarIds, EncWave, Times, InOrder, ChangesBound;
    EntriesFine(b, sigs, id);
    RawIsWave(b, sigs, id);
    WaveWithin(SigOf(sigs, id), EntriesOf(b, id), InOrder(b, id));
  }

  /** Storing a wave adds no more than the wave. */
  lemma {:induction false} DataWithin(b: Block, sigs: SigMap, ids: seq<nat>, st: Store)
    requires BlockOk(b, sigs) && forall i :: 0 <= i < |ids| ==> ids[i] in VarIds(b)
    ensures |PutAll(PlainWaves, st, RawWaves(b, sigs, ids)).data| <= |st.data| + Bulk(b, sigs, ids)
    decreases |ids|
  {
    hide BlockOk, VarIds, RawWave, ChangesBound, InOrder;
    if ids != [] {
      RawWithin(b, sigs, ids[0]);
      var raws := RawWaves(b, sigs, ids);
      assert raws[0] == RawWave(b, sigs, ids[0]) && raws[1..] == RawWaves(b, sigs, ids[1..]);
      DataWithin(b, sigs, ids[1..], Put(PlainWaves, st, raws[0]));
    }
  }

  /** Fewer variables come to less. */
  lemma {:induction false} BulkMono(b: Block, sigs: SigMap, some: seq<nat>, all: seq<nat>)
    requires Rising(some) && Rising(all) && forall id :: id in some ==> id in all
    ensures Bulk(b, sigs, some) <= Bulk(b, sigs, all)
    decreases |all|
  {
    hide ChangesBound, InOrder;
    if some != [] {
      assert some[0] in all;
      if some[0] == all[0] {
        forall id | id in some[1..]
          ensures id in all[1..]
        {
          assert id in some && id != all[0];
        }
        BulkMono(b, sigs, some[1..], all[1..]);
      } else {
        forall id | id in some
          ensures id in all[1..]
        {
          var i :| 0 <= i < |some| && some[i] == id;
          FirstIsSmaller(some, all, i);
        }
        BulkMono(b, sigs, some, all[1..]);
      }
    }
  }

  lemma FirstIsSmaller(some: seq<nat>, all: seq<nat>, i: nat)
    requires Rising(some) && Rising(all) && i < |some| && some[0] in all && some[0] != all[0]
    ensures some[i] != all[0]
  {
    var j :| 0 <= j < |all| && all[j] == some[0];
    assert all[0] < all[j] && (i > 0 ==> some[0] < some[i]);
  }

  lemma {:induction false} BulkSame(p: Block, b: Block, sigs: SigMap, ids: seq<nat>)
    requires forall i :: 0 <= i < |ids| ==> ChangesOf(p, ids[i]) == ChangesOf(b, ids[i])
    ensures Bulk(p, sigs, ids) == Bulk(b, sigs, ids)
    decreases |ids|
  {
    hide ChangesBound;
    if ids != [] {
      assert InOrder(p, ids[0]) == InOrder(b, ids[0]);
      BulkSame(p, b, sigs, ids[1..]);
    }
  }
}
