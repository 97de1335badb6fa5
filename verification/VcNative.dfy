/** The C value-change encoder of `c/src/vc_data.c`: a time table sorted and uniqued in place, time
    places by binary search, and the three-pass XOR and run-length encoder.  It makes the same bytes as
    the Python encoder does in one pass. */
module VcNative {
  import opened Bits
  import opened Bytes
  import opened Varint
  import opened Lists
  import opened VcValues
  import opened VcWave
  import opened VcBlock
  import S = Sorting

  type word = n: nat | n < WORD

  /** A recorded value: a 64-bit word, or bytes of which the first eight count. */
  datatype NativeValue = Word(n: word) | Raw(data: bytes)

  /** A change of a wave, with whatever is recorded as its value. */
  datatype Timed<V> = Timed(time: nat, value: V)

  type NativeChange = Timed<NativeValue>

  // ---- Time places ----

  /** `trl_time_index`: the first place whose time is not below the one asked for. */
  method TimeIndex(times: array<nat>, count: nat, value: nat) returns (lo: nat)
    requires count <= times.Length && Rising(times[..count])
    ensures lo <= count
    ensures forall k :: 0 <= k < lo ==> times[k] < value
    ensures forall k :: lo <= k < count ==> times[k] >= value
  {
    ghost var s := times[..count];
    assert forall i, j :: 0 <= i < j < count ==> s[i] < s[j];
    assert forall i :: 0 <= i < count ==> s[i] == times[i];
    var hi := count;
    lo := 0;
    while lo < hi
      invariant lo <= hi <= count
      invariant forall k :: 0 <= k < lo ==> times[k] < value
      invariant forall k :: hi <= k < count ==> times[k] >= value
    {
      var mid := lo + (hi - lo) / 2;
      if times[mid] < value {
        lo := mid + 1;
      } else {
        hi := mid;
      }
    }
  }

  /** For a time of the table the search finds its place. */
  lemma PlaceFound(s: seq<nat>, value: nat, lo: nat)
    requires Rising(s) && value in TimeToIdx(s) && lo <= |s|
    requires (forall k :: 0 <= k < lo ==> s[k] < value) && forall k :: lo <= k < |s| ==> s[k] >= value
    ensures lo == TimeToIdx(s)[value]
  {
    var at := TimeToIdx(s)[value];
    assert s[at] == value && forall k :: 0 <= k < at ==> s[k] < value;
    if lo < |s| {
      assert s[lo] >= value;
    }
  }

  ghost predicate NonDecreasing(s: seq<nat>) {
    forall i, j :: 0 <= i < j < |s| ==> s[i] <= s[j]
  }

  ghost function Members(s: seq<nat>): set<nat> {
    set x | x in s
  }

  /** The table is compacted in place: each time once. */
  method UniqueInPlace(times: array<nat>) returns (uniq: nat)
    requires NonDecreasing(times[..])
    modifies times
    ensures uniq <= times.Length && times[..uniq] == Ascending(Members(old(times[..])))
  {
    ghost var was := times[..];
    uniq := 0;
    for i := 0 to times.Length
      invariant uniq <= i
      invariant forall k :: i <= k < times.Length ==> times[k] == was[k]
      invariant Rising(times[..uniq]) && Members(times[..uniq]) == Members(was[..i])
      invariant uniq > 0 ==> i > 0 && times[uniq - 1] == was[i - 1]
    {
      ghost var head := times[..uniq];
      assert was[..i + 1] == was[..i] + [was[i]];
      assert times[i] == was[i];
      assert uniq == 0 ==> i == 0 by {
        NothingUnique(head, was[..i]);
      }
      if uniq == 0 || times[i] != times[uniq - 1] {
        UniqueRises(head, was, i);
        times[uniq] := times[i];
        uniq := uniq + 1;
        assert times[..uniq] == head + [was[i]];
      } else {
        assert was[i] == head[uniq - 1] && head[uniq - 1] in head;
        assert times[..uniq] == head;
      }
    }
    assert was[..times.Length] == was;
    AscendingUnique(times[..uniq], Ascending(Members(was)));
  }

  lemma NothingUnique(head: seq<nat>, seen: seq<nat>)
    requires Members(head) == Members(seen)
    ensures head == [] ==> seen == []
  {
    if seen != [] {
      assert seen[0] in Members(seen);
    }
  }

  lemma UniqueRises(head: seq<nat>, was: seq<nat>, i: nat)
    requires NonDecreasing(was) && i < |was| && Rising(head) && Members(head) == Members(was[..i])
    requires head != [] ==> i > 0 && head[|head| - 1] == was[i - 1] != was[i]
    ensures Rising(head + [was[i]])
    ensures Members(head + [was[i]]) == Members(was[..i] + [was[i]])
  {
    MembersSnoc(head, was[i]);
    MembersSnoc(was[..i], was[i]);
    assert head != [] ==> was[i - 1] < was[i];
  }

  lemma MembersSnoc(s: seq<nat>, x: nat)
    ensures Members(s + [x]) == Members(s) + {x}
  {
    assert forall y :: y in s + [x] <==> y in s || y == x;
  }

  function NotAfter(x: nat, y: nat): bool {
    x <= y
  }

  lemma SortedTimes(s: seq<nat>)
    ensures NonDecreasing(S.Sort(s, NotAfter))
  {
    S.SortSorts(s, NotAfter);
    var r := S.Sort(s, NotAfter);
    forall i, j | 0 <= i < j < |r|
      ensures r[i] <= r[j]
    {
      assert NotAfter(r[i], r[j]);
    }
  }

  /** `qsort`: the same elements in ascending order. */
  method SortTimes(a: array<nat>)
    modifies a
    ensures NonDecreasing(a[..]) && multiset(a[..]) == multiset(old(a[..]))
  {
    hide S.Sort;
    var sorted := S.Sort(a[..], NotAfter);
    S.SortKeeps(a[..], NotAfter);
    SortedTimes(a[..]);
    for i := 0 to a.Length
      invariant a[..i] == sorted[..i]
    {
      a[i] := sorted[i];
    }
    assert a[..] == sorted;
  }

  lemma SameMultiset(a: seq<nat>, b: seq<nat>)
    requires multiset(a) == multiset(b)
    ensures Members(a) == Members(b)
  {
    assert forall x :: x in a <==> x in multiset(a);
    assert forall x :: x in b <==> x in multiset(b);
  }

  /** All change times, gathered, sorted and uniqued: the same table as the Python encoder's. */
  method TimeTable(all: seq<nat>) returns (times: array<nat>, uniq: nat)
    ensures fresh(times) && uniq <= times.Length && times[..uniq] == Ascending(Members(all))
  {
    times := new nat[|all|];
    for i := 0 to |all|
      invariant forall k :: 0 <= k < i ==> times[k] == all[k]
    {
      times[i] := all[i];
    }
    assert times[..] == all;
    SortTimes(times);
    SameMultiset(times[..], all);
    uniq := UniqueInPlace(times);
  }

  // ---- Values ----

  /** The number that was recorded. */
  function Full(v: NativeValue): nat {
    match v
    case Word(n) => n
    case Raw(data) => BeValue(data)
  }

  /** `trl_chg_to_u64`: of more than eight bytes the first eight. */
  function ToWord(v: NativeValue): nat {
    match v
    case Word(n) => n
    case Raw(data) => BeValue(if |data| <= 8 then data else data[..8])
  }

  lemma {:induction false} BeBound(s: bytes)
    ensures BeValue(s) < Pow2(8 * |s|)
    decreases |s|
  {
    if s != [] {
      BeBound(s[..|s| - 1]);
      Pow2Add(8, 8 * (|s| - 1));
      assert Pow2(8) == 256;
    }
  }

  lemma WordBound(v: NativeValue)
    ensures ToWord(v) < WORD
  {
    if v.Raw? {
      var d := if |v.data| <= 8 then v.data else v.data[..8];
      BeBound(d);
      Pow2Mono(8 * |d|, 64);
      Pow2Values();
    }
  }

  /** `v = (v << 8) | d[k]` over the first eight bytes. */
  method ReadWord(v: NativeValue) returns (n: nat)
    ensures n == ToWord(v)
  {
    hide Or, Shl;
    match v {
      case Word(w) => n := w;
      case Raw(data) =>
        n := 0;
        var size := if |data| < 8 then |data| else 8;
        for k := 0 to size
          invariant n == BeValue(data[..k])
        {
          assert data[..k + 1][..k] == data[..k];
          n := 256 * n + data[k];
        }
        assert data[..size] == if |data| <= 8 then data else data[..8];
    }
  }

  lemma {:induction false} FirstEight(data: bytes)
    requires |data| >= 8
    ensures BeValue(data) >= BeValue(data[..8])
    ensures |data| > 8 ==> BeValue(data) >= 256 * BeValue(data[..8])
    decreases |data|
  {
    if |data| == 8 {
      assert data[..8] == data;
    } else {
      var init := data[..|data| - 1];
      assert init[..8] == data[..8];
      FirstEight(init);
    }
  }

  /** The register holds the recorded number. */
  predicate WordExact(v: NativeValue) {
    v.Word? || |v.data| <= 8 || BeValue(v.data) == 0
  }

  /** It does exactly for values of at most eight bytes, and for zero. */
  lemma WordIsFull(v: NativeValue)
    ensures ToWord(v) <= Full(v) && (ToWord(v) == Full(v) <==> WordExact(v))
  {
    hide BeValue;
    if v.Raw? && |v.data| > 8 {
      FirstEight(v.data);
    }
  }

  /** What the encoder's registers hold. */
  function WordChange(c: NativeChange): Change {
    Change(c.time, Int(ToWord(c.value)))
  }

  function WordChanges(items: seq<NativeChange>): (cs: seq<Change>)
    ensures |cs| == |items| && forall i :: 0 <= i < |cs| ==> cs[i] == WordChange(items[i])
  {
    seq(|items|, i requires 0 <= i < |items| => WordChange(items[i]))
  }

  /** What the Python block holds for the same recording. */
  function PyChange(c: NativeChange): Change {
    Change(c.time, Int(Full(c.value)))
  }

  function PyChanges(items: seq<NativeChange>): (cs: seq<Change>)
    ensures |cs| == |items| && forall i :: 0 <= i < |cs| ==> cs[i] == PyChange(items[i])
  {
    seq(|items|, i requires 0 <= i < |items| => PyChange(items[i]))
  }

  /** Sorted, with every time in the table: what `trl_vc_block_encode` hands on after its `qsort`. */
  ghost predicate ItemsOk<V>(items: seq<Timed<V>>, times: seq<nat>) {
    Rising(times) && |times| < HALF && |items| < WORD &&
    (forall i :: 0 <= i < |items| ==> items[i].time in times) &&
    forall i, j :: 0 <= i < j < |items| ==> items[i].time <= items[j].time
  }

  /** No two changes at one time. */
  ghost predicate Strict<V>(items: seq<Timed<V>>) {
    forall i, j :: 0 <= i < j < |items| ==> items[i].time != items[j].time
  }

  /** Each place is at or behind the one before it. */
  ghost predicate Rises(es: seq<Entry>, next: nat) {
    es == [] || (es[0].tidx + 1 >= next && Rises(es[1..], es[0].tidx + 1))
  }

  ghost function EntriesFrom(items: seq<NativeChange>, times: seq<nat>): (es: seq<Entry>)
    requires ItemsOk(items, times)
    ensures |es| == |items| && Wide(es) && Rises(es, 0) && (Strict(items) <==> Climbs(es, 0))
    ensures forall i :: 0 <= i < |es| ==> items[i].time in TimeToIdx(times) && es[i].tidx < |times|
    ensures forall i :: 0 <= i < |es| ==> es[i] == Entry(TimeToIdx(times)[items[i].time], Int(ToWord(items[i].value)))
    ensures forall i :: 0 <= i < |es| ==> times[es[i].tidx] == items[i].time
  {
    ItemsPlaced(items, times);
    var es := Places(WordChanges(items), TimeToIdx(times));
    ItemsClimb(items, times, es);
    es
  }

  lemma ItemsPlaced(items: seq<NativeChange>, times: seq<nat>)
    requires ItemsOk(items, times)
    ensures Placed(WordChanges(items), TimeToIdx(times))
  {
    forall i | 0 <= i < |items|
      ensures WordChanges(items)[i].time in TimeToIdx(times)
    {
      var k :| 0 <= k < |times| && times[k] == items[i].time;
    }
  }

  lemma ItemsClimb(items: seq<NativeChange>, times: seq<nat>, es: seq<Entry>)
    requires ItemsOk(items, times) && Placed(WordChanges(items), TimeToIdx(times)) && es == Places(WordChanges(items), TimeToIdx(times))
    ensures Wide(es) && Rises(es, 0) && (Strict(items) <==> Climbs(es, 0))
  {
    hide ToWord;
    forall i, j | 0 <= i < j < |es|
      ensures es[i].tidx <= es[j].tidx && (es[i].tidx == es[j].tidx <==> items[i].time == items[j].time)
    {
      assert times[es[i].tidx] == items[i].time && times[es[j].tidx] == items[j].time;
    }
    RisesIfSorted(es, 0);
    if Strict(items) {
      ClimbsIfRising(es, 0);
    }
    if Climbs(es, 0) {
      RisingIfClimbs(es, 0);
    }
    forall i | 0 <= i < |es|
      ensures es[i].value.Int? && 0 <= es[i].value.n < LIMIT
    {
      WordBound(items[i].value);
    }
  }

  lemma {:induction false} RisesIfSorted(es: seq<Entry>, next: nat)
    requires (forall i, j :: 0 <= i < j < |es| ==> es[i].tidx <= es[j].tidx) && (es != [] ==> es[0].tidx + 1 >= next)
    ensures Rises(es, next)
    decreases |es|
  {
    if es != [] {
      RisesIfSorted(es[1..], es[0].tidx + 1);
    }
  }

  // ---- Runs ----

  /** A run and what comes after it. */
  lemma {:induction false} CollapseRun(run: Step, more: nat, rest: seq<Step>, count: nat)
    requires rest == [] || rest[0] != run
    ensures CollapseFrom(Repeat(run, more) + rest, run, count) == [Group(run, count + more)] + Collapse(rest)
    decreases more
  {
    var all := Repeat(run, more) + rest;
    if more > 0 {
      assert all[0] == run && all[1..] == Repeat(run, more - 1) + rest;
      CollapseRun(run, more - 1, rest, count + 1);
    } else {
      assert all == rest;
      assert [Group(run, count)] + [] == [Group(run, count)];
    }
  }

  /** The groups from a place on: first the run that starts there. */
  lemma RunSplits(steps: seq<Step>, i: nat, j: nat)
    requires i < j <= |steps| && (forall k :: i <= k < j ==> steps[k] == steps[i])
    requires j == |steps| || steps[j] != steps[i]
    ensures Collapse(steps[i..]) == [Group(steps[i], j - i)] + Collapse(steps[j..])
  {
    var run, more := steps[i], j - i - 1;
    assert steps[i..][1..] == Repeat(run, more) + steps[j..];
    CollapseRun(run, more, steps[j..], 1);
  }

  /** The distance in a 64-bit register.  A place that is the last one again gives minus one, all ones. */
  function WordDelta(tidx: nat, next: nat): word {
    Wrap(tidx - next)
  }

  /** What is left of a distance when the header shifts it: `(tdelta << 1) | 1` loses the top bit. */
  function Shifted(tdelta: nat): nat {
    tdelta % HALF
  }

  /** The steps a reader gets to see. */
  ghost function WordSteps(es: seq<Entry>, next: nat, prev: nat): (r: seq<Step>)
    requires Wide(es)
    ensures |r| == |es| && forall k :: 0 <= k < |r| ==> r[k].delta < HALF
  {
    if es == [] then []
    else
      [Step(Shifted(WordDelta(es[0].tidx, next)), XorNat(es[0].value.n, prev))] + WordSteps(es[1..], es[0].tidx + 1, es[0].value.n)
  }

  /** Where every place lies behind the last one, these are the Python encoder's steps. */
  lemma {:induction false} SameSteps(es: seq<Entry>, next: nat, prev: nat)
    requires Wide(es) && Climbs(es, next) && forall i :: 0 <= i < |es| ==> es[i].tidx < HALF
    ensures WordSteps(es, next, prev) == Steps(es, next, prev)
    decreases |es|
  {
    hide XorNat;
    if es != [] {
      SameSteps(es[1..], es[0].tidx + 1, es[0].value.n);
    }
  }

  ghost function NativeRuns(es: seq<Entry>): bytes
    requires Wide(es)
  {
    var gs := Collapse(WordSteps(es, 0, 0));
    CollapseIsMaximal(WordSteps(es, 0, 0));
    EncU(|gs|) + EncGroups(gs)
  }

  /** The words that distances within a table can be. */
  predicate DeltaWord(tdelta: nat) {
    tdelta < HALF - 1 || tdelta == WORD - 1
  }

  /** The two delta arrays hold these steps. */
  ghost predicate Holds(tdeltas: array<word>, xdeltas: array<word>, steps: seq<Step>)
    reads tdeltas, xdeltas
  {
    tdeltas.Length == xdeltas.Length == |steps| && HoldsUpTo(tdeltas, xdeltas, steps)
  }

  /** The inner loop of passes two and three. */
  method RunEnd(tdeltas: array<word>, xdeltas: array<word>, i: nat, ghost steps: seq<Step>) returns (j: nat)
    requires Holds(tdeltas, xdeltas, steps) && i < |steps|
    ensures i < j <= |steps| && Collapse(steps[i..]) == [Group(steps[i], j - i)] + Collapse(steps[j..])
  {
    hide Collapse, DeltaWord, Shifted;
    j := i + 1;
    while j < tdeltas.Length && tdeltas[j] == tdeltas[i] && xdeltas[j] == xdeltas[i]
      invariant i < j <= |steps| && forall k :: i <= k < j ==> steps[k] == steps[i]
    {
      j := j + 1;
    }
    assert j < |steps| && Shifted(tdeltas[j]) == Shifted(tdeltas[i]) ==> tdeltas[j] == tdeltas[i] by {
      if j < |steps| && Shifted(tdeltas[j]) == Shifted(tdeltas[i]) {
        SameShift(tdeltas[j], tdeltas[i]);
      }
    }
    RunSplits(steps, i, j);
  }

  lemma SameShift(a: nat, b: nat)
    requires DeltaWord(a) && DeltaWord(b) && Shifted(a) == Shifted(b)
    ensures a == b
  {
  }

  /** The delta arrays hold these steps so far. */
  ghost predicate HoldsUpTo(tdeltas: array<word>, xdeltas: array<word>, done: seq<Step>)
    reads tdeltas, xdeltas
  {
    |done| <= tdeltas.Length == xdeltas.Length &&
    forall k :: 0 <= k < |done| ==> DeltaWord(tdeltas[k]) && done[k] == Step(Shifted(tdeltas[k]), xdeltas[k])
  }

  /** One change of pass 1. */
  method DeltaOf(items: seq<NativeChange>, times: array<nat>, count: nat, i: nat, prevTidx: int, prevVal: word)
    returns (tdelta: word, xdelta: word, tidx: nat, curr: word)
    requires count <= times.Length && ItemsOk(items, times[..count]) && i < |items| && -1 <= prevTidx < count
    requires Rises(EntriesFrom(items, times[..count])[i..], prevTidx + 1)
    ensures tidx < count && DeltaWord(tdelta)
    ensures var es := EntriesFrom(items, times[..count]);
            Wide(es[i..]) && Wide(es[i + 1..]) && Rises(es[i + 1..], tidx + 1) &&
            WordSteps(es[i..], prevTidx + 1, prevVal)
              == [Step(Shifted(tdelta), xdelta)] + WordSteps(es[i + 1..], tidx + 1, curr)
  {
    hide ToWord, Xor, Rises, WordSteps, WordDelta, DeltaWord, Shifted, Climbs;
    ghost var es := EntriesFrom(items, times[..count]);
    Tail(es, i);
    tidx := TimeIndex(times, count, items[i].time);
    PlaceFound(times[..count], items[i].time, tidx);
    WordBound(items[i].value);
    curr := ReadWord(items[i].value);
    assert es[i..][0] == Entry(tidx, Int(curr));
    StepOnce(es[i..], prevTidx + 1, prevVal);
    DeltaFits(tidx, prevTidx + 1, count);
    tdelta := WordDelta(tidx, prevTidx + 1);
    xdelta := XorNat(curr, prevVal);
  }

  lemma DeltaFits(tidx: nat, next: nat, count: nat)
    requires next <= tidx + 1 && tidx < count < HALF
    ensures DeltaWord(WordDelta(tidx, next))
  {
  }

  /** Pass 1: distances and flipped bits, in 64-bit words. */
  method Deltas(items: seq<NativeChange>, times: array<nat>, count: nat)
    returns (tdeltas: array<word>, xdeltas: array<word>)
    requires count <= times.Length && ItemsOk(items, times[..count])
    ensures fresh(tdeltas) && fresh(xdeltas) && Holds(tdeltas, xdeltas, WordSteps(EntriesFrom(items, times[..count]), 0, 0))
  {
    hide ToWord, Xor, Rises, Wide, ItemsOk, EntriesFrom, WordSteps, DeltaWord, Shifted;
    ghost var es := EntriesFrom(items, times[..count]);
    tdeltas := new word[|items|];
    xdeltas := new word[|items|];
    var prevTidx: int, prevVal: word := -1, 0;
    ghost var done: seq<Step> := [];
    assert es[0..] == es;
    for i := 0 to |items|
      invariant |done| == i && HoldsUpTo(tdeltas, xdeltas, done)
      invariant -1 <= prevTidx < count && Wide(es[i..]) && Rises(es[i..], prevTidx + 1)
      invariant WordSteps(es, 0, 0) == done + WordSteps(es[i..], prevTidx + 1, prevVal)
    {
      var tdelta, xdelta, tidx, curr := DeltaOf(items, times, count, i, prevTidx, prevVal);
      assert (done + [Step(Shifted(tdelta), xdelta)]) + WordSteps(es[i + 1..], tidx + 1, curr)
          == done + ([Step(Shifted(tdelta), xdelta)] + WordSteps(es[i + 1..], tidx + 1, curr));
      tdeltas[i] := tdelta;
      xdeltas[i] := xdelta;
      done := done + [Step(Shifted(tdelta), xdelta)];
      prevTidx, prevVal := tidx, curr;
    }
    assert es[|items|..] == [];
    NoSteps(prevTidx + 1, prevVal);
    assert done == WordSteps(es, 0, 0);
  }

  lemma NoSteps(next: nat, prev: nat)
    ensures Wide([]) && WordSteps([], next, prev) == []
  {
  }

  lemma StepOnce(es: seq<Entry>, next: nat, prev: nat)
    requires es != [] && Wide(es) && Rises(es, next) && prev < WORD && es[0].value.n < WORD
    ensures es[0].tidx + 1 >= next && Wide(es[1..]) && Rises(es[1..], es[0].tidx + 1)
    ensures WordSteps(es, next, prev) ==
            [Step(Shifted(WordDelta(es[0].tidx, next)), XorNat(es[0].value.n, prev))] + WordSteps(es[1..], es[0].tidx + 1, es[0].value.n)
    ensures XorNat(es[0].value.n, prev) < WORD
  {
    hide Xor, Pow2;
    Pow2Values();
    XorBound(es[0].value.n, prev, 64);
  }

  /** Pass 2: how many groups there are. */
  method CountGroups(tdeltas: array<word>, xdeltas: array<word>, ghost steps: seq<Step>) returns (n: nat)
    requires Holds(tdeltas, xdeltas, steps)
    ensures n == |Collapse(steps)|
  {
    hide Collapse;
    var i := 0;
    n := 0;
    assert steps[0..] == steps;
    while i < tdeltas.Length
      invariant i <= |steps| && |Collapse(steps)| == n + |Collapse(steps[i..])|
    {
      var j := RunEnd(tdeltas, xdeltas, i, steps);
      n := n + 1;
      i := j;
    }
    NoGroups(steps[i..]);
  }

  lemma NoGroups(steps: seq<Step>)
    requires steps == []
    ensures Collapse(steps) == [] && Maximal(Collapse(steps)) && EncGroups(Collapse(steps)) == []
  {
  }

  /** Pass 3: the groups again, written out. */
  method EmitGroups(dst: bytes, tdeltas: array<word>, xdeltas: array<word>, ghost steps: seq<Step>) returns (out: bytes)
    requires Holds(tdeltas, xdeltas, steps) && |steps| < WORD
    ensures Maximal(Collapse(steps)) && out == dst + EncGroups(Collapse(steps))
  {
    hide Collapse, EncU, EncGroups, Maximal;
    var i := 0;
    out := dst;
    assert steps[0..] == steps;
    CollapseIsMaximal(steps);
    while i < tdeltas.Length
      invariant i <= |steps| && Maximal(Collapse(steps[i..]))
      invariant dst + EncGroups(Collapse(steps)) == out + EncGroups(Collapse(steps[i..]))
    {
      var j := RunEnd(tdeltas, xdeltas, i, steps);
      ghost var g, more := Group(steps[i], j - i), Collapse(steps[j..]);
      CollapseIsMaximal(steps[j..]);
      GroupFirst(g, more);
      ghost var before := out;
      var tdelta: nat := tdeltas[i];
      assert Wrap(2 * tdelta) == 2 * Shifted(tdelta);
      out := BufAppendUvarint(out, Wrap(2 * tdelta) + 1);
      out := BufAppendUvarint(out, xdeltas[i]);
      out := BufAppendUvarint(out, j - i - 1);
      assert out == before + EncGroup(g);
      assert (before + EncGroup(g)) + EncGroups(more) == before + (EncGroup(g) + EncGroups(more));
      i := j;
    }
    NoGroups(steps[i..]);
  }

  lemma GroupFirst(g: Group, more: seq<Group>)
    requires Maximal([g] + more) && Maximal(more)
    ensures g.count >= 1 && EncGroups([g] + more) == EncGroup(g) + EncGroups(more)
  {
    assert ([g] + more)[0] == g && ([g] + more)[1..] == more;
  }

  /** The three passes write the maximal runs of the steps, also when changes share a time. */
  method EncodeWaveXorRle(dst: bytes, items: seq<NativeChange>, times: array<nat>, count: nat) returns (out: bytes)
    requires count <= times.Length && ItemsOk(items, times[..count])
    ensures out == dst + NativeRuns(EntriesFrom(items, times[..count]))
  {
    hide Collapse, EncU, EncGroups, Maximal, WordSteps, Wide;
    ghost var es := EntriesFrom(items, times[..count]);
    ghost var steps := WordSteps(es, 0, 0);
    if items == [] {
      out := BufAppendUvarint(dst, 0);
      NoRuns(es);
      return;
    }
    var tdeltas, xdeltas := Deltas(items, times, count);
    var groups := CountGroups(tdeltas, xdeltas, steps);
    CollapseIsMaximal(steps);
    out := BufAppendUvarint(dst, groups);
    var head := out;
    out := EmitGroups(head, tdeltas, xdeltas, steps);
    assert (dst + EncU(groups)) + EncGroups(Collapse(steps)) == dst + (EncU(groups) + EncGroups(Collapse(steps)));
  }

  lemma NoRuns(es: seq<Entry>)
    requires es == [] && Wide(es)
    ensures NativeRuns(es) == EncU(0)
  {
    assert EncU(0) + [] == EncU(0);
  }

  /** The entries of the Python encoder. */
  ghost function PyEntries(items: seq<NativeChange>, times: seq<nat>): (es: seq<Entry>)
    requires ItemsOk(items, times)
    ensures |es| == |items| == |EntriesFrom(items, times)|
    ensures forall i :: 0 <= i < |es| ==> es[i] == Entry(EntriesFrom(items, times)[i].tidx, Int(Full(items[i].value)))
  {
    ItemsPlaced(items, times);
    assert forall i :: 0 <= i < |items| ==> PyChanges(items)[i].time == WordChanges(items)[i].time;
    Places(PyChanges(items), TimeToIdx(times))
  }

  /** When all times differ, the Python encoder makes the same bytes for a two-state signal of any width
      above one if and only if every value fits the native encoder's register. */
  lemma SameBytesAsPython(items: seq<NativeChange>, times: seq<nat>, width: nat)
    requires ItemsOk(items, times) && Strict(items) && width > 1
    requires forall i :: 0 <= i < |items| ==> Full(items[i].value) < LIMIT
    ensures var py := PyEntries(items, times);
            var sig := Sig(TwoState, width);
            EntriesOk(sig, py) && Climbs(py, 0) &&
            (EncWave(sig, py) == NativeRuns(EntriesFrom(items, times)) <==> forall i :: 0 <= i < |items| ==> WordExact(items[i].value))
  {
    hide ToWord, Full, WordExact, Climbs, EncWave, NativeRuns, EntriesOk, EntryOk, TimeToIdx;
    var es, py, sig := EntriesFrom(items, times), PyEntries(items, times), Sig(TwoState, width);
    WordsFine(items, times, width);
    SamePlaces(es, py, 0);
    assert EntriesOk(sig, py) by {
      FullFine(items, times, width);
    }
    forall i | 0 <= i < |items|
      ensures es[i] == py[i] <==> WordExact(items[i].value)
    {
      WordIsFull(items[i].value);
    }
    if EncWave(sig, py) == EncWave(sig, es) {
      WaveRoundTrip(sig, py, []);
      WaveRoundTrip(sig, es, []);
      RunsSeen(sig, py);
      RunsSeen(sig, es);
    }
    if forall i :: 0 <= i < |items| ==> WordExact(items[i].value) {
      assert es == py;
    }
  }

  lemma {:induction false} SamePlaces(a: seq<Entry>, b: seq<Entry>, next: nat)
    requires |a| == |b| && Climbs(a, next) && forall i :: 0 <= i < |a| ==> a[i].tidx == b[i].tidx
    ensures Climbs(b, next)
    decreases |a|
  {
    if a != [] {
      SamePlaces(a[1..], b[1..], a[0].tidx + 1);
    }
  }

  lemma FullFine(items: seq<NativeChange>, times: seq<nat>, width: nat)
    requires ItemsOk(items, times) && width > 1 && forall i :: 0 <= i < |items| ==> Full(items[i].value) < LIMIT
    ensures EntriesOk(Sig(TwoState, width), PyEntries(items, times))
  {
    hide Full, Climbs, Rises, Wide;
  }

  lemma WordsFine(items: seq<NativeChange>, times: seq<nat>, width: nat)
    requires ItemsOk(items, times) && Strict(items) && width > 1
    ensures var es := EntriesFrom(items, times);
            var sig := Sig(TwoState, width);
            EntriesOk(sig, es) && EncWave(sig, es) == NativeRuns(es)
  {
    hide ToWord, Climbs, Wide, Steps, WordSteps, Collapse, EncGroups, Rises, Maximal;
    var es := EntriesFrom(items, times);
    forall i | 0 <= i < |es|
      ensures EntryOk(Sig(TwoState, width), es[i])
    {
      WordBound(items[i].value);
    }
    SameSteps(es, 0, 0);
  }

  // ---- Reading groups back ----

  /** A change as the callback gets it: the value's low bytes, highest first. */
  datatype Emitted = Emitted(time: nat, value: bytes)

  datatype RunOut = RunOut(out: seq<Emitted>, next: nat, prev: nat, ok: bool)

  /** The value bytes a callback gets for a signal of some width in bits: never more than eight. */
  function ValueBytes(width: nat): nat {
    if ByteCount(width) > 8 then 8 else ByteCount(width)
  }

  /** One group's repetitions; a place outside the time table is an error. */
  function EmitRun(k: nat, step: Step, next: nat, prev: nat, times: seq<nat>, width: nat): RunOut {
    if k == 0 then RunOut([], next, prev, true)
    else
      var tidx := Wrap(next + step.delta);
      if tidx >= |times| then RunOut([], next, prev, false)
      else
        var v := XorNat(prev, step.xor);
        var more := EmitRun(k - 1, step, tidx + 1, v, times, width);
        more.(out := [Emitted(times[tidx], EncBe(ValueBytes(width), v))] + more.out)
  }

  /** The group loop of `trl_vc_iter_payload`, with varints cut to 64 bits; changes before an error have
      been emitted. */
  function EmitAll(n: nat, s: bytes, next: nat, prev: nat, times: seq<nat>, width: nat): (seq<Emitted>, bool) {
    if n == 0 then ([], true)
    else
      match DecGroup64(s)
      case Fail(_) => ([], false)
      case Ok(g, rest) =>
        var run := EmitRun(g.count, g.step, next, prev, times, width);
        if !run.ok then (run.out, false) else After(run.out, EmitAll(n - 1, rest, run.next, run.prev, times, width))
  }

  /** What has been emitted, in front of what the rest emits. */
  function After(out: seq<Emitted>, later: (seq<Emitted>, bool)): (seq<Emitted>, bool) {
    (out + later.0, later.1)
  }

  function DecGroup64(s: bytes): (r: Parse<Group>)
    ensures r.Ok? ==> 1 <= r.value.count <= WORD && r.value.step.delta < HALF && r.value.step.xor < WORD
  {
    var (header, s1) :- DecU(s);
    var (xor, s2) :- DecU(s1);
    var (more, rest) :- DecU(s2);
    Ok(Group(Step(Wrap(header) / 2, Wrap(xor)), Wrap(more) + 1), rest)
  }

  function EmittedOf(es: seq<Entry>, times: seq<nat>, width: nat): (out: seq<Emitted>)
    requires InTable(es, times)
    ensures |out| == |es| && forall i :: 0 <= i < |out| ==> out[i] == EmittedAt(es, times, width, i)
  {
    seq(|es|, i requires 0 <= i < |es| => EmittedAt(es, times, width, i))
  }

  function EmittedAt(es: seq<Entry>, times: seq<nat>, width: nat, i: nat): Emitted
    requires InTable(es, times) && i < |es|
  {
    Emitted(times[es[i].tidx], EncBe(ValueBytes(width), es[i].value.n))
  }

  predicate InTable(es: seq<Entry>, times: seq<nat>) {
    forall i :: 0 <= i < |es| ==> es[i].tidx < |times| && es[i].value.Int? && es[i].value.n >= 0
  }

  lemma {:induction false} RunEmits(k: nat, step: Step, next: nat, prev: nat, times: seq<nat>, width: nat)
    requires InTable(Replay(Repeat(step, k), next, prev), times) && |times| < HALF && next < WORD && step.delta < HALF
    ensures EmitRun(k, step, next, prev, times, width) ==
            RunOut(EmittedOf(Replay(Repeat(step, k), next, prev), times, width),
                   NextAfter(Repeat(step, k), next), ValueAfter(Repeat(step, k), prev), true)
    decreases k
  {
    hide XorNat, EncBe;
    if k > 0 {
      var steps := Repeat(step, k);
      assert steps[0] == step && steps[1..] == Repeat(step, k - 1);
      var tidx, v := next + step.delta, XorNat(prev, step.xor);
      var es := Replay(steps, next, prev);
      assert es[0] == Entry(tidx, Int(v)) && es[1..] == Replay(Repeat(step, k - 1), tidx + 1, v);
      assert Wrap(tidx) == tidx;
      TableTail(es, times, width);
      RunEmits(k - 1, step, tidx + 1, v, times, width);
    }
  }

  lemma TableTail(es: seq<Entry>, times: seq<nat>, width: nat)
    requires InTable(es, times) && es != []
    ensures InTable(es[1..], times)
    ensures EmittedOf(es, times, width) == [EmittedAt(es, times, width, 0)] + EmittedOf(es[1..], times, width)
  {
    hide EncBe;
  }

  lemma TableSplit(a: seq<Entry>, b: seq<Entry>, times: seq<nat>, width: nat)
    requires InTable(a + b, times)
    ensures InTable(a, times) && InTable(b, times)
    ensures EmittedOf(a + b, times, width) == EmittedOf(a, times, width) + EmittedOf(b, times, width)
  {
    hide EncBe;
    assert forall i :: 0 <= i < |a| ==> (a + b)[i] == a[i];
    assert forall i :: 0 <= i < |b| ==> (a + b)[|a| + i] == b[i];
  }

  ghost predicate Group64(g: Group) {
    g.step.delta < HALF && g.step.xor < WORD && 1 <= g.count < WORD
  }

  lemma GroupReads64(g: Group, t: bytes)
    requires Group64(g)
    ensures DecGroup64(EncGroup(g) + t) == Ok(g, t)
  {
    hide EncU, DecU;
    var a, b, c := EncU(2 * g.step.delta + 1), EncU(g.step.xor), EncU(g.count - 1);
    assert EncGroup(g) + t == a + (b + (c + t));
    URoundTrip(2 * g.step.delta + 1, b + (c + t));
    URoundTrip(g.step.xor, c + t);
    URoundTrip(g.count - 1, t);
  }

  /** Steps taken within a table end within it. */
  lemma {:induction false} NextInTable(steps: seq<Step>, next: nat, prev: nat, times: seq<nat>)
    requires InTable(Replay(steps, next, prev), times) && next < WORD && |times| < HALF
    ensures NextAfter(steps, next) < WORD
    decreases |steps|
  {
    hide XorNat;
    if steps != [] {
      var es := Replay(steps, next, prev);
      assert es[0].tidx == next + steps[0].delta && es[0].tidx < |times|;
      TableTail(es, times, 0);
      NextInTable(steps[1..], next + steps[0].delta + 1, XorNat(prev, steps[0].xor), times);
    }
  }

  /** Groups that stay within the table are emitted, and the reader goes on behind them. */
  lemma {:induction false} GroupsEmit(gs: seq<Group>, n: nat, next: nat, prev: nat, t: bytes, times: seq<nat>, width: nat)
    requires Maximal(gs) && (forall i :: 0 <= i < |gs| ==> Group64(gs[i])) && next < WORD && |times| < HALF
    requires InTable(Replay(Expand(gs), next, prev), times)
    ensures EmitAll(|gs| + n, EncGroups(gs) + t, next, prev, times, width)
         == After(EmittedOf(Replay(Expand(gs), next, prev), times, width),
                  EmitAll(n, t, NextAfter(Expand(gs), next), ValueAfter(Expand(gs), prev), times, width))
    decreases |gs|
  {
    hide EncGroup, DecGroup64, Replay, NextAfter, ValueAfter, Repeat, EmitRun, EmittedOf, InTable, Group64, After;
    if gs == [] {
      ReplayNothing(next, prev);
      NothingEmitted(times, width);
      NothingAfter(next, prev);
      assert EncGroups(gs) + t == t;
      AfterTwice([], [], EmitAll(n, t, next, prev, times, width));
    } else {
      assert Group64(gs[0]);
      var a, b, run := EncGroup(gs[0]), EncGroups(gs[1..]), Repeat(gs[0].step, gs[0].count);
      assert EncGroups(gs) + t == a + (b + t);
      GroupReads64(gs[0], b + t);
      ReplayAppend(run, Expand(gs[1..]), next, prev);
      AfterAppend(run, Expand(gs[1..]), next, prev);
      var more := Replay(Expand(gs[1..]), NextAfter(run, next), ValueAfter(run, prev));
      TableSplit(Replay(run, next, prev), more, times, width);
      DeltaShort(gs[0]);
      RunEmits(gs[0].count, gs[0].step, next, prev, times, width);
      NextInTable(run, next, prev, times);
      GroupsEmit(gs[1..], n, NextAfter(run, next), ValueAfter(run, prev), t, times, width);
      AfterTwice(EmittedOf(Replay(run, next, prev), times, width), EmittedOf(more, times, width),
                 EmitAll(n, t, NextAfter(Expand(gs), next), ValueAfter(Expand(gs), prev), times, width));
    }
  }

  lemma NothingAfter(next: nat, prev: nat)
    ensures NextAfter([], next) == next && ValueAfter([], prev) == prev
  {
  }

  lemma {:induction false} AfterAppend(a: seq<Step>, b: seq<Step>, next: nat, prev: nat)
    ensures NextAfter(a + b, next) == NextAfter(b, NextAfter(a, next))
    ensures ValueAfter(a + b, prev) == ValueAfter(b, ValueAfter(a, prev))
    decreases |a|
  {
    hide XorNat;
    if a == [] {
      assert a + b == b;
    } else {
      assert (a + b)[1..] == a[1..] + b;
      AfterAppend(a[1..], b, next + a[0].delta + 1, XorNat(prev, a[0].xor));
    }
  }

  lemma DeltaShort(g: Group)
    requires Group64(g)
    ensures g.step.delta < HALF && g.count >= 1
  {
  }

  lemma NothingEmitted(times: seq<nat>, width: nat)
    ensures InTable([], times) && EmittedOf([], times, width) == []
  {
  }

  lemma {:induction false} Groups64(gs: seq<Group>, steps: seq<Step>)
    requires Expand(gs) == steps && Maximal(gs) && |steps| < WORD
    requires forall k :: 0 <= k < |steps| ==> steps[k].delta < HALF && steps[k].xor < WORD
    ensures forall i :: 0 <= i < |gs| ==> Group64(gs[i])
    decreases |gs|
  {
    if gs != [] {
      var run, more := Repeat(gs[0].step, gs[0].count), Expand(gs[1..]);
      assert steps == run + more;
      assert steps[0] == gs[0].step;
      assert forall k :: 0 <= k < |more| ==> more[k] == steps[|run| + k];
      Groups64(gs[1..], more);
    }
  }

  lemma {:induction false} StepWords(es: seq<Entry>, next: nat, prev: nat)
    requires Wide(es) && prev < WORD && forall i :: 0 <= i < |es| ==> es[i].value.n < WORD
    ensures forall k :: 0 <= k < |es| ==> WordSteps(es, next, prev)[k].xor < WORD
    decreases |es|
  {
    hide Xor, Pow2;
    if es != [] {
      Pow2Values();
      XorBound(es[0].value.n, prev, 64);
      StepWords(es[1..], es[0].tidx + 1, es[0].value.n);
    }
  }

  /** The longest beginning in which every place lies behind the last. */
  ghost function Climbing(es: seq<Entry>, next: nat): (m: nat)
    ensures m <= |es| && Climbs(es[..m], next) && (m < |es| ==> !Climbs(es, next))
    ensures m == |es| ==> Climbs(es, next)
  {
    if es == [] || es[0].tidx < next then 0
    else
      var m := 1 + Climbing(es[1..], es[0].tidx + 1);
      assert es[..m][1..] == es[1..][..m - 1];
      assert m == |es| ==> es[..m] == es;
      m
  }

  /** The place that may come next, and the value before it. */
  function PlaceAfter(es: seq<Entry>, next: nat): nat {
    if es == [] then next else PlaceAfter(es[1..], es[0].tidx + 1)
  }

  ghost function LastValue(es: seq<Entry>, prev: nat): nat
    requires Wide(es)
  {
    if es == [] then prev else LastValue(es[1..], es[0].value.n)
  }

  lemma {:induction false} WordStepsJoin(a: seq<Entry>, b: seq<Entry>, next: nat, prev: nat)
    requires Wide(a) && Wide(b) && Wide(a + b)
    ensures WordSteps(a + b, next, prev) == WordSteps(a, next, prev) + WordSteps(b, PlaceAfter(a, next), LastValue(a, prev))
    decreases |a|
  {
    hide XorNat;
    if a == [] {
      assert a + b == b;
    } else {
      assert (a + b)[1..] == a[1..] + b && (a + b)[0] == a[0];
      WordStepsJoin(a[1..], b, a[0].tidx + 1, a[0].value.n);
    }
  }

  /** The entry behind the longest climb is at the last place again. */
  lemma {:induction false} BreaksAt(es: seq<Entry>, next: nat)
    requires Rises(es, next)
    ensures var m := Climbing(es, next);
            m < |es| ==> es[m].tidx + 1 == PlaceAfter(es[..m], next)
    decreases |es|
  {
    if es != [] && es[0].tidx >= next {
      var m := Climbing(es, next);
      BreaksAt(es[1..], es[0].tidx + 1);
      assert es[..m][1..] == es[1..][..m - 1] && es[..m][0] == es[0];
    }
  }

  /** Behind the longest climb comes the wrapped distance. */
  lemma StepsBreak(es: seq<Entry>, next: nat, prev: nat)
    requires Wide(es) && Rises(es, next) && forall i :: 0 <= i < |es| ==> es[i].tidx < HALF
    ensures var m := Climbing(es, next);
            var all := WordSteps(es, next, prev);
            Wide(es[..m]) && all[..m] == Steps(es[..m], next, prev) &&
            (m < |es| ==> all[m].delta == HALF - 1)
  {
    hide XorNat, Climbs, Steps, WordSteps, Rises, Climbing, PlaceAfter, LastValue;
    var m := Climbing(es, next);
    var a, b := es[..m], es[m..];
    assert es == a + b && Wide(a) && Wide(b);
    hide Wide;
    WordStepsJoin(a, b, next, prev);
    SameSteps(a, next, prev);
    BreaksAt(es, next);
    PartsOfSum(WordSteps(a, next, prev), WordSteps(b, PlaceAfter(a, next), LastValue(a, prev)));
    if m < |es| {
      WrappedFirst(b, PlaceAfter(a, next), LastValue(a, prev));
    }
  }

  lemma PartsOfSum(x: seq<Step>, y: seq<Step>)
    ensures (x + y)[..|x|] == x && (y != [] ==> (x + y)[|x|] == y[0])
  {
  }

  lemma WrappedFirst(es: seq<Entry>, next: nat, prev: nat)
    requires Wide(es) && es != [] && es[0].tidx + 1 == next
    ensures WordSteps(es, next, prev)[0].delta == HALF - 1
  {
    hide XorNat;
    assert es[0].tidx - next == -1;
  }

  /** Runs do not reach over a place where the step changes. */
  lemma {:induction false} CollapseFromSplit(rest: seq<Step>, b: seq<Step>, run: Step, count: nat)
    requires b != [] && b[0] != (if rest == [] then run else rest[|rest| - 1])
    ensures CollapseFrom(rest + b, run, count) == CollapseFrom(rest, run, count) + Collapse(b)
    decreases |rest|
  {
    if rest == [] {
      assert rest + b == b;
    } else {
      assert (rest + b)[1..] == rest[1..] + b && (rest + b)[0] == rest[0];
      if rest[0] == run {
        CollapseFromSplit(rest[1..], b, run, count + 1);
      } else {
        CollapseFromSplit(rest[1..], b, rest[0], 1);
        assert [Group(run, count)] + (CollapseFrom(rest[1..], rest[0], 1) + Collapse(b))
            == ([Group(run, count)] + CollapseFrom(rest[1..], rest[0], 1)) + Collapse(b);
      }
    }
  }

  lemma CollapseSplit(a: seq<Step>, b: seq<Step>)
    requires b != [] && (a != [] ==> a[|a| - 1] != b[0])
    ensures Collapse(a + b) == Collapse(a) + Collapse(b) && Collapse(b) != [] && Collapse(b)[0].step == b[0]
  {
    CollapseLaws(b[1..], b[0], 1);
    if a == [] {
      assert a + b == b && Collapse(a) + Collapse(b) == Collapse(b);
    } else {
      assert (a + b)[1..] == a[1..] + b;
      CollapseFromSplit(a[1..], b, a[0], 1);
    }
  }

  lemma {:induction false} GroupsJoin(a: seq<Group>, b: seq<Group>)
    requires Maximal(a + b) && Maximal(a) && Maximal(b)
    ensures EncGroups(a + b) == EncGroups(a) + EncGroups(b)
    decreases |a|
  {
    hide EncGroup, EncGroups, Maximal;
    if a == [] {
      assert a + b == b;
      NoGroups([]);
    } else {
      var g, rest := a[0], a[1..];
      var more := rest + b;
      assert a == [g] + rest && a + b == [g] + more;
      MaximalTail(a + b);
      MaximalTail(a);
      assert (a + b)[1..] == more;
      GroupsJoin(rest, b);
      GroupFirst(g, more);
      GroupFirst(g, rest);
      Regrouped(EncGroup(g), EncGroups(rest), EncGroups(b));
    }
  }

  lemma Regrouped(a: bytes, b: bytes, c: bytes)
    ensures a + (b + c) == (a + b) + c
  {
  }

  /** A group with the wrapped distance leads past any time table. */
  lemma WrappedFails(gs: seq<Group>, next: nat, prev: nat, t: bytes, times: seq<nat>, width: nat)
    requires Maximal(gs) && gs != [] && Group64(gs[0]) && gs[0].step.delta == HALF - 1 && next < HALF && |times| < HALF
    ensures EmitAll(|gs|, EncGroups(gs) + t, next, prev, times, width) == ([], false)
  {
    hide EncGroup, DecGroup64, XorNat;
    var a, b := EncGroup(gs[0]), EncGroups(gs[1..]);
    assert EncGroups(gs) + t == a + (b + t);
    GroupReads64(gs[0], b + t);
    assert !EmitRun(gs[0].count, gs[0].step, next, prev, times, width).ok;
  }

  /** Entries as the native encoder places them: within a table, and of 64 bits. */
  ghost predicate Native(es: seq<Entry>, times: seq<nat>) {
    Wide(es) && Rises(es, 0) && InTable(es, times) && |times| < HALF && |es| < WORD &&
    forall i :: 0 <= i < |es| ==> es[i].value.n < WORD
  }

  lemma WholeEmits(es: seq<Entry>, times: seq<nat>, width: nat, t: bytes)
    requires Native(es, times) && Climbs(es, 0)
    ensures var gs := Collapse(WordSteps(es, 0, 0));
            Maximal(gs) && EmitAll(|gs|, EncGroups(gs) + t, 0, 0, times, width) == (EmittedOf(es, times, width), true)
  {
    hide EncGroups, Collapse, Expand, Replay, Maximal, Climbs, Wide, WordSteps, Steps, EmitAll, EmittedOf, Group64, Rises,
      NextAfter, ValueAfter;
    var steps := WordSteps(es, 0, 0);
    StepWords(es, 0, 0);
    SameSteps(es, 0, 0);
    CollapseIsMaximal(steps);
    Groups64(Collapse(steps), steps);
    StepsReplay(es, 0, 0);
    GroupsEmit(Collapse(steps), 0, 0, 0, t, times, width);
    NothingMore(t, NextAfter(steps, 0), ValueAfter(steps, 0), times, width);
    AfterTwice(EmittedOf(es, times, width), [], ([], true));
  }

  /** The steps before the break, and those from the wrapped distance on. */
  lemma BrokenSteps(es: seq<Entry>, times: seq<nat>) returns (a: seq<Step>, b: seq<Step>)
    requires Native(es, times) && !Climbs(es, 0)
    ensures var m := Climbing(es, 0);
            m < |es| && Wide(es[..m]) && Climbs(es[..m], 0) && a == Steps(es[..m], 0, 0) && b != [] && b[0].delta == HALF - 1
    ensures WordSteps(es, 0, 0) == a + b && ShortWords(a) && ShortWords(b) && (a != [] ==> a[|a| - 1] != b[0])
  {
    hide Climbs, Wide, WordSteps, Steps, Rises, Climbing, Native, ShortWords;
    NativeParts(es, times);
    var m := Climbing(es, 0);
    var steps := WordSteps(es, 0, 0);
    a, b := steps[..m], steps[m..];
    StepWords(es, 0, 0);
    StepsBreak(es, 0, 0);
    ShortSteps(es[..m], 0, 0, HALF - 1);
    CutShort(steps, m);
  }

  lemma NativeParts(es: seq<Entry>, times: seq<nat>)
    requires Native(es, times)
    ensures Wide(es) && Rises(es, 0) && |es| < WORD
    ensures forall i :: 0 <= i < |es| ==> es[i].tidx < HALF - 1 && es[i].value.n < WORD
  {
    hide Wide, Rises;
  }

  lemma CutShort(steps: seq<Step>, m: nat)
    requires m < |steps| < WORD && forall k :: 0 <= k < |steps| ==> steps[k].delta < HALF && steps[k].xor < WORD
    requires (forall k :: 0 <= k < m ==> steps[..m][k].delta < HALF - 1) && steps[m].delta == HALF - 1
    ensures var a, b := steps[..m], steps[m..];
            steps == a + b && ShortWords(a) && ShortWords(b) && (a != [] ==> a[|a| - 1] != b[0])
  {
  }

  ghost predicate ShortWords(steps: seq<Step>) {
    |steps| < WORD && forall k :: 0 <= k < |steps| ==> steps[k].delta < HALF && steps[k].xor < WORD
  }

  /** Their groups. */
  lemma BrokenGroups(es: seq<Entry>, times: seq<nat>) returns (a: seq<Step>, b: seq<Step>)
    requires Native(es, times) && !Climbs(es, 0)
    ensures var m := Climbing(es, 0);
            m < |es| && Wide(es[..m]) && Climbs(es[..m], 0) && a == Steps(es[..m], 0, 0) && b != [] && b[0].delta == HALF - 1
    ensures var gs, ga, gb := Collapse(WordSteps(es, 0, 0)), Collapse(a), Collapse(b);
            Maximal(gs) && Maximal(ga) && Maximal(gb) && gs == ga + gb && gb != [] && gb[0].step == b[0] &&
            Expand(ga) == a && Expand(gb) == b &&
            (forall i :: 0 <= i < |ga| ==> Group64(ga[i])) && forall i :: 0 <= i < |gb| ==> Group64(gb[i])
  {
    hide Collapse, Expand, Maximal, Climbs, Wide, WordSteps, Steps, Group64, Rises, Climbing, Native;
    a, b := BrokenSteps(es, times);
    CollapseIsMaximal(a + b);
    CollapseIsMaximal(a);
    CollapseIsMaximal(b);
    CollapseSplit(a, b);
    Groups64(Collapse(a), a);
    Groups64(Collapse(b), b);
  }

  lemma BrokenEmits(es: seq<Entry>, times: seq<nat>, width: nat, t: bytes)
    requires Native(es, times) && !Climbs(es, 0)
    ensures var gs := Collapse(WordSteps(es, 0, 0));
            var m := Climbing(es, 0);
            m < |es| && InTable(es[..m], times) && Maximal(gs) &&
            EmitAll(|gs|, EncGroups(gs) + t, 0, 0, times, width) == (EmittedOf(es[..m], times, width), false)
  {
    hide EncGroups, Collapse, Expand, Replay, Maximal, Climbs, Wide, WordSteps, Steps, EmitAll, EmittedOf, Group64, Rises,
      NextAfter, ValueAfter, Climbing;
    var m := Climbing(es, 0);
    var a, b := BrokenGroups(es, times);
    StepsReplay(es[..m], 0, 0);
    var ga, gb := Collapse(a), Collapse(b);
    GroupsJoin(ga, gb);
    Regrouped(EncGroups(ga), EncGroups(gb), t);
    NextShort(a, 0, 0, times);
    GroupsEmit(ga, |gb|, 0, 0, EncGroups(gb) + t, times, width);
    WrappedFails(gb, NextAfter(a, 0), ValueAfter(a, 0), t, times, width);
    AfterTwice(EmittedOf(es[..m], times, width), [], ([], false));
  }

  /** What the C encoder wrote the C reader emits, every change's time and value bytes in order, if and
      only if no two changes share a time.  Otherwise it stops with an error at the first change whose
      time has come before: the distance minus one has lost its top bit. */
  lemma NativeRoundTrip(items: seq<NativeChange>, times: seq<nat>, width: nat, t: bytes)
    requires ItemsOk(items, times)
    ensures var es := EntriesFrom(items, times);
            var m := Climbing(es, 0);
            var head := DecU(NativeRuns(es) + t);
            InTable(es[..m], times) && (m == |es| <==> Strict(items)) && head.Ok? && head.value < WORD &&
            EmitAll(head.value, head.rest, 0, 0, times, width) == (EmittedOf(es[..m], times, width), Strict(items))
  {
    hide EncU, DecU, EncGroups, Collapse, Maximal, Climbs, Wide, WordSteps, EmitAll, EmittedOf, ToWord, Rises, Strict, Climbing,
      TimeToIdx;
    var es := EntriesFrom(items, times);
    var gs := Collapse(WordSteps(es, 0, 0));
    assert Climbing(es, 0) == |es| ==> es[..Climbing(es, 0)] == es;
    forall i | 0 <= i < |es|
      ensures es[i].value.n < WORD
    {
      WordBound(items[i].value);
    }
    assert Native(es, times) by {
      InWide(es);
    }
    CollapseIsMaximal(WordSteps(es, 0, 0));
    assert NativeRuns(es) + t == EncU(|gs|) + (EncGroups(gs) + t);
    URoundTrip(|gs|, EncGroups(gs) + t);
    if Strict(items) {
      WholeEmits(es, times, width, t);
    } else {
      BrokenEmits(es, times, width, t);
    }
  }

  lemma InWide(es: seq<Entry>)
    requires Wide(es)
    ensures forall i :: 0 <= i < |es| ==> es[i].value.Int? && es[i].value.n >= 0
  {
  }

  lemma NothingMore(t: bytes, next: nat, prev: nat, times: seq<nat>, width: nat)
    ensures EmitAll(0, t, next, prev, times, width) == ([], true)
  {
  }

  lemma {:induction false} ShortSteps(es: seq<Entry>, next: nat, prev: nat, bound: nat)
    requires Wide(es) && Climbs(es, next) && forall i :: 0 <= i < |es| ==> es[i].tidx < bound
    ensures forall k :: 0 <= k < |es| ==> Steps(es, next, prev)[k].delta < bound
    decreases |es|
  {
    hide XorNat;
    if es != [] {
      ShortSteps(es[1..], es[0].tidx + 1, es[0].value.n, bound);
    }
  }

  lemma {:induction false} NextShort(steps: seq<Step>, next: nat, prev: nat, times: seq<nat>)
    requires InTable(Replay(steps, next, prev), times) && next <= |times|
    ensures NextAfter(steps, next) <= |times|
    decreases |steps|
  {
    hide XorNat;
    if steps != [] {
      var es := Replay(steps, next, prev);
      assert es[0].tidx == next + steps[0].delta && es[0].tidx < |times|;
      TableTail(es, times, 0);
      NextShort(steps[1..], next + steps[0].delta + 1, XorNat(prev, steps[0].xor), times);
    }
  }

  lemma {:induction false} BeCut(width: nat, v: nat)
    ensures BeValue(EncBe(width, v)) == v % Pow2(8 * width)
    decreases width
  {
    if width > 0 {
      var p := Pow2(8 * (width - 1));
      Pow2Add(8, 8 * (width - 1));
      assert Pow2(8) == 256;
      BeCut(width - 1, v / 256);
      assert EncBe(width, v)[..width - 1] == EncBe(width - 1, v / 256);
      SplitMod(v, p);
    } else {
      assert Pow2(0) == 1;
    }
  }

  lemma SplitMod(v: nat, p: nat)
    requires p >= 1
    ensures v % (256 * p) == 256 * (v / 256 % p) + v % 256
  {
    var h := v / 256;
    var q, r := h / p, h % p;
    assert h == p * q + r;
    assert v == (256 * p) * q + (256 * r + v % 256) by {
      assert 256 * (p * q) == (256 * p) * q;
    }
    DivUnique(v, 256 * p, q, 256 * r + v % 256);
  }

  /** A value that the register and the callback's bytes both hold. */
  predicate Held(v: NativeValue, width: nat) {
    WordExact(v) && Full(v) < Pow2(8 * ValueBytes(width))
  }

  lemma HeldExactly(v: NativeValue, width: nat)
    ensures BeValue(EncBe(ValueBytes(width), ToWord(v))) == Full(v) <==> Held(v, width)
  {
    hide BeValue, EncBe, Pow2, ToWord, Full, WordExact;
    var p := Pow2(8 * ValueBytes(width));
    BeCut(ValueBytes(width), ToWord(v));
    WordIsFull(v);
    if ToWord(v) < p {
      DivUnique(ToWord(v), p, 0, ToWord(v));
    } else {
      assert ToWord(v) % p < p;
    }
  }

  /** A change is emitted with its time, and with its value exactly if that is held. */
  lemma EmittedValue(items: seq<NativeChange>, times: seq<nat>, width: nat, i: nat)
    requires ItemsOk(items, times) && i < |items|
    ensures var es := EntriesFrom(items, times);
            InTable(es, times) &&
            EmittedOf(es, times, width)[i].time == items[i].time &&
            (BeValue(EmittedOf(es, times, width)[i].value) == Full(items[i].value) <==> Held(items[i].value, width))
  {
    hide ToWord, Full, EncBe, BeValue, Pow2, Held;
    HeldExactly(items[i].value, width);
  }

  /** The changes as they were recorded. */
  predicate Originals(out: seq<Emitted>, items: seq<NativeChange>) {
    |out| == |items| &&
    forall i :: 0 <= i < |out| ==> out[i].time == items[i].time && BeValue(out[i].value) == Full(items[i].value)
  }

  /** From encoder to decoder the recorded times and values come back, without an error, if and only if no
      two changes share a time and every value is held. */
  lemma OriginalsComeBack(items: seq<NativeChange>, times: seq<nat>, width: nat, t: bytes)
    requires ItemsOk(items, times)
    ensures var head := DecU(NativeRuns(EntriesFrom(items, times)) + t);
            head.Ok? &&
            var r := EmitAll(head.value, head.rest, 0, 0, times, width);
            r.1 && Originals(r.0, items) <==> Strict(items) && forall i :: 0 <= i < |items| ==> Held(items[i].value, width)
  {
    hide EmitAll, NativeRuns, DecU, EntriesFrom, EmittedOf, Held, Full, BeValue, Climbing, TimeToIdx, Strict;
    NativeRoundTrip(items, times, width, t);
    var es := EntriesFrom(items, times);
    assert es[..|es|] == es;
    forall i | 0 <= i < |items|
      ensures InTable(es, times) && EmittedOf(es, times, width)[i].time == items[i].time
      ensures BeValue(EmittedOf(es, times, width)[i].value) == Full(items[i].value) <==> Held(items[i].value, width)
    {
      EmittedValue(items, times, width, i);
    }
  }

  /** The number 5 in nine bytes, as a 72-bit signal records it, is emitted as 0. */
  lemma WideValueIsLost(t: bytes)
    ensures var items := [Timed(0, Raw(NINE))];
            ItemsOk(items, [0]) && Full(items[0].value) == 5 &&
            var head := DecU(NativeRuns(EntriesFrom(items, [0])) + t);
            head.Ok? &&
            var r := EmitAll(head.value, head.rest, 0, 0, [0], 72);
            r.1 && |r.0| == 1 && r.0[0].time == 0 && BeValue(r.0[0].value) == 0
  {
    hide EmitAll, NativeRuns, DecU, TimeToIdx, Climbing;
    var items := [Timed(0, Raw(NINE))];
    NativeRoundTrip(items, [0], 72, t);
    NineIsFive();
    var es := EntriesFrom(items, [0]);
    assert es[..1] == es;
    BeCut(8, 0);
  }

  const NINE: bytes := [0, 0, 0, 0, 0, 0, 0, 0, 5]

  lemma NineIsFive()
    ensures BeValue(NINE) == 5 && ToWord(Raw(NINE)) == 0
  {
    ZeroBytes(8);
    assert NINE[..8] == seq(8, _ => 0);
  }

  lemma {:induction false} ZeroBytes(n: nat)
    ensures BeValue(seq(n, _ => 0)) == 0
    decreases n
  {
    if n > 0 {
      ZeroBytes(n - 1);
      assert seq(n, _ => 0)[..n - 1] == seq(n - 1, _ => 0);
    }
  }

  // ---- The reader's loops ----

  lemma AfterTwice(a: seq<Emitted>, b: seq<Emitted>, later: (seq<Emitted>, bool))
    ensures After(a, After(b, later)) == After(a + b, later) && After([], later) == later
    ensures After(a, (b, false)) == (a + b, false) && After(a, ([], false)) == (a, false) && After(a, ([], true)) == (a, true)
  {
    assert a + (b + later.0) == (a + b) + later.0 && [] + later.0 == later.0 && a + [] == a;
  }

  method ReadGroups64(n: nat, data: bytes, times: seq<nat>, width: nat) returns (out: seq<Emitted>, ok: bool)
    requires |times| < HALF
    ensures (out, ok) == EmitAll(n, data, 0, 0, times, width)
  {
    hide DecGroup64, EmitRun, After;
    out, ok := [], true;
    var rest, next: nat, prev: nat := data, 0, 0;
    AfterTwice([], [], EmitAll(n, data, 0, 0, times, width));
    for i := 0 to n
      invariant next <= |times|
      invariant EmitAll(n, data, 0, 0, times, width) == After(out, EmitAll(n - i, rest, next, prev, times, width))
    {
      match DecGroup64(rest) {
        case Fail(_) =>
          AfterTwice(out, [], ([], false));
          return out, false;
        case Ok(g, more) =>
          var run := ReadRun64(g, next, prev, times, width);
          if !run.ok {
            AfterTwice(out, run.out, ([], false));
            return out + run.out, false;
          }
          AfterTwice(out, run.out, EmitAll(n - i - 1, more, run.next, run.prev, times, width));
          out := out + run.out;
          next, prev, rest := run.next, run.prev, more;
      }
    }
    AfterTwice(out, [], ([], true));
  }

  function RunAfter(out: seq<Emitted>, later: RunOut): RunOut {
    later.(out := out + later.out)
  }

  lemma RunAfterTwice(a: seq<Emitted>, b: seq<Emitted>, later: RunOut)
    ensures RunAfter(a, RunAfter(b, later)) == RunAfter(a + b, later) && RunAfter([], later) == later
  {
    assert a + (b + later.out) == (a + b) + later.out && [] + later.out == later.out;
  }

  /** Within the table the places only grow, so a run of any stated length comes to an end. */
  method ReadRun64(g: Group, next0: nat, prev0: nat, times: seq<nat>, width: nat) returns (run: RunOut)
    requires next0 <= |times| < HALF && g.step.delta < HALF
    ensures run == EmitRun(g.count, g.step, next0, prev0, times, width) && (run.ok ==> run.next <= |times|)
  {
    hide XorNat, EncBe, RunAfter;
    var out: seq<Emitted>, next: nat, prev: nat := [], next0, prev0;
    ghost var whole := EmitRun(g.count, g.step, next0, prev0, times, width);
    RunAfterTwice([], [], whole);
    for rep := 0 to g.count
      invariant next <= |times| && whole == RunAfter(out, EmitRun(g.count - rep, g.step, next, prev, times, width))
    {
      var tidx := Wrap(next + g.step.delta);
      if tidx >= |times| {
        RunAfterNone(out, next, prev, false);
        return RunOut(out, next, prev, false);
      }
      var v := XorNat(prev, g.step.xor);
      var e := Emitted(times[tidx], EncBe(ValueBytes(width), v));
      EmitStep(g.count - rep, g.step, next, prev, times, width);
      RunAfterTwice(out, [e], EmitRun(g.count - rep - 1, g.step, tidx + 1, v, times, width));
      out := out + [e];
      next, prev := tidx + 1, v;
    }
    RunAfterNone(out, next, prev, true);
    run := RunOut(out, next, prev, true);
  }

  lemma RunAfterNone(out: seq<Emitted>, next: nat, prev: nat, ok: bool)
    ensures RunAfter(out, RunOut([], next, prev, ok)) == RunOut(out, next, prev, ok)
  {
    assert out + [] == out;
  }

  lemma EmitStep(k: nat, step: Step, next: nat, prev: nat, times: seq<nat>, width: nat)
    requires k > 0 && Wrap(next + step.delta) < |times|
    ensures var tidx, v := Wrap(next + step.delta), XorNat(prev, step.xor);
            EmitRun(k, step, next, prev, times, width) ==
            RunAfter([Emitted(times[tidx], EncBe(ValueBytes(width), v))], EmitRun(k - 1, step, tidx + 1, v, times, width))
  {
    hide XorNat, EncBe;
  }
}
