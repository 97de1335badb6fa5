/** The payload of a value-change block: `_encode_payload` and `_decode_payload` of
    `python/src/trlog/_vc_data.py`, and the compression of whole blocks around them. */
module VcPayload {
  import opened Bits
  import opened Bytes
  import opened Varint
  import opened Lists
  import opened VcValues
  import opened VcWave
  import opened VcBlock
  import opened VcStore
  import S = Sorting

  // ---- Time table ----

  ghost function EncTimes(times: seq<nat>, prev: nat): bytes
    requires Rising(times) && (times != [] ==> prev <= times[0])
  {
    if times == [] then [] else EncU(times[0] - prev) + EncTimes(times[1..], times[0])
  }

  function DecTimes(n: nat, s: bytes, prev: nat): Parse<seq<nat>> {
    if n == 0 then Ok([], s)
    else
      var (delta, s1) :- DecU(s);
      var (more, rest) :- DecTimes(n - 1, s1, prev + delta);
      Ok([prev + delta] + more, rest)
  }

  /** The deltas may be compressed on their own; an empty table never is. */
  ghost function EncTimeTable(zlib: Compressor, pack: bool, start: nat, times: seq<nat>): bytes
    requires Rising(times) && (times != [] ==> start <= times[0])
  {
    var deltas := EncTimes(times, start);
    EncU(|times|) + if pack && times != [] then EncU(|zlib.pack(deltas)|) + zlib.pack(deltas) else deltas
  }

  function DecTimeTable(zlib: Compressor, packed: bool, start: nat, s: bytes): Parse<seq<nat>> {
    var (n, s1) :- DecU(s);
    if packed && n > 0 then
      var (size, s2) :- DecU(s1);
      var (inner, rest) :- DecSlice(size, s2);
      match zlib.unpack(inner)
      case None => Fail(Corrupt)
      case Some(deltas) =>
        var (times, none) :- DecTimes(n, deltas, start);
        Ok(times, rest)
    else DecTimes(n, s1, start)
  }

  lemma {:induction false} TimesRead(times: seq<nat>, prev: nat, t: bytes)
    requires Rising(times) && (times != [] ==> prev <= times[0]) && forall i :: 0 <= i < |times| ==> times[i] < WORD
    ensures DecTimes(|times|, EncTimes(times, prev) + t, prev) == Ok(times, t)
    decreases |times|
  {
    hide EncU, DecU;
    if times != [] {
      var a, b := EncU(times[0] - prev), EncTimes(times[1..], times[0]);
      assert EncTimes(times, prev) + t == a + (b + t);
      URoundTrip(times[0] - prev, b + t);
      TimesRead(times[1..], times[0], t);
      assert times == [times[0]] + times[1..];
    }
  }

  lemma TimeTableReads(zlib: Compressor, pack: bool, start: nat, times: seq<nat>, t: bytes)
    requires Lossless(zlib) && Rising(times) && (times != [] ==> start <= times[0]) && forall i :: 0 <= i < |times| ==> times[i] < WORD
    requires |times| <= WORD && (pack ==> |zlib.pack(EncTimes(times, start))| < WORD)
    ensures DecTimeTable(zlib, pack, start, EncTimeTable(zlib, pack, start, times) + t) == Ok(times, t)
  {
    hide EncU, DecU, EncTimes, DecTimes, Rising;
    var deltas := EncTimes(times, start);
    if pack && times != [] {
      var packed := zlib.pack(deltas);
      assert EncTimeTable(zlib, pack, start, times) + t == EncU(|times|) + (EncU(|packed|) + (packed + t));
      URoundTrip(|times|, EncU(|packed|) + (packed + t));
      URoundTrip(|packed|, packed + t);
      SliceRoundTrip(packed, t);
      TimesRead(times, start, []);
      assert deltas + [] == deltas;
    } else {
      assert EncTimeTable(zlib, pack, start, times) + t == EncU(|times|) + (deltas + t);
      URoundTrip(|times|, deltas + t);
      TimesRead(times, start, t);
    }
  }

  // ---- Initial values ----

  ghost function EncInit(sig: Sig, v: Value): bytes
    requires InitOk(sig, v)
  {
    match sig.enc
    case TwoState => EncU(sig.width) + EncBytes(sig.width, v)
    case BitVec => EncU(sig.width) + EncBytes(sig.width, v)
    case FourState => EncU(sig.width) + PackFour(FourCodes(v, sig.width), FourSize(sig.width))
    case NineState => EncU(sig.width) + PackNine(NineCodes(v, sig.width), NineSize(sig.width))
    case Real => v.raw
    case Analog => v.raw
    case Str => EncU(|v.utf8|) + v.utf8
  }

  function DecInit(sig: Sig, s: bytes): Parse<Value> {
    match sig.enc
    case Real => DecDouble(s)
    case Analog => DecDouble(s)
    case Str => DecText(s)
    case _ =>
      var (width, s1) :- DecU(s);
      match sig.enc
      case FourState => DecFour(width, s1)
      case NineState => DecNine(width, s1)
      case _ => DecBytes(width, s1)
  }

  /** Four- and nine-state initial values are always packed state by state. */
  function SeenInit(sig: Sig, v: Value): Value {
    match sig.enc case FourState => FourBack(v, sig.width) case NineState => NineBack(v, sig.width) case _ => v
  }

  lemma InitReads(sig: Sig, v: Value, t: bytes)
    requires InitOk(sig, v)
    ensures DecInit(sig, EncInit(sig, v) + t) == Ok(SeenInit(sig, v), t)
  {
    hide EncU, DecU, EncBytes, DecBytes, DecFour, DecNine, PackFour, PackNine, FourCodes, NineCodes, FourBack, NineBack, Pow2;
    match sig.enc
    case Real => SliceRoundTrip(v.raw, t);
    case Analog => SliceRoundTrip(v.raw, t);
    case Str =>
      HeaderReads(|v.utf8|, v.utf8, t);
      SliceRoundTrip(v.utf8, t);
    case FourState =>
      HeaderReads(sig.width, PackFour(FourCodes(v, sig.width), FourSize(sig.width)), t);
      FourReads(v, sig.width, t);
    case NineState =>
      HeaderReads(sig.width, PackNine(NineCodes(v, sig.width), NineSize(sig.width)), t);
      NineReads(v, sig.width, t);
    case _ =>
      HeaderReads(sig.width, EncBytes(sig.width, v), t);
      BytesRead(sig.width, v, t);
  }

  type Inits = seq<(nat, Value)>

  ghost predicate IdsOk(b: Block, sigs: SigMap, ids: seq<nat>) {
    forall i :: 0 <= i < |ids| ==> VarOk(b, sigs, ids[i])
  }

  ghost function EncInits(b: Block, sigs: SigMap, ids: seq<nat>): bytes
    requires IdsOk(b, sigs, ids)
  {
    if ids == [] then []
    else assert VarOk(b, sigs, ids[0]);
         EncU(ids[0]) + (EncInit(SigOf(sigs, ids[0]), InitOf(b, sigs, ids[0])) + EncInits(b, sigs, ids[1..]))
  }

  function DecInits(n: nat, sigs: SigMap, s: bytes): (r: Parse<Inits>)
    ensures r.Ok? ==> |r.value| == n
  {
    if n == 0 then Ok([], s)
    else
      var (id, s1) :- DecU(s);
      var (v, s2) :- DecInit(SigOf(sigs, id), s1);
      var (more, rest) :- DecInits(n - 1, sigs, s2);
      Ok([(id, v)] + more, rest)
  }

  function SeenInits(b: Block, sigs: SigMap, ids: seq<nat>): (r: Inits)
    ensures |r| == |ids|
    ensures forall i :: 0 <= i < |ids| ==> r[i] == (ids[i], SeenInit(SigOf(sigs, ids[i]), InitOf(b, sigs, ids[i])))
  {
    seq(|ids|, i requires 0 <= i < |ids| => (ids[i], SeenInit(SigOf(sigs, ids[i]), InitOf(b, sigs, ids[i]))))
  }

  lemma {:induction false} InitsRead(b: Block, sigs: SigMap, ids: seq<nat>, t: bytes)
    requires IdsOk(b, sigs, ids)
    ensures DecInits(|ids|, sigs, EncInits(b, sigs, ids) + t) == Ok(SeenInits(b, sigs, ids), t)
    decreases |ids|
  {
    hide EncU, DecU, EncInit, DecInit, InitOk, SeenInit, SigOf, ChangeOk, InitOf, ChangesOf;
    if ids != [] {
      assert VarOk(b, sigs, ids[0]);
      var sig, v := SigOf(sigs, ids[0]), InitOf(b, sigs, ids[0]);
      var a, c, d := EncU(ids[0]), EncInit(sig, v), EncInits(b, sigs, ids[1..]);
      assert EncInits(b, sigs, ids) + t == a + (c + (d + t));
      URoundTrip(ids[0], c + (d + t));
      InitReads(sig, v, d + t);
      InitsRead(b, sigs, ids[1..], t);
      assert SeenInits(b, sigs, ids) == [(ids[0], SeenInit(sig, v))] + SeenInits(b, sigs, ids[1..]);
    }
  }

  // ---- Positions ----

  function EncPositions(size: nat, ps: seq<nat>): bytes {
    if ps == [] then [] else EncLe(size, ps[0]) + EncPositions(size, ps[1..])
  }

  function DecPositions(n: nat, size: nat, s: bytes): (r: Parse<seq<nat>>)
    ensures r.Ok? ==> |r.value| == n
  {
    if n == 0 then Ok([], s)
    else
      var (p, s1) :- DecLe(size, s);
      var (more, rest) :- DecPositions(n - 1, size, s1);
      Ok([p] + more, rest)
  }

  lemma {:induction false} PositionsRead(size: nat, ps: seq<nat>, t: bytes)
    requires forall i :: 0 <= i < |ps| ==> ps[i] < Pow2(8 * size)
    ensures DecPositions(|ps|, size, EncPositions(size, ps) + t) == Ok(ps, t)
    decreases |ps|
  {
    hide EncLe, DecLe, Pow2;
    if ps != [] {
      assert EncPositions(size, ps) + t == EncLe(size, ps[0]) + (EncPositions(size, ps[1..]) + t);
      LeReads(size, ps[0], EncPositions(size, ps[1..]) + t);
      PositionsRead(size, ps[1..], t);
      assert ps == [ps[0]] + ps[1..];
    }
  }

  // ---- The payload ----

  lemma IdIn(b: Block, i: nat)
    requires i < |VarIds(b)|
    ensures VarIds(b)[i] in VarIds(b)
  {
  }

  ghost function RawWaves(b: Block, sigs: SigMap, ids: seq<nat>): (r: seq<bytes>)
    requires BlockOk(b, sigs) && forall i :: 0 <= i < |ids| ==> ids[i] in VarIds(b)
    ensures |r| == |ids| && forall i :: 0 <= i < |ids| ==> r[i] == RawWave(b, sigs, ids[i])
  {
    seq(|ids|, i requires 0 <= i < |ids| => RawWave(b, sigs, ids[i]))
  }

  ghost function WaveStore(mode: WaveMode, b: Block, sigs: SigMap): Store
    requires BlockOk(b, sigs)
  {
    PutAll(mode, EMPTY, RawWaves(b, sigs, VarIds(b)))
  }

  ghost function PositionsOf(st: Store, raws: seq<bytes>): (ps: seq<nat>)
    ensures |ps| == |raws|
    ensures forall i :: 0 <= i < |raws| && raws[i] in st.offsets ==> ps[i] == st.offsets[raws[i]]
  {
    seq(|raws|, i requires 0 <= i < |raws| => if raws[i] in st.offsets then st.offsets[raws[i]] else 0)
  }

  lemma StartsBeforeTimes(b: Block, sigs: SigMap)
    requires BlockOk(b, sigs)
    ensures Times(b) != [] ==> b.start <= Times(b)[0]
  {
    TimesBelowWord(b, sigs);
  }

  lemma AllIdsOk(b: Block, sigs: SigMap)
    requires BlockOk(b, sigs)
    ensures IdsOk(b, sigs, VarIds(b))
  {
  }

  ghost function Head(zlib: Compressor, pack: bool, sigs: SigMap, b: Block): bytes
    requires BlockOk(b, sigs)
  {
    StartsBeforeTimes(b, sigs);
    AllIdsOk(b, sigs);
    EncLe(8, b.start) + (EncLe(8, b.end) +
      (EncTimeTable(zlib, pack, b.start, Times(b)) + (EncU(|VarIds(b)|) + EncInits(b, sigs, VarIds(b)))))
  }

  /** Positions take four bytes while the wave data stays below 4 GiB. */
  function EntrySize(waves: bytes): byte {
    if |waves| < 0x1_0000_0000 then 4 else 8
  }

  /** The position table and the wave data. */
  ghost function EncTables(st: Store, raws: seq<bytes>): bytes {
    var size := EntrySize(st.data);
    [size] + (EncPositions(size, PositionsOf(st, raws)) + (EncU(|st.data|) + st.data))
  }

  ghost function Tables(mode: WaveMode, sigs: SigMap, b: Block): bytes
    requires BlockOk(b, sigs)
  {
    EncTables(WaveStore(mode, b, sigs), RawWaves(b, sigs, VarIds(b)))
  }

  /** A seekable payload ends with the offset of its position table. */
  ghost function EncPayload(c: Codecs, f: Flags, sigs: SigMap, b: Block): bytes
    requires BlockOk(b, sigs)
  {
    var head := Head(c.zlib, f.timeZlib, sigs, b);
    head + Tables(ModeOf(c, f), sigs, b) + if f.seekable then EncLe(8, |head|) else []
  }

  datatype Parts = Parts(start: nat, end: nat, times: seq<nat>, inits: Inits, positions: seq<nat>, waves: bytes)

  function DecParts(c: Codecs, f: Flags, sigs: SigMap, s: bytes): (r: Parse<Parts>)
    ensures r.Ok? ==> |r.value.positions| == |r.value.inits|
  {
    var (start, s1) :- DecLe(8, s);
    var (end, s2) :- DecLe(8, s1);
    var (times, s3) :- DecTimeTable(c.zlib, f.timeZlib, start, s2);
    var (n, s4) :- DecU(s3);
    var (inits, s5) :- DecInits(n, sigs, s4);
    var (waves, rest) :- DecTables(n, s5);
    Ok(Parts(start, end, times, inits, waves.0, waves.1), rest)
  }

  function DecTables(n: nat, s: bytes): (r: Parse<(seq<nat>, bytes)>)
    ensures r.Ok? ==> |r.value.0| == n
  {
    var (size, s1) :- DecByte(s);
    var (positions, s2) :- DecPositions(n, if size == 4 then 4 else 8, s1);
    var (len, s3) :- DecU(s2);
    var (waves, rest) :- DecSlice(len, s3);
    Ok((positions, waves), rest)
  }

  /** `init_values[var_id]`: of equal ids the last one counts. */
  function Lookup(inits: Inits, id: nat): Value {
    if inits == [] then Int(0)
    else if inits[|inits| - 1].0 == id then inits[|inits| - 1].1
    else Lookup(inits[..|inits| - 1], id)
  }

  /** Time places that lie outside the time table raise. */
  function AtTimes(id: nat, es: seq<Entry>, times: seq<nat>): Parse<seq<VcChange>> {
    if forall i :: 0 <= i < |es| ==> es[i].tidx < |times|
    then Ok(seq(|es|, i requires 0 <= i < |es| && es[i].tidx < |times| => VcChange(id, times[es[i].tidx], es[i].value)), [])
    else Fail(Corrupt)
  }

  /** One variable's changes, or its initial value when it has none. */
  function DecVar(mode: WaveMode, xorDelta: bool, sig: Sig, p: Parts, id: nat, pos: nat): Parse<seq<VcChange>> {
    if pos == 0 && p.waves == [] then Ok([VcChange(id, p.start, Lookup(p.inits, id))], [])
    else
      var (es, rest) :- DecStored(mode, sig, xorDelta, From(p.waves, pos));
      if es == [] then Ok([VcChange(id, p.start, Lookup(p.inits, id))], []) else AtTimes(id, es, p.times)
  }

  function DecVars(mode: WaveMode, xorDelta: bool, sigs: SigMap, p: Parts, i: nat): Parse<seq<VcChange>>
    requires |p.positions| == |p.inits| && i <= |p.inits|
    decreases |p.inits| - i
  {
    if i == |p.inits| then Ok([], [])
    else
      var id := p.inits[i].0;
      var (here, none) :- DecVar(mode, xorDelta, SigOf(sigs, id), p, id, p.positions[i]);
      var (more, rest) :- DecVars(mode, xorDelta, sigs, p, i + 1);
      Ok(here + more, rest)
  }

  function ByTimeAndId(a: VcChange, b: VcChange): bool {
    a.time < b.time || (a.time == b.time && a.id <= b.id)
  }

  datatype Decoded = Decoded(start: nat, end: nat, changes: seq<VcChange>)

  /** `data[:-8]`. */
  function WithoutFooter(seekable: bool, data: bytes): bytes {
    if !seekable then data else if |data| < 8 then [] else data[..|data| - 8]
  }

  function DecPayload(c: Codecs, f: Flags, sigs: SigMap, data: bytes): Parse<Decoded> {
    var (p, s1) :- DecParts(c, f, sigs, WithoutFooter(f.seekable, data));
    var (changes, rest) :- DecVars(ModeOf(c, f), f.xorDelta, sigs, p, 0);
    Ok(Decoded(p.start, p.end, S.Sort(changes, ByTimeAndId)), [])
  }

  // ---- Decode inverts encode ----

  /** What the header and the tables of a payload hold. */
  ghost function PartsOf(mode: WaveMode, sigs: SigMap, b: Block): Parts
    requires BlockOk(b, sigs)
  {
    var st := WaveStore(mode, b, sigs);
    Parts(b.start, b.end, Times(b), SeenInits(b, sigs, VarIds(b)), PositionsOf(st, RawWaves(b, sigs, VarIds(b))), st.data)
  }

  /** The lengths that are written down stay below 2^64: that of the wave data, and where the flags ask for
      it those of the waves, of the packed times and of the header. */
  ghost predicate SizesFit(c: Codecs, f: Flags, sigs: SigMap, b: Block)
    requires BlockOk(b, sigs)
  {
    StartsBeforeTimes(b, sigs);
    && |WaveStore(ModeOf(c, f), b, sigs).data| < WORD
    && (ModeOf(c, f).Packed? ==> forall id :: id in VarIds(b) ==> |RawWave(b, sigs, id)| < WORD)
    && (f.timeZlib ==> |c.zlib.pack(EncTimes(Times(b), b.start))| < WORD)
    && (f.seekable ==> |Head(c.zlib, f.timeZlib, sigs, b)| < WORD)
  }

  lemma {:induction false} PutAllBounded(mode: WaveMode, st: Store, raws: seq<bytes>)
    requires forall raw :: raw in st.offsets ==> st.offsets[raw] <= |st.data|
    ensures var st' := PutAll(mode, st, raws);
            |st.data| <= |st'.data| && forall raw :: raw in st'.offsets ==> st'.offsets[raw] <= |st'.data|
    decreases |raws|
  {
    hide Stored;
    if raws != [] {
      PutAllBounded(mode, Put(mode, st, raws[0]), raws[1..]);
    }
  }

  lemma TablesRead(st: Store, raws: seq<bytes>, t: bytes)
    requires |st.data| < WORD && forall i :: 0 <= i < |raws| ==> raws[i] in st.offsets && st.offsets[raws[i]] <= |st.data|
    ensures DecTables(|raws|, EncTables(st, raws) + t) == Ok((PositionsOf(st, raws), st.data), t)
  {
    hide EncU, DecU, EncPositions, DecPositions, Pow2;
    var size, ps := EntrySize(st.data), PositionsOf(st, raws);
    Pow2Values();
    forall i | 0 <= i < |ps|
      ensures ps[i] < Pow2(8 * size)
    {
      assert ps[i] == st.offsets[raws[i]];
    }
    var p, w := EncPositions(size, ps), EncU(|st.data|);
    assert EncTables(st, raws) + t == [size] + (p + (w + (st.data + t)));
    PositionsRead(size, ps, w + (st.data + t));
    URoundTrip(|st.data|, st.data + t);
    SliceRoundTrip(st.data, t);
  }

  lemma AllStored(mode: WaveMode, raws: seq<bytes>)
    ensures var st := PutAll(mode, EMPTY, raws);
            forall i :: 0 <= i < |raws| ==> raws[i] in st.offsets && st.offsets[raws[i]] <= |st.data|
  {
    hide Put, Stored;
    PutAllBounded(mode, EMPTY, raws);
    PutAllKeeps(mode, EMPTY, raws);
    assert forall i :: 0 <= i < |raws| ==> raws[i] in raws;
  }

  lemma HeadReads(c: Codecs, pack: bool, sigs: SigMap, b: Block, t: bytes)
    requires BlockOk(b, sigs) && Lossless(c.zlib) && (Times(b) != [] ==> b.start <= Times(b)[0])
    requires pack ==> |c.zlib.pack(EncTimes(Times(b), b.start))| < WORD
    ensures var s := Head(c.zlib, pack, sigs, b) + t;
            var p := DecLe(8, s);
            p.Ok? && p.value == b.start &&
            var q := DecLe(8, p.rest);
            q.Ok? && q.value == b.end &&
            var r := DecTimeTable(c.zlib, pack, b.start, q.rest);
            r.Ok? && r.value == Times(b) &&
            var n := DecU(r.rest);
            n.Ok? && n.value == |VarIds(b)| &&
            DecInits(|VarIds(b)|, sigs, n.rest) == Ok(SeenInits(b, sigs, VarIds(b)), t)
  {
    hide EncU, DecU, EncLe, DecLe, EncTimeTable, DecTimeTable, EncInits, DecInits, VarIds, Times, EncTimes, SeenInits, Pow2;
    AllIdsOk(b, sigs);
    TimesBelowWord(b, sigs);
    Pow2Values();
    var times, ids := Times(b), VarIds(b);
    assert forall i :: 0 <= i < |times| ==> times[i] in times;
    var x, y, z, u, v := EncLe(8, b.start), EncLe(8, b.end), EncTimeTable(c.zlib, pack, b.start, times),
                         EncU(|ids|), EncInits(b, sigs, ids);
    assert Head(c.zlib, pack, sigs, b) + t == x + (y + (z + (u + (v + t))));
    LeReads(8, b.start, y + (z + (u + (v + t))));
    LeReads(8, b.end, z + (u + (v + t)));
    TimeTableReads(c.zlib, pack, b.start, times, u + (v + t));
    URoundTrip(|ids|, v + t);
    InitsRead(b, sigs, ids, t);
  }

  lemma PartsRead(c: Codecs, f: Flags, sigs: SigMap, b: Block)
    requires CodecsOk(c) && BlockOk(b, sigs) && SizesFit(c, f, sigs, b)
    ensures DecParts(c, f, sigs, WithoutFooter(f.seekable, EncPayload(c, f, sigs, b)))
         == Ok(PartsOf(ModeOf(c, f), sigs, b), [])
  {
    hide Head, EncTables, DecTables, DecLe, EncLe, DecTimeTable, DecU, DecInits, BlockOk, Lossless, Times, VarIds, EncTimes,
         RawWaves, PositionsOf, SeenInits, PutAll;
    var mode := ModeOf(c, f);
    var head, tables := Head(c.zlib, f.timeZlib, sigs, b), Tables(mode, sigs, b);
    var data := EncPayload(c, f, sigs, b);
    assert WithoutFooter(f.seekable, data) == head + tables by {
      if f.seekable {
        assert data[..|data| - 8] == head + tables;
      } else {
        assert data == head + tables;
      }
    }
    StartsBeforeTimes(b, sigs);
    HeadReads(c, f.timeZlib, sigs, b, tables);
    AllStored(mode, RawWaves(b, sigs, VarIds(b)));
    TablesRead(WaveStore(mode, b, sigs), RawWaves(b, sigs, VarIds(b)), []);
    assert tables + [] == tables;
  }

  /** A seekable payload's last eight bytes say where its position table starts. */
  lemma FooterFindsTable(c: Codecs, f: Flags, sigs: SigMap, b: Block)
    requires BlockOk(b, sigs) && SizesFit(c, f, sigs, b) && f.seekable
    ensures var data := EncPayload(c, f, sigs, b);
            |data| >= 8 &&
            var at := LeValue(data[|data| - 8..]);
            at <= |data| && Tables(ModeOf(c, f), sigs, b) <= data[at..]
  {
    hide Head, Tables, BlockOk, EncLe, RawWave, VarIds, Times, EncTimes, WaveStore, Pow2, LeValue;
    var head, tables := Head(c.zlib, f.timeZlib, sigs, b), Tables(ModeOf(c, f), sigs, b);
    var foot := EncLe(8, |head|);
    var data := EncPayload(c, f, sigs, b);
    Pow2Values();
    LeRoundTrip(8, |head|);
    assert data == head + tables + foot;
    assert data[|data| - 8..] == foot;
    assert data[|head|..] == tables + foot;
  }

  // ---- What comes back ----

  /** One variable's share: its changes in time order, or its initial value at the block's start. */
  ghost function ExpectedVar(b: Block, sigs: SigMap, id: nat): (r: seq<VcChange>)
    ensures ChangesOf(b, id) != [] ==> |r| == |ChangesOf(b, id)|
    ensures ChangesOf(b, id) != [] ==> forall i :: 0 <= i < |r| ==>
      r[i] == VcChange(id, InOrder(b, id)[i].time, Seen(SigOf(sigs, id), InOrder(b, id)[i].value))
  {
    var sig, cs := SigOf(sigs, id), InOrder(b, id);
    if ChangesOf(b, id) == [] then [VcChange(id, b.start, SeenInit(sig, InitOf(b, sigs, id)))]
    else seq(|cs|, i requires 0 <= i < |cs| => VcChange(id, cs[i].time, Seen(sig, cs[i].value)))
  }

  ghost function Expected(b: Block, sigs: SigMap, ids: seq<nat>): seq<VcChange> {
    if ids == [] then [] else ExpectedVar(b, sigs, ids[0]) + Expected(b, sigs, ids[1..])
  }

  lemma {:induction false} LookupFinds(inits: Inits, i: nat)
    requires i < |inits| && forall j :: 0 <= j < |inits| && j != i ==> inits[j].0 != inits[i].0
    ensures Lookup(inits, inits[i].0) == inits[i].1
    decreases |inits|
  {
    if i < |inits| - 1 {
      LookupFinds(inits[..|inits| - 1], i);
    }
  }

  /** The wave at a variable's position, turned back into times and values. */
  lemma VarReads(c: Codecs, f: Flags, sigs: SigMap, b: Block, i: nat)
    requires CodecsOk(c) && BlockOk(b, sigs) && SizesFit(c, f, sigs, b) && i < |VarIds(b)|
    ensures var id := VarIds(b)[i];
            var p := PartsOf(ModeOf(c, f), sigs, b);
            DecVar(ModeOf(c, f), true, SigOf(sigs, id), p, id, p.positions[i]) == Ok(ExpectedVar(b, sigs, id), [])
  {
    hide RawWave, BlockOk, Lossless, DecStored, Lookup, EntriesOf, ExpectedVar, SeenInit, Head, EncTimes, Times, SeenInits,
         StoreOk, SizesFit, CodecsOk, VarIds, SigOf, ModeOf, InitOf, WaveStore, RawWaves, PositionsOf, AtTimes;
    var mode := ModeOf(c, f);
    var p, id := PartsOf(mode, sigs, b), VarIds(b)[i];
    var sig, es := SigOf(sigs, id), EntriesOf(b, id);
    VarStored(c, f, sigs, b, i);
    InitFound(b, sigs, i);
    var d := DecStored(mode, sig, true, From(p.waves, p.positions[i]));
    assert d.value == SeenEntries(sig, es);
    if es == [] {
      NoChangesExpected(b, sigs, id);
    } else {
      ChangesExpected(b, sigs, id);
    }
  }

  lemma VarStored(c: Codecs, f: Flags, sigs: SigMap, b: Block, i: nat)
    requires CodecsOk(c) && BlockOk(b, sigs) && SizesFit(c, f, sigs, b) && i < |VarIds(b)|
    ensures var id := VarIds(b)[i];
            var p := PartsOf(ModeOf(c, f), sigs, b);
            p.waves != [] &&
            var d := DecStored(ModeOf(c, f), SigOf(sigs, id), true, From(p.waves, p.positions[i]));
            d.Ok? && d.value == SeenEntries(SigOf(sigs, id), EntriesOf(b, id))
  {
    hide BlockOk, Lossless, DecStored, EntriesOf, Head, EncTimes, Times, SeenInits, StoreOk, Stored, EncWave, PutAll, VarIds,
         RawWave, SigOf, ModeOf;
    var mode := ModeOf(c, f);
    var ids := VarIds(b);
    var id, raws, st := ids[i], RawWaves(b, sigs, ids), WaveStore(mode, b, sigs);
    EmptyStoreOk(mode);
    PutAllKeeps(mode, EMPTY, raws);
    assert raws[i] in raws;
    EntriesFine(b, sigs, id);
    RawIsWave(b, sigs, id);
    ModeIsOk(c, f);
    OffsetReads(mode, st, SigOf(sigs, id), EntriesOf(b, id));
    SomethingStored(mode, st, raws[i]);
  }

  lemma RawIsWave(b: Block, sigs: SigMap, id: nat)
    requires BlockOk(b, sigs) && id in VarIds(b) && EntriesOk(SigOf(sigs, id), EntriesOf(b, id)) && Climbs(EntriesOf(b, id), 0)
    ensures RawWave(b, sigs, id) == EncWave(SigOf(sigs, id), EntriesOf(b, id))
  {
  }

  lemma ModeIsOk(c: Codecs, f: Flags)
    requires CodecsOk(c)
    ensures ModeOk(ModeOf(c, f))
  {
  }

  lemma EmptyStoreOk(mode: WaveMode)
    ensures StoreOk(mode, EMPTY)
  {
  }

  lemma SomethingStored(mode: WaveMode, st: Store, raw: bytes)
    requires StoreOk(mode, st) && raw in st.offsets && |raw| >= 1
    ensures st.data != []
  {
  }

  lemma InitFound(b: Block, sigs: SigMap, i: nat)
    requires i < |VarIds(b)|
    ensures var id := VarIds(b)[i];
            Lookup(SeenInits(b, sigs, VarIds(b)), id) == SeenInit(SigOf(sigs, id), InitOf(b, sigs, id))
  {
    hide Lookup, SeenInit, InitOf, SigOf;
    LookupFinds(SeenInits(b, sigs, VarIds(b)), i);
  }

  lemma NoChangesExpected(b: Block, sigs: SigMap, id: nat)
    requires EntriesOf(b, id) == []
    ensures ExpectedVar(b, sigs, id) == [VcChange(id, b.start, SeenInit(SigOf(sigs, id), InitOf(b, sigs, id)))]
  {
  }

  lemma ChangesExpected(b: Block, sigs: SigMap, id: nat)
    requires EntriesOf(b, id) != []
    ensures AtTimes(id, SeenEntries(SigOf(sigs, id), EntriesOf(b, id)), Times(b)) == Ok(ExpectedVar(b, sigs, id), [])
  {
    hide InOrder, Times, ChangesOf, Seen, EntriesOf;
    var sig, es, cs, times := SigOf(sigs, id), EntriesOf(b, id), InOrder(b, id), Times(b);
    var seen := SeenEntries(sig, es);
    forall i | 0 <= i < |seen|
      ensures seen[i].tidx < |times| && times[seen[i].tidx] == cs[i].time
    {
      assert es[i] == Entry(TimeToIdx(times)[cs[i].time], cs[i].value);
    }
    var r := AtTimes(id, seen, times);
    assert r.Ok? && r.value == ExpectedVar(b, sigs, id);
  }

  lemma {:induction false} VarsRead(c: Codecs, f: Flags, sigs: SigMap, b: Block, i: nat)
    requires CodecsOk(c) && BlockOk(b, sigs) && SizesFit(c, f, sigs, b) && i <= |VarIds(b)|
    ensures DecVars(ModeOf(c, f), true, sigs, PartsOf(ModeOf(c, f), sigs, b), i) == Ok(Expected(b, sigs, VarIds(b)[i..]), [])
    decreases |VarIds(b)| - i
  {
    hide DecVar, ExpectedVar, BlockOk, CodecsOk, SizesFit, WaveStore, PositionsOf, RawWaves, VarIds, Times;
    var ids := VarIds(b);
    if i < |ids| {
      Tail(ids, i);
      VarReads(c, f, sigs, b, i);
      VarsRead(c, f, sigs, b, i + 1);
    }
  }

  /** Decoding a payload gives back what went in: every variable's changes with their values as their
      signal's encoding keeps them, and one initial value for each variable without changes, sorted by
      time and variable. */
  lemma PayloadRoundTrip(c: Codecs, f: Flags, sigs: SigMap, b: Block)
    requires CodecsOk(c) && f.xorDelta && BlockOk(b, sigs) && SizesFit(c, f, sigs, b)
    ensures DecPayload(c, f, sigs, EncPayload(c, f, sigs, b))
         == Ok(Decoded(b.start, b.end, S.Sort(Expected(b, sigs, VarIds(b)), ByTimeAndId)), [])
  {
    hide CodecsOk, BlockOk, SizesFit, EncPayload, DecParts, WithoutFooter, DecVars, Expected, VarIds, WaveStore, PositionsOf, RawWaves;
    PartsRead(c, f, sigs, b);
    VarsRead(c, f, sigs, b, 0);
    assert VarIds(b)[0..] == VarIds(b);
  }
}
