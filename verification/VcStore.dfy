/** Wave data of a block: how a wave is stored, and the copies that variables share
    (`_compress_wave_entry`, the deduplication in `_encode_payload`, and the front of `_decode_wave` of
    `python/src/trlog/_vc_data.py`).  Waves are looked up by content, as a collision-free MD5 would. */
module VcStore {
  import opened Bytes
  import opened Varint
  import opened VcValues
  import opened VcWave
  import opened VcBlock

  datatype WaveMode = PlainWaves | Packed(zip: Option<Compressor>)

  function ModeOf(c: Codecs, f: Flags): WaveMode {
    if f.waveZlib then Packed(Some(c.zlib)) else if f.waveLz4 then Packed(c.lz4) else PlainWaves
  }

  ghost predicate ModeOk(mode: WaveMode) {
    mode.Packed? && mode.zip.Some? ==> Lossless(mode.zip.value)
  }

  // ---- One stored wave ----

  /** With per-wave compression a flag byte says whether compressing was worth it. */
  function Stored(mode: WaveMode, raw: bytes): bytes {
    match mode
    case PlainWaves => raw
    case Packed(None) => [0] + raw
    case Packed(Some(c)) =>
      var packed := c.pack(raw);
      if |packed| + 2 < |raw| then [1] + (EncU(|raw|) + (EncU(|packed|) + packed)) else [0] + raw
  }

  function Unpacked(zip: Option<Compressor>, packed: bytes, size: nat): Option<bytes> {
    match zip
    case None => None
    case Some(c) =>
      match c.unpack(packed)
      case None => None
      case Some(raw) => if |raw| == size then Some(raw) else None
  }

  function DecStored(mode: WaveMode, sig: Sig, xorDelta: bool, s: bytes): Parse<seq<Entry>> {
    if mode.PlainWaves? then DecWave(sig, xorDelta, s)
    else
      var (flag, s1) :- DecByte(s);
      if flag != 1 then DecWave(sig, xorDelta, s1)
      else
        var (size, s2) :- DecU(s1);
        var (n, s3) :- DecU(s2);
        var (packed, rest) :- DecSlice(n, s3);
        match Unpacked(mode.zip, packed, size)
        case None => Fail(Corrupt)
        case Some(raw) => DecWave(sig, xorDelta, raw)
  }

  /** A stored wave reads back as its changes, whatever bytes follow it. */
  lemma StoredReads(mode: WaveMode, sig: Sig, es: seq<Entry>, t: bytes)
    requires ModeOk(mode) && EntriesOk(sig, es) && Climbs(es, 0) && (mode.Packed? ==> |EncWave(sig, es)| < WORD)
    ensures var p := DecStored(mode, sig, true, Stored(mode, EncWave(sig, es)) + t);
            p.Ok? && p.value == SeenEntries(sig, es)
  {
    hide EncU, DecU, EncWave, DecWave, EntriesOk, Climbs, SeenEntries;
    var raw := EncWave(sig, es);
    WaveRoundTrip(sig, es, t);
    if mode.Packed? {
      assert ([0] + raw) + t == [0] + (raw + t);
      if mode.zip.Some? && |mode.zip.value.pack(raw)| + 2 < |raw| {
        WaveRoundTrip(sig, es, []);
        assert raw + [] == raw;
        PackedReads(mode.zip.value, raw, t);
      }
    }
  }

  lemma PackedReads(c: Compressor, raw: bytes, t: bytes)
    requires Lossless(c) && |c.pack(raw)| < |raw| < WORD
    ensures var packed := c.pack(raw);
            var s := EncU(|raw|) + (EncU(|packed|) + packed);
            var whole := ([1] + s) + t;
            whole[0] == 1 && whole[1..] == EncU(|raw|) + (EncU(|packed|) + (packed + t)) &&
            DecU(whole[1..]) == Ok(|raw|, EncU(|packed|) + (packed + t)) &&
            DecU(EncU(|packed|) + (packed + t)) == Ok(|packed|, packed + t) &&
            DecSlice(|packed|, packed + t) == Ok(packed, t) && c.unpack(packed) == Some(raw)
  {
    hide EncU, DecU;
    var packed := c.pack(raw);
    var s := EncU(|raw|) + (EncU(|packed|) + packed);
    assert (([1] + s) + t)[1..] == EncU(|raw|) + (EncU(|packed|) + (packed + t));
    URoundTrip(|raw|, EncU(|packed|) + (packed + t));
    URoundTrip(|packed|, packed + t);
    SliceRoundTrip(packed, t);
  }

  // ---- Shared copies ----

  datatype Store = Store(data: bytes, offsets: map<bytes, nat>)

  const EMPTY: Store := Store([], map[])

  function Put(mode: WaveMode, st: Store, raw: bytes): Store {
    if raw in st.offsets then st else Store(st.data + Stored(mode, raw), st.offsets[raw := |st.data|])
  }

  function PutAll(mode: WaveMode, st: Store, raws: seq<bytes>): Store
    decreases |raws|
  {
    if raws == [] then st else PutAll(mode, Put(mode, st, raws[0]), raws[1..])
  }

  /** Every stored wave stands at its offset. */
  ghost predicate StoreOk(mode: WaveMode, st: Store) {
    forall raw :: raw in st.offsets ==> st.offsets[raw] <= |st.data| && Stored(mode, raw) <= st.data[st.offsets[raw]..]
  }

  lemma PutKeeps(mode: WaveMode, st: Store, raw: bytes)
    requires StoreOk(mode, st)
    ensures StoreOk(mode, Put(mode, st, raw))
  {
    hide Stored;
    var st' := Put(mode, st, raw);
    forall r | r in st'.offsets
      ensures st'.offsets[r] <= |st'.data| && Stored(mode, r) <= st'.data[st'.offsets[r]..]
    {
      if r in st.offsets {
        assert raw !in st.offsets ==> st'.data[st.offsets[r]..] == st.data[st.offsets[r]..] + Stored(mode, raw);
      } else {
        assert st'.data[|st.data|..] == Stored(mode, raw);
      }
    }
  }

  /** In the end every variable's position leads to its own wave, shared or not. */
  lemma {:induction false} PutAllKeeps(mode: WaveMode, st: Store, raws: seq<bytes>)
    requires StoreOk(mode, st)
    ensures StoreOk(mode, PutAll(mode, st, raws))
    ensures forall raw :: raw in st.offsets || raw in raws ==> raw in PutAll(mode, st, raws).offsets
    ensures forall raw :: raw in st.offsets ==> PutAll(mode, st, raws).offsets[raw] == st.offsets[raw]
    decreases |raws|
  {
    hide StoreOk, Stored;
    if raws != [] {
      PutKeeps(mode, st, raws[0]);
      PutAllKeeps(mode, Put(mode, st, raws[0]), raws[1..]);
      assert forall raw :: raw in raws ==> raw == raws[0] || raw in raws[1..];
    }
  }

  function Concat(mode: WaveMode, raws: seq<bytes>): bytes {
    if raws == [] then [] else Concat(mode, raws[..|raws| - 1]) + Stored(mode, raws[|raws| - 1])
  }

  /** The waves in the order in which each first appeared. */
  function Firsts(raws: seq<bytes>): seq<bytes> {
    if raws == [] then []
    else
      var init, last := Firsts(raws[..|raws| - 1]), raws[|raws| - 1];
      if last in raws[..|raws| - 1] then init else init + [last]
  }

  lemma {:induction false} PutAllSnoc(mode: WaveMode, st: Store, raws: seq<bytes>)
    requires raws != []
    ensures PutAll(mode, st, raws) == Put(mode, PutAll(mode, st, raws[..|raws| - 1]), raws[|raws| - 1])
    decreases |raws|
  {
    if |raws| > 1 {
      var init := raws[..|raws| - 1];
      PutAllSnoc(mode, Put(mode, st, raws[0]), raws[1..]);
      assert raws[1..][..|raws| - 2] == init[1..];
    }
  }

  /** The wave data is one copy of each distinct wave and nothing else. */
  lemma {:induction false} OneCopyEach(mode: WaveMode, raws: seq<bytes>)
    ensures PutAll(mode, EMPTY, raws).data == Concat(mode, Firsts(raws))
    ensures forall raw :: raw in PutAll(mode, EMPTY, raws).offsets <==> raw in raws
    ensures forall i, j :: 0 <= i < j < |Firsts(raws)| ==> Firsts(raws)[i] != Firsts(raws)[j]
    ensures forall raw :: raw in Firsts(raws) <==> raw in raws
    decreases |raws|
  {
    hide Stored, PutAll;
    if raws == [] {
      PutNothing(mode);
    } else {
      var init, last := raws[..|raws| - 1], raws[|raws| - 1];
      OneCopyEach(mode, init);
      PutAllSnoc(mode, EMPTY, raws);
      assert forall raw :: raw in raws <==> raw in init || raw == last;
      if last !in init {
        var all := Firsts(init) + [last];
        assert Firsts(raws) == all && all[..|all| - 1] == Firsts(init);
      }
    }
  }

  lemma PutNothing(mode: WaveMode)
    ensures PutAll(mode, EMPTY, []) == EMPTY
  {
  }

  /** Reading at a wave's offset finds the wave. */
  lemma OffsetReads(mode: WaveMode, st: Store, sig: Sig, es: seq<Entry>)
    requires ModeOk(mode) && StoreOk(mode, st) && EntriesOk(sig, es) && Climbs(es, 0)
    requires (mode.Packed? ==> |EncWave(sig, es)| < WORD) && EncWave(sig, es) in st.offsets
    ensures var p := DecStored(mode, sig, true, From(st.data, st.offsets[EncWave(sig, es)]));
            p.Ok? && p.value == SeenEntries(sig, es)
  {
    hide EncWave, Stored, DecStored, EntriesOk, Climbs;
    var raw := EncWave(sig, es);
    var here := From(st.data, st.offsets[raw]);
    var stored := Stored(mode, raw);
    assert here == stored + here[|stored|..];
    StoredReads(mode, sig, es, here[|stored|..]);
  }
}
