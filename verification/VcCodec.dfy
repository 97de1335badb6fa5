/** The loops of `VcDataBlock` in `python/src/trlog/_vc_data.py`, and the block object itself. */
module VcCodec {
  import opened Bits
  import opened Bytes
  import opened Varint
  import opened Lists
  import opened VcValues
  import opened VcWave
  import opened VcBlock
  import opened VcStore
  import opened VcPayload
  import opened VcDataBlocks
  import S = Sorting

  // ---- Encoding loops ----

  ghost function AllRaws(b: Block, sigs: SigMap): (raws: seq<bytes>)
    requires BlockOk(b, sigs)
    ensures |raws| == |VarIds(b)| && forall i :: 0 <= i < |raws| ==> VarIds(b)[i] in VarIds(b) && raws[i] == RawWave(b, sigs, VarIds(b)[i])
  {
    RawWaves(b, sigs, VarIds(b))
  }

  /** One wave a variable, in the order of the ids.  Raises exactly when some variable changes twice at
      one time. */
  method WriteWaves(b: Block, sigs: SigMap, ids: seq<nat>, timeToIdx: map<nat, nat>) returns (r: Option<seq<bytes>>)
    requires Fits(b, sigs) && ids == VarIds(b) && timeToIdx == TimeToIdx(Times(b))
    ensures r.Some? <==> NoneTwice(b)
    ensures r.Some? && BlockOk(b, sigs) ==> r.value == AllRaws(b, sigs)
  {
    hide BlockOk, Fits, EncWave, Climbs, EntriesOk, InOrder, Times, SigOf, VarIds, DistinctTimes, ChangesOf, AllRaws;
    var raws: seq<bytes> := [];
    for i := 0 to |ids|
      invariant |raws| == i && forall k :: 0 <= k < i ==> DistinctTimes(ChangesOf(b, ids[k]))
      invariant BlockOk(b, sigs) ==> forall k :: 0 <= k < i ==> raws[k] == AllRaws(b, sigs)[k]
    {
      IdIn(b, i);
      EntriesFit(b, sigs, ids[i]);
      ClimbsExactly(b, ids[i]);
      InOrderPlaced(b, ids[i]);
      EntriesArePlaces(b, ids[i]);
      var raw := EncodeWave(InOrder(b, ids[i]), SigOf(sigs, ids[i]), timeToIdx);
      if raw.None? {
        return None;
      }
      raws := raws + [raw.value];
    }
    r := Some(raws);
  }

  lemma EntriesArePlaces(b: Block, id: nat)
    requires Placed(InOrder(b, id), TimeToIdx(Times(b)))
    ensures EntriesOf(b, id) == Places(InOrder(b, id), TimeToIdx(Times(b)))
  {
  }

  /** Waves seen before are not stored again. */
  method StoreWaves(mode: WaveMode, raws: seq<bytes>) returns (st: Store, positions: seq<nat>)
    ensures st == PutAll(mode, EMPTY, raws) && positions == PositionsOf(st, raws)
  {
    hide PutAll, Stored, StoreOk;
    var data: bytes, offsets: map<bytes, nat> := [], map[];
    positions := [];
    PutNothing(mode);
    for i := 0 to |raws|
      invariant Store(data, offsets) == PutAll(mode, EMPTY, raws[..i]) && |positions| == i
      invariant forall k :: 0 <= k < i ==> raws[k] in offsets && positions[k] == offsets[raws[k]]
    {
      assert raws[..i + 1][..i] == raws[..i] && raws[..i + 1][i] == raws[i];
      PutAllSnoc(mode, EMPTY, raws[..i + 1]);
      var raw := raws[i];
      if raw in offsets {
        positions := positions + [offsets[raw]];
      } else {
        positions := positions + [|data|];
        offsets := offsets[raw := |data|];
        data := data + Stored(mode, raw);
      }
    }
    assert raws[..|raws|] == raws;
    st := Store(data, offsets);
  }

  /** Raises exactly when the first time is before the start. */
  method WriteTimes(zlib: Compressor, pack: bool, start: nat, times: seq<nat>) returns (r: Option<bytes>)
    requires Rising(times)
    ensures r.Some? <==> times == [] || start <= times[0]
    ensures r.Some? ==> r.value == EncTimeTable(zlib, pack, start, times)
  {
    hide EncU;
    var deltas: bytes, prev := [], start;
    assert times[0..] == times;
    if times != [] && times[0] < start {
      return None;
    }
    for i := 0 to |times|
      invariant Rising(times[i..]) && (i < |times| ==> prev <= times[i])
      invariant EncTimes(times, start) == deltas + EncTimes(times[i..], prev)
    {
      Tail(times, i);
      assert (deltas + EncU(times[i] - prev)) + EncTimes(times[i + 1..], times[i])
          == deltas + (EncU(times[i] - prev) + EncTimes(times[i + 1..], times[i]));
      deltas := deltas + EncU(times[i] - prev);
      prev := times[i];
    }
    assert deltas == EncTimes(times, start);
    var out := EncU(|times|);
    if pack && times != [] {
      var packed := zlib.pack(deltas);
      out := out + (EncU(|packed|) + packed);
    } else {
      out := out + deltas;
    }
    r := Some(out);
  }

  /** The bytes of one initial value. */
  method WriteInit(sig: Sig, v: Value) returns (out: bytes)
    requires InitOk(sig, v)
    ensures out == EncInit(sig, v)
  {
    hide EncU, EncBe, PackFour, PackNine, FourCodes, NineCodes, Pow2;
    match sig.enc {
      case TwoState => out := EncU(sig.width) + EncBe(ByteCount(sig.width), v.n);
      case BitVec => out := EncU(sig.width) + EncBe(ByteCount(sig.width), v.n);
      case FourState =>
        var packed := Pack4State(v, sig.width);
        out := EncU(sig.width) + packed;
      case NineState =>
        var packed := Pack9State(v, sig.width);
        out := EncU(sig.width) + packed;
      case Real => out := v.raw;
      case Analog => out := v.raw;
      case Str => out := EncU(|v.utf8|) + v.utf8;
    }
  }

  method WriteInits(b: Block, sigs: SigMap, ids: seq<nat>) returns (out: bytes)
    requires IdsOk(b, sigs, ids)
    ensures out == EncU(|ids|) + EncInits(b, sigs, ids)
  {
    hide EncU, EncInit, InitOk, SigOf, InitOf, ChangesOf, ChangeOk;
    out := EncU(|ids|);
    ghost var whole := out + EncInits(b, sigs, ids);
    assert ids[0..] == ids;
    for i := 0 to |ids|
      invariant IdsOk(b, sigs, ids[i..]) && whole == out + EncInits(b, sigs, ids[i..])
    {
      Tail(ids, i);
      assert VarOk(b, sigs, ids[i]);
      var v := WriteInit(SigOf(sigs, ids[i]), InitOf(b, sigs, ids[i]));
      ghost var more := EncInits(b, sigs, ids[i + 1..]);
      assert ((out + EncU(ids[i])) + v) + more == out + (EncU(ids[i]) + (v + more));
      out := out + EncU(ids[i]);
      out := out + v;
    }
    assert EncInits(b, sigs, ids[|ids|..]) == [];
  }

  method WritePositions(size: nat, ps: seq<nat>) returns (out: bytes)
    ensures out == EncPositions(size, ps)
  {
    hide EncLe;
    out := [];
    assert ps[0..] == ps;
    for i := 0 to |ps|
      invariant EncPositions(size, ps) == out + EncPositions(size, ps[i..])
    {
      Tail(ps, i);
      assert (out + EncLe(size, ps[i])) + EncPositions(size, ps[i + 1..]) == out + (EncLe(size, ps[i]) + EncPositions(size, ps[i + 1..]));
      out := out + EncLe(size, ps[i]);
    }
  }

  method WriteTables(st: Store, raws: seq<bytes>, positions: seq<nat>) returns (out: bytes)
    requires positions == PositionsOf(st, raws)
    ensures out == EncTables(st, raws)
  {
    hide EncU, EncPositions;
    var size: byte := if |st.data| < 0x1_0000_0000 then 4 else 8;
    var table := WritePositions(size, positions);
    out := [size] + table;
    out := out + EncU(|st.data|);
    out := out + st.data;
    assert out == [size] + (table + (EncU(|st.data|) + st.data));
  }

  /** Raises exactly when some change is before the start of the block. */
  method WriteHead(c: Codecs, f: Flags, sigs: SigMap, b: Block, times: seq<nat>, ids: seq<nat>) returns (r: Option<bytes>)
    requires Fits(b, sigs) && times == Times(b) && ids == VarIds(b)
    requires NoneTwice(b)
    ensures r.Some? <==> NoneEarly(b)
    ensures r.Some? ==> BlockOk(b, sigs) && r.value == Head(c.zlib, f.timeZlib, sigs, b)
  {
    hide EncU, EncLe, EncTimeTable, EncInits, Times, VarIds, Fits, BlockOk, NoneTwice, NoneEarly;
    var out := EncLe(8, b.start) + EncLe(8, b.end);
    EarlyExactly(b);
    TimesRise(b);
    var table := WriteTimes(c.zlib, f.timeZlib, b.start, times);
    if table.None? {
      return None;
    }
    OkIfTimely(b, sigs);
    AllIdsOk(b, sigs);
    var inits := WriteInits(b, sigs, ids);
    assert (out + table.value) + inits == EncLe(8, b.start) + (EncLe(8, b.end) + (table.value + inits));
    r := Some((out + table.value) + inits);
  }

  lemma TimesRise(b: Block)
    ensures Rising(Times(b))
  {
  }

  // ---- Decoding loops ----

  method ReadTimes(n: nat, s: bytes, start: nat) returns (r: Parse<seq<nat>>)
    ensures r == DecTimes(n, s, start)
  {
    hide DecU;
    var rest, prev: nat, times: seq<nat> := s, start, [];
    BehindTwice([], [], DecTimes(n, s, start));
    for i := 0 to n
      invariant DecTimes(n, s, start) == Behind(times, DecTimes(n - i, rest, prev))
    {
      match DecU(rest) {
        case Fail(fault) => return Fail(fault);
        case Ok(delta, more) =>
          BehindTwice(times, [prev + delta], DecTimes(n - i - 1, more, prev + delta));
          prev := prev + delta;
          times := times + [prev];
          rest := more;
      }
    }
    assert times + [] == times;
    r := Ok(times, rest);
  }

  method ReadTimeTable(zlib: Compressor, packed: bool, start: nat, s: bytes) returns (r: Parse<seq<nat>>)
    ensures r == DecTimeTable(zlib, packed, start, s)
  {
    hide DecU, DecTimes;
    var n :- DecU(s);
    if packed && n.0 > 0 {
      var size :- DecU(n.1);
      var cut := DecSlice(size.0, size.1);
      match zlib.unpack(cut.value) {
        case None => r := Fail(Corrupt);
        case Some(deltas) =>
          var times := ReadTimes(n.0, deltas, start);
          r := match times case Fail(fault) => Fail(fault) case Ok(ts, _) => Ok(ts, cut.rest);
      }
    } else {
      r := ReadTimes(n.0, n.1, start);
    }
  }

  method ReadInit(sig: Sig, s: bytes) returns (r: Parse<Value>)
    ensures r == DecInit(sig, s)
  {
    hide DecU, UnpackFour, UnpackNine, FourResult, NineResult, BeValue;
    match sig.enc {
      case Real => r := DecDouble(s);
      case Analog => r := DecDouble(s);
      case Str => r := DecText(s);
      case FourState =>
        var width :- DecU(s);
        var cut := DecSlice(FourSize(width.0), width.1);
        var v := Unpack4State(cut.value, width.0);
        r := match v case Fail(fault) => Fail(fault) case Ok(value, _) => Ok(value, cut.rest);
      case NineState =>
        var width :- DecU(s);
        var cut := DecSlice(NineSize(width.0), width.1);
        var v := Unpack9State(cut.value, width.0);
        r := match v case Fail(fault) => Fail(fault) case Ok(value, _) => Ok(value, cut.rest);
      case _ =>
        var width :- DecU(s);
        r := DecBytes(width.0, width.1);
    }
  }

  method ReadInits(n: nat, sigs: SigMap, s: bytes) returns (r: Parse<Inits>)
    ensures r == DecInits(n, sigs, s)
  {
    hide DecU, DecInit;
    var rest, inits: Inits := s, [];
    BehindTwice([], [], DecInits(n, sigs, s));
    for i := 0 to n
      invariant DecInits(n, sigs, s) == Behind(inits, DecInits(n - i, sigs, rest))
    {
      var id :- DecU(rest);
      var v := ReadInit(SigOf(sigs, id.0), id.1);
      match v {
        case Fail(fault) => return Fail(fault);
        case Ok(value, more) =>
          BehindTwice(inits, [(id.0, value)], DecInits(n - i - 1, sigs, more));
          inits := inits + [(id.0, value)];
          rest := more;
      }
    }
    assert inits + [] == inits;
    r := Ok(inits, rest);
  }

  method ReadPositions(n: nat, size: nat, s: bytes) returns (r: Parse<seq<nat>>)
    ensures r == DecPositions(n, size, s)
  {
    hide DecLe;
    var rest, ps: seq<nat> := s, [];
    BehindTwice([], [], DecPositions(n, size, s));
    for i := 0 to n
      invariant DecPositions(n, size, s) == Behind(ps, DecPositions(n - i, size, rest))
    {
      var p :- DecLe(size, rest);
      BehindTwice(ps, [p.0], DecPositions(n - i - 1, size, p.1));
      ps := ps + [p.0];
      rest := p.1;
    }
    assert ps + [] == ps;
    r := Ok(ps, rest);
  }

  method ReadVar(mode: WaveMode, xorDelta: bool, sig: Sig, p: Parts, id: nat, pos: nat) returns (r: Parse<seq<VcChange>>)
    ensures r == DecVar(mode, xorDelta, sig, p, id, pos)
  {
    hide DecStored, Lookup;
    if pos == 0 && p.waves == [] {
      return Ok([VcChange(id, p.start, Lookup(p.inits, id))], []);
    }
    var wave := ReadStored(mode, sig, xorDelta, From(p.waves, pos));
    match wave {
      case Fail(fault) => r := Fail(fault);
      case Ok(es, _) =>
        if es == [] {
          return Ok([VcChange(id, p.start, Lookup(p.inits, id))], []);
        }
        var changes: seq<VcChange> := [];
        for i := 0 to |es|
          invariant |changes| == i
          invariant forall k :: 0 <= k < i ==> es[k].tidx < |p.times| && changes[k] == VcChange(id, p.times[es[k].tidx], es[k].value)
        {
          if es[i].tidx >= |p.times| {
            return Fail(Corrupt);
          }
          changes := changes + [VcChange(id, p.times[es[i].tidx], es[i].value)];
        }
        assert AtTimes(id, es, p.times).Ok? && AtTimes(id, es, p.times).value == changes;
        r := Ok(changes, []);
    }
  }

  method ReadStored(mode: WaveMode, sig: Sig, xorDelta: bool, s: bytes) returns (r: Parse<seq<Entry>>)
    ensures r == DecStored(mode, sig, xorDelta, s)
  {
    hide DecU, DecWave;
    if mode.PlainWaves? {
      r := DecodeWave(s, sig, xorDelta);
      return;
    }
    var flag :- DecByte(s);
    if flag.0 != 1 {
      r := DecodeWave(flag.1, sig, xorDelta);
    } else {
      var size :- DecU(flag.1);
      var n :- DecU(size.1);
      var cut := DecSlice(n.0, n.1);
      match Unpacked(mode.zip, cut.value, size.0) {
        case None => r := Fail(Corrupt);
        case Some(raw) => r := DecodeWave(raw, sig, xorDelta);
      }
    }
  }

  method ReadVars(mode: WaveMode, xorDelta: bool, sigs: SigMap, p: Parts) returns (r: Parse<seq<VcChange>>)
    requires |p.positions| == |p.inits|
    ensures r.Ok? <==> DecVars(mode, xorDelta, sigs, p, 0).Ok?
    ensures r.Ok? ==> r.value == DecVars(mode, xorDelta, sigs, p, 0).value
    ensures r.Fail? ==> r == DecVars(mode, xorDelta, sigs, p, 0)
  {
    hide DecVar;
    var changes: seq<VcChange> := [];
    BehindTwice([], [], DecVars(mode, xorDelta, sigs, p, 0));
    for i := 0 to |p.inits|
      invariant DecVars(mode, xorDelta, sigs, p, 0) == Behind(changes, DecVars(mode, xorDelta, sigs, p, i))
    {
      var id := p.inits[i].0;
      var here := ReadVar(mode, xorDelta, SigOf(sigs, id), p, id, p.positions[i]);
      match here {
        case Fail(fault) => return Fail(fault);
        case Ok(cs, _) =>
          BehindTwice(changes, cs, DecVars(mode, xorDelta, sigs, p, i + 1));
          changes := changes + cs;
      }
    }
    assert changes + [] == changes;
    r := Ok(changes, []);
  }

  method ReadParts(c: Codecs, f: Flags, sigs: SigMap, s: bytes) returns (r: Parse<Parts>)
    ensures r == DecParts(c, f, sigs, s)
  {
    hide DecLe, DecU, DecTimeTable, DecInits, DecPositions;
    var start :- DecLe(8, s);
    var end :- DecLe(8, start.1);
    var times := ReadTimeTable(c.zlib, f.timeZlib, start.0, end.1);
    if times.Fail? {
      return Fail(times.fault);
    }
    var n :- DecU(times.rest);
    var inits := ReadInits(n.0, sigs, n.1);
    if inits.Fail? {
      return Fail(inits.fault);
    }
    var size :- DecByte(inits.rest);
    var positions := ReadPositions(n.0, if size.0 == 4 then 4 else 8, size.1);
    if positions.Fail? {
      return Fail(positions.fault);
    }
    var len :- DecU(positions.rest);
    var waves := DecSlice(len.0, len.1);
    r := Ok(Parts(start.0, end.0, times.value, inits.value, positions.value, waves.value), waves.rest);
  }

  // ---- The block object ----

  class VcDataBlock {
    var startTime: nat
    var endTime: nat
    var sigTypes: SigMap
    const options: Options
    const codecs: Codecs
    var changes: map<nat, seq<Change>>
    var initValues: map<nat, Value>

    constructor (start: nat, sigs: SigMap, options: Options, codecs: Codecs)
      ensures Now() == Block(start, start, map[], map[]) && RangeOk(Now())
      ensures sigTypes == sigs && this.options == options && this.codecs == codecs
    {
      startTime, endTime, sigTypes, this.options, this.codecs := start, start, sigs, options, codecs;
      changes, initValues := map[], map[];
    }

    function Now(): Block
      reads this
    {
      Block(startTime, endTime, changes, initValues)
    }

    method SetInitial(id: nat, value: Value)
      modifies this
      ensures Now() == old(Now()).(init := old(initValues)[id := value]) && sigTypes == old(sigTypes)
      ensures RangeOk(old(Now())) ==> RangeOk(Now())
    {
      initValues := initValues[id := value];
      assert TimeSet(Now()) == TimeSet(old(Now()));
    }

    /** A variable's first change also gives its initial value, unless one has been set. */
    method AddChange(id: nat, time: nat, value: Value)
      modifies this
      ensures Now() == Added(old(Now()), id, time, value) && sigTypes == old(sigTypes)
      ensures RangeOk(old(Now())) ==> RangeOk(Now())
    {
      if RangeOk(Now()) {
        AddedKeepsRange(Now(), id, time, value);
      }
      if time > endTime {
        endTime := time;
      }
      changes := changes[id := (if id in changes then changes[id] else []) + [Change(time, value)]];
      if id !in initValues {
        initValues := initValues[id := value];
      }
    }

    /** Raises exactly when a variable changes twice at one time, or before the start of the block. */
    method EncodePayload(f: Flags) returns (r: Option<bytes>)
      requires Fits(Now(), sigTypes)
      ensures r.Some? <==> NoneTwice(Now()) && NoneEarly(Now())
      ensures r.Some? ==> BlockOk(Now(), sigTypes) && r.value == EncPayload(codecs, f, sigTypes, Now())
    {
      hide BlockOk, Fits, Head, EncTables, RawWaves, EncLe, Times, VarIds, PutAll, NoneTwice, NoneEarly;
      ghost var b := Now();
      var times, ids := Times(Now()), VarIds(Now());
      OkIfTimely(b, sigTypes);
      var raws := WriteWaves(Now(), sigTypes, ids, TimeToIdx(times));
      if raws.None? {
        return None;
      }
      var st, positions := StoreWaves(ModeOf(codecs, f), raws.value);
      var head := WriteHead(codecs, f, sigTypes, Now(), times, ids);
      if head.None? {
        return None;
      }
      var tables := WriteTables(st, raws.value, positions);
      var out := head.value + tables;
      if f.seekable {
        out := out + EncLe(8, |head.value|);
      } else {
        assert out + [] == out;
      }
      r := Some(out);
    }

    method EncodeBlock() returns (f: Flags, payload: Option<bytes>)
      requires Fits(Now(), sigTypes)
      ensures payload.Some? <==> NoneTwice(Now()) && NoneEarly(Now())
      ensures payload.Some? ==> BlockOk(Now(), sigTypes) && (f, payload.value) == EncBlock(codecs, options, sigTypes, Now())
    {
      hide BlockOk, Fits, EncPayload, NoneTwice, NoneEarly;
      f := SubFlags(options);
      payload := EncodePayload(f);
      if options.compress && payload.Some? {
        var inner := payload.value;
        payload := Some(if options.zstd then codecs.zstd.pack(inner) else codecs.zlib.pack(inner));
        f := f.(compressed := true, zstd := options.zstd);
      }
    }

    /** Reading takes the block's range from the payload. */
    method DecodePayload(f: Flags, data: bytes) returns (r: Parse<Decoded>)
      modifies this
      ensures r == DecPayload(codecs, f, sigTypes, data) && sigTypes == old(sigTypes)
      ensures r.Ok? ==> startTime == r.value.start && endTime == r.value.end
      ensures changes == old(changes) && initValues == old(initValues)
    {
      hide DecParts, DecVars;
      var p := ReadParts(codecs, f, sigTypes, WithoutFooter(f.seekable, data));
      if p.Fail? {
        return Fail(p.fault);
      }
      startTime, endTime := p.value.start, p.value.end;
      var list := ReadVars(ModeOf(codecs, f), f.xorDelta, sigTypes, p.value);
      if list.Fail? {
        return Fail(list.fault);
      }
      r := Ok(Decoded(startTime, endTime, S.Sort(list.value, ByTimeAndId)), []);
    }

    method ReadBlock(f: Flags, payload: bytes, sigs: Option<SigMap>) returns (r: Parse<Decoded>)
      modifies this
      ensures sigTypes == (if sigs.Some? then sigs.value else old(sigTypes))
      ensures r == DecBlock(codecs, sigTypes, f, payload)
    {
      hide DecPayload;
      if sigs.Some? {
        sigTypes := sigs.value;
      }
      if f.compressed {
        var inner := if f.zstd then codecs.zstd.unpack(payload) else codecs.zlib.unpack(payload);
        if inner.None? {
          return Fail(Corrupt);
        }
        r := DecodePayload(Stripped(f), inner.value);
      } else {
        r := DecodePayload(f, payload);
      }
    }
  }
}
