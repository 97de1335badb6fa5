/** The value-change block of the byte-split codec: `BytesplitBlock` of
    `python/src/trlog/_bytesplit.py`. */
module BytesplitBlocks {
  import opened Bits
  import opened Bytes
  import opened Varint
  import opened Lists
  import opened VcValues
  import opened VcWave
  import opened VcBlock
  import opened ByteSplit

  // ---- Values of fixed width ----

  /** `_value_width` raises for every other encoding. */
  predicate Supported(sig: Sig) {
    sig.enc == Real || sig.enc == TwoState
  }

  function KindOf(sig: Sig): byte {
    if sig.enc == Real then 1 else 0
  }

  function WidthOf(sig: Sig): (w: nat)
    ensures w >= 1
  {
    if sig.enc == Real then 8 else (AtLeastOne(sig.width) + 7) / 8
  }

  ghost predicate CellOk(sig: Sig, v: Value) {
    Supported(sig) && if sig.enc == Real then v.Dbl? && |v.raw| == 8 else v.Int? && 0 <= v.n < Pow2(8 * WidthOf(sig))
  }

  ghost predicate CellsOk(sig: Sig, cs: seq<Change>) {
    Supported(sig) && forall i :: 0 <= i < |cs| ==> CellOk(sig, cs[i].value)
  }

  ghost function EncCell(sig: Sig, v: Value): (s: bytes)
    requires CellOk(sig, v)
    ensures |s| == WidthOf(sig)
  {
    if sig.enc == Real then v.raw else EncLe(WidthOf(sig), v.n)
  }

  ghost function EncCells(sig: Sig, cs: seq<Change>): bytes
    requires CellsOk(sig, cs)
  {
    if cs == [] then []
    else assert CellOk(sig, cs[0].value); EncCell(sig, cs[0].value) + EncCells(sig, cs[1..])
  }

  /** A double must have its eight bytes; an integer is read from whatever is there. */
  function DecCell(kind: byte, raw: bytes): Option<Value> {
    if kind == 1 then (if |raw| == 8 then Some(Dbl(raw)) else None) else Some(Int(LeValue(raw)))
  }

  /** The cells of the remaining times, `raw` being what is left of the values. */
  function DecCells(id: nat, kind: byte, width: nat, times: seq<nat>, raw: bytes): Option<seq<VcChange>> {
    if times == [] then Some([])
    else
      var cut := DecSlice(width, raw);
      match DecCell(kind, cut.value)
      case None => None
      case Some(v) =>
        match DecCells(id, kind, width, times[1..], cut.rest)
        case None => None
        case Some(more) => Some([VcChange(id, times[0], v)] + more)
  }

  function ShowVar(id: nat, cs: seq<Change>): (r: seq<VcChange>)
    ensures |r| == |cs| && forall i :: 0 <= i < |cs| ==> r[i] == VcChange(id, cs[i].time, cs[i].value)
  {
    seq(|cs|, i requires 0 <= i < |cs| => VcChange(id, cs[i].time, cs[i].value))
  }

  function TimesOf(cs: seq<Change>): (r: seq<nat>)
    ensures |r| == |cs| && forall i :: 0 <= i < |cs| ==> r[i] == cs[i].time
  {
    seq(|cs|, i requires 0 <= i < |cs| => cs[i].time)
  }

  lemma CellReads(sig: Sig, v: Value)
    requires CellOk(sig, v)
    ensures DecCell(KindOf(sig), EncCell(sig, v)) == Some(v)
  {
    hide LeValue, EncLe, Pow2;
    if sig.enc != Real {
      LeRoundTrip(WidthOf(sig), v.n);
    }
  }

  lemma {:induction false} CellsRead(sig: Sig, id: nat, cs: seq<Change>)
    requires CellsOk(sig, cs)
    ensures DecCells(id, KindOf(sig), WidthOf(sig), TimesOf(cs), EncCells(sig, cs)) == Some(ShowVar(id, cs))
    decreases |cs|
  {
    hide CellOk, EncCell, DecCell, KindOf, WidthOf, DecSlice, TimesOf, ShowVar, Supported;
    if cs != [] {
      assert CellOk(sig, cs[0].value);
      var a, b := EncCell(sig, cs[0].value), EncCells(sig, cs[1..]);
      CellReads(sig, cs[0].value);
      SliceRoundTrip(a, b);
      CellsRead(sig, id, cs[1..]);
      assert TimesOf(cs)[0] == cs[0].time && TimesOf(cs)[1..] == TimesOf(cs[1..]);
      assert ShowVar(id, cs) == [VcChange(id, cs[0].time, cs[0].value)] + ShowVar(id, cs[1..]);
    }
  }

  lemma {:induction false} CellsSize(sig: Sig, cs: seq<Change>)
    requires CellsOk(sig, cs)
    ensures |EncCells(sig, cs)| == |cs| * WidthOf(sig)
    decreases |cs|
  {
    hide CellOk, EncCell, WidthOf;
    if cs != [] {
      assert CellOk(sig, cs[0].value);
      CellsSize(sig, cs[1..]);
      OneMore(|cs| - 1, WidthOf(sig));
    }
  }

  lemma OneMore(n: nat, w: nat)
    ensures (n + 1) * w == w + n * w
  {
  }

  // ---- Times ----

  /** Never backwards. */
  ghost predicate Flows(cs: seq<Change>, prev: nat) {
    cs == [] || (prev <= cs[0].time < WORD && Flows(cs[1..], cs[0].time))
  }

  ghost function EncDeltas(cs: seq<Change>, prev: nat): bytes
    requires Flows(cs, prev)
  {
    if cs == [] then [] else EncU(cs[0].time - prev) + EncDeltas(cs[1..], cs[0].time)
  }

  function DecDeltas(n: nat, s: bytes, prev: nat): (r: Parse<seq<nat>>)
    ensures r.Ok? ==> |r.value| == n
  {
    if n == 0 then Ok([], s)
    else
      var (delta, s1) :- DecU(s);
      var (more, rest) :- DecDeltas(n - 1, s1, prev + delta);
      Ok([prev + delta] + more, rest)
  }

  lemma {:induction false} DeltasRead(cs: seq<Change>, prev: nat, t: bytes)
    requires Flows(cs, prev)
    ensures DecDeltas(|cs|, EncDeltas(cs, prev) + t, prev) == Ok(TimesOf(cs), t)
    decreases |cs|
  {
    hide EncU, DecU;
    if cs != [] {
      var a, b := EncU(cs[0].time - prev), EncDeltas(cs[1..], cs[0].time);
      assert EncDeltas(cs, prev) + t == a + (b + t);
      URoundTrip(cs[0].time - prev, b + t);
      DeltasRead(cs[1..], cs[0].time, t);
      assert TimesOf(cs) == [cs[0].time] + TimesOf(cs[1..]);
    }
  }

  // ---- Variables ----

  /** What callers owe: a supported signal, values in range, times of 64 bits. */
  ghost predicate VarShaped(sig: Sig, id: nat, cs: seq<Change>) {
    id < LIMIT && |cs| < LIMIT && WidthOf(sig) < LIMIT && CellsOk(sig, cs) && TimesShort(cs)
  }

  predicate TimesShort(cs: seq<Change>) {
    forall i :: 0 <= i < |cs| ==> cs[i].time < WORD
  }

  ghost predicate VarFits(sig: Sig, id: nat, cs: seq<Change>) {
    VarShaped(sig, id, cs) && Flows(cs, 0)
  }

  lemma SplitsWhole(sig: Sig, cs: seq<Change>)
    requires CellsOk(sig, cs)
    ensures Split(EncCells(sig, cs), WidthOf(sig)).Some?
    ensures |Split(EncCells(sig, cs), WidthOf(sig)).value| == |cs| * WidthOf(sig)
  {
    hide WidthOf, CellOk, EncCells, Transposed;
    CellsSize(sig, cs);
    Multiple(|cs|, WidthOf(sig));
    SplitInverts(EncCells(sig, cs), WidthOf(sig));
  }

  lemma Multiple(n: nat, w: nat)
    requires w >= 1
    ensures (n * w) % w == 0
  {
    DivUnique(n * w, w, n, 0);
  }

  ghost function EncVar(sig: Sig, id: nat, cs: seq<Change>): bytes
    requires VarFits(sig, id, cs)
  {
    SplitsWhole(sig, cs);
    EncU(id) + ([KindOf(sig)] + (EncU(WidthOf(sig)) + (EncU(|cs|) +
      (EncDeltas(cs, 0) + Split(EncCells(sig, cs), WidthOf(sig)).value))))
  }

  /** The bytes `n` values take. */
  function Area(n: nat, width: nat): nat {
    n * width
  }

  function DecVar(s: bytes): Parse<seq<VcChange>> {
    var (id, s1) :- DecU(s);
    var (kind, s2) :- DecByte(s1);
    var (width, s3) :- DecU(s2);
    var (n, s4) :- DecU(s3);
    var (times, s5) :- DecDeltas(n, s4, 0);
    var (planes, rest) :- DecSlice(Area(n, width), s5);
    match Unsplit(planes, width)
    case None => Fail(Corrupt)
    case Some(raw) =>
      match DecCells(id, kind, width, times, raw)
      case None => Fail(Corrupt)
      case Some(changes) => Ok(changes, rest)
  }

  lemma VarReads(sig: Sig, id: nat, cs: seq<Change>, t: bytes)
    requires VarFits(sig, id, cs)
    ensures DecVar(EncVar(sig, id, cs) + t) == Ok(ShowVar(id, cs), t)
  {
    hide EncU, DecU, EncDeltas, DecDeltas, EncCells, DecCells, Split, Unsplit, WidthOf, CellOk, Flows, KindOf;
    SplitsWhole(sig, cs);
    var width, raw := WidthOf(sig), EncCells(sig, cs);
    var planes := Split(raw, width).value;
    var a, b, c, d := EncU(id), EncU(width), EncU(|cs|), EncDeltas(cs, 0);
    assert EncVar(sig, id, cs) + t == a + ([KindOf(sig)] + (b + (c + (d + (planes + t)))));
    URoundTrip(id, [KindOf(sig)] + (b + (c + (d + (planes + t)))));
    assert ([KindOf(sig)] + (b + (c + (d + (planes + t)))))[1..] == b + (c + (d + (planes + t)));
    URoundTrip(width, c + (d + (planes + t)));
    URoundTrip(|cs|, d + (planes + t));
    DeltasRead(cs, 0, planes + t);
    SliceRoundTrip(planes, t);
    SplitInverts(raw, width);
    CellsRead(sig, id, cs);
  }

  // ---- Blocks ----

  datatype PlaneBlock = PlaneBlock(start: nat, end: nat, changes: map<nat, seq<Change>>)

  /** Signals with a supported encoding, values in range, times of a variable never going back. */
  ghost predicate PlanesOk(b: PlaneBlock, sigs: SigMap) {
    b.start < LIMIT && |b.changes| < LIMIT && forall id :: id in b.changes ==> id in sigs && VarFits(sigs[id], id, b.changes[id])
  }

  ghost predicate PlanesShaped(b: PlaneBlock, sigs: SigMap) {
    b.start < LIMIT && |b.changes| < LIMIT && forall id :: id in b.changes ==> id in sigs && VarShaped(sigs[id], id, b.changes[id])
  }

  /** No variable's times go back. */
  ghost predicate AllFlow(b: PlaneBlock) {
    forall id :: id in b.changes ==> Flows(b.changes[id], 0)
  }

  ghost predicate Listed(b: PlaneBlock, sigs: SigMap, ids: seq<nat>) {
    forall i :: 0 <= i < |ids| ==> ids[i] in b.changes && ids[i] in sigs && VarFits(sigs[ids[i]], ids[i], b.changes[ids[i]])
  }

  ghost function EncVars(b: PlaneBlock, sigs: SigMap, ids: seq<nat>): bytes
    requires Listed(b, sigs, ids)
  {
    if ids == [] then [] else EncVar(sigs[ids[0]], ids[0], b.changes[ids[0]]) + EncVars(b, sigs, ids[1..])
  }

  /** Every change, variable after variable in ascending order. */
  ghost function ShowVars(b: PlaneBlock, ids: seq<nat>): seq<VcChange>
    requires forall i :: 0 <= i < |ids| ==> ids[i] in b.changes
  {
    if ids == [] then [] else ShowVar(ids[0], b.changes[ids[0]]) + ShowVars(b, ids[1..])
  }

  function DecVars(n: nat, s: bytes): Parse<seq<VcChange>> {
    if n == 0 then Ok([], s)
    else
      var (here, s1) :- DecVar(s);
      var (more, rest) :- DecVars(n - 1, s1);
      Ok(here + more, rest)
  }

  lemma {:induction false} VarsRead(b: PlaneBlock, sigs: SigMap, ids: seq<nat>, t: bytes)
    requires Listed(b, sigs, ids)
    ensures DecVars(|ids|, EncVars(b, sigs, ids) + t) == Ok(ShowVars(b, ids), t)
    decreases |ids|
  {
    hide EncVar, DecVar, ShowVar, VarFits;
    if ids != [] {
      var a, c := EncVar(sigs[ids[0]], ids[0], b.changes[ids[0]]), EncVars(b, sigs, ids[1..]);
      assert EncVars(b, sigs, ids) + t == a + (c + t);
      VarReads(sigs[ids[0]], ids[0], b.changes[ids[0]], c + t);
      VarsRead(b, sigs, ids[1..], t);
    }
  }

  ghost function EncBody(b: PlaneBlock, sigs: SigMap): bytes
    requires PlanesOk(b, sigs)
  {
    EncU(b.start) + (EncU(|b.changes|) + EncVars(b, sigs, Ascending(b.changes.Keys)))
  }

  function DecBody(body: bytes): Parse<seq<VcChange>> {
    var (start, s1) :- DecU(body);
    var (n, s2) :- DecU(s1);
    DecVars(n, s2)
  }

  ghost function EncPlanes(zlib: Compressor, compress: bool, codecId: nat, b: PlaneBlock, sigs: SigMap): bytes
    requires PlanesOk(b, sigs)
  {
    var body := EncBody(b, sigs);
    EncU(codecId) + (EncU(if compress then 1 else 0) + if compress then zlib.pack(body) else body)
  }

  function DecPlanes(zlib: Compressor, payload: bytes): Parse<seq<VcChange>> {
    var (codecId, s1) :- DecU(payload);
    var (flags, s2) :- DecU(s1);
    if flags % 2 == 1 then
      match zlib.unpack(s2)
      case None => Fail(Corrupt)
      case Some(body) => DecBody(body)
    else DecBody(s2)
  }

  lemma AllListed(b: PlaneBlock, sigs: SigMap)
    requires PlanesOk(b, sigs)
    ensures Listed(b, sigs, Ascending(b.changes.Keys)) && |Ascending(b.changes.Keys)| == |b.changes|
  {
    hide VarFits;
    assert |b.changes.Keys| == |b.changes|;
    assert forall i :: 0 <= i < |Ascending(b.changes.Keys)| ==> Ascending(b.changes.Keys)[i] in b.changes.Keys;
  }

  lemma BodyReads(b: PlaneBlock, sigs: SigMap)
    requires PlanesOk(b, sigs)
    ensures Listed(b, sigs, Ascending(b.changes.Keys))
    ensures DecBody(EncBody(b, sigs)) == Ok(ShowVars(b, Ascending(b.changes.Keys)), [])
  {
    hide EncU, DecU, EncVars, DecVars, VarFits, ShowVars, Listed;
    var ids := Ascending(b.changes.Keys);
    AllListed(b, sigs);
    var vars := EncVars(b, sigs, ids);
    assert vars + [] == vars;
    URoundTrip(b.start, EncU(|ids|) + vars);
    URoundTrip(|ids|, vars);
    VarsRead(b, sigs, ids, []);
  }

  /** The block reads back as all changes, by ascending variable id. */
  lemma PlanesRoundTrip(zlib: Compressor, compress: bool, codecId: nat, b: PlaneBlock, sigs: SigMap)
    requires Lossless(zlib) && PlanesOk(b, sigs) && codecId < LIMIT
    ensures Listed(b, sigs, Ascending(b.changes.Keys))
    ensures DecPlanes(zlib, EncPlanes(zlib, compress, codecId, b, sigs)) == Ok(ShowVars(b, Ascending(b.changes.Keys)), [])
  {
    hide EncU, DecU, EncBody, DecBody, PlanesOk, ShowVars, Listed, Lossless;
    BodyReads(b, sigs);
    var body := EncBody(b, sigs);
    Unpacks(zlib, body);
    if compress {
      PrefixReads(codecId, 1, zlib.pack(body));
    } else {
      PrefixReads(codecId, 0, body);
    }
  }

  lemma Unpacks(c: Compressor, x: bytes)
    requires Lossless(c)
    ensures c.unpack(c.pack(x)) == Some(x)
  {
  }

  lemma PrefixReads(codecId: nat, flag: nat, rest: bytes)
    requires codecId < LIMIT && flag < LIMIT
    ensures DecU(EncU(codecId) + (EncU(flag) + rest)) == Ok(codecId, EncU(flag) + rest) && DecU(EncU(flag) + rest) == Ok(flag, rest)
  {
    hide EncU, DecU;
    URoundTrip(codecId, EncU(flag) + rest);
    URoundTrip(flag, rest);
  }

  // ---- The block object and its loops ----

  lemma FlowsTail(cs: seq<Change>, prev: nat)
    requires cs != [] && cs[0].time < WORD
    ensures Flows(cs, prev) <==> prev <= cs[0].time && Flows(cs[1..], cs[0].time)
    ensures Flows(cs, prev) ==> EncDeltas(cs, prev) == EncU(cs[0].time - prev) + EncDeltas(cs[1..], cs[0].time)
  {
  }

  /** Deltas go out at once, values gather for the split.  Raises exactly when a time goes back. */
  method WriteChanges(sig: Sig, cs: seq<Change>) returns (ok: bool, deltas: bytes, raw: bytes)
    requires CellsOk(sig, cs) && TimesShort(cs)
    ensures ok <==> Flows(cs, 0)
    ensures ok ==> deltas == EncDeltas(cs, 0) && raw == EncCells(sig, cs)
  {
    hide EncU, EncLe, Flows, EncDeltas, WidthOf, Pow2, EncCells, CellOk;
    var prev: nat := 0;
    deltas, raw := [], [];
    assert cs[0..] == cs;
    for i := 0 to |cs|
      invariant (Flows(cs[i..], prev) <==> Flows(cs, 0)) && CellsOk(sig, cs[i..])
      invariant Flows(cs, 0) ==> EncDeltas(cs, 0) == deltas + EncDeltas(cs[i..], prev)
      invariant EncCells(sig, cs) == raw + EncCells(sig, cs[i..])
    {
      Tail(cs, i);
      FlowsTail(cs[i..], prev);
      assert CellOk(sig, cs[i].value);
      CellsTail(sig, cs[i..]);
      if cs[i].time < prev {
        return false, deltas, raw;
      }
      if Flows(cs, 0) {
        ghost var later := EncDeltas(cs[i + 1..], cs[i].time);
        assert (deltas + EncU(cs[i].time - prev)) + later == deltas + (EncU(cs[i].time - prev) + later);
      }
      deltas := deltas + EncU(cs[i].time - prev);
      prev := cs[i].time;
      var cell := WriteCell(sig, cs[i].value);
      assert (raw + cell) + EncCells(sig, cs[i + 1..]) == raw + (cell + EncCells(sig, cs[i + 1..]));
      raw := raw + cell;
    }
    NoDeltas(prev);
    NoCells(sig);
    ok := true;
  }

  method WriteCell(sig: Sig, v: Value) returns (cell: bytes)
    requires CellOk(sig, v)
    ensures cell == EncCell(sig, v)
  {
    hide EncLe, WidthOf, Pow2;
    cell := if sig.enc == Real then v.raw else EncLe(WidthOf(sig), v.n);
  }

  lemma CellsTail(sig: Sig, cs: seq<Change>)
    requires CellsOk(sig, cs) && cs != []
    ensures CellsOk(sig, cs[1..]) && CellOk(sig, cs[0].value)
    ensures EncCells(sig, cs) == EncCell(sig, cs[0].value) + EncCells(sig, cs[1..])
  {
    hide CellOk, EncCell;
    assert CellOk(sig, cs[0].value);
  }

  lemma NoCells(sig: Sig)
    ensures CellsOk(sig, []) ==> EncCells(sig, []) == []
  {
  }

  method WriteVar(sig: Sig, id: nat, cs: seq<Change>) returns (r: Option<bytes>)
    requires VarShaped(sig, id, cs)
    ensures r.Some? <==> Flows(cs, 0)
    ensures r.Some? ==> r.value == EncVar(sig, id, cs)
  {
    hide EncU, Flows, EncDeltas, EncCells, Split, WidthOf, CellOk, KindOf;
    var ok, deltas, raw := WriteChanges(sig, cs);
    if !ok {
      return None;
    }
    SplitsWhole(sig, cs);
    var planes := SplitPlanes(raw, WidthOf(sig));
    r := Some(EncU(id) + ([KindOf(sig)] + (EncU(WidthOf(sig)) + (EncU(|cs|) + (deltas + planes.value)))));
  }

  lemma NoDeltas(prev: nat)
    ensures Flows([], prev) && EncDeltas([], prev) == []
  {
  }

  method ReadDeltas(n: nat, s: bytes) returns (r: Parse<seq<nat>>)
    ensures r == DecDeltas(n, s, 0)
  {
    hide DecU;
    var rest, prev: nat, times: seq<nat> := s, 0, [];
    BehindTwice([], [], DecDeltas(n, s, 0));
    for i := 0 to n
      invariant DecDeltas(n, s, 0) == Behind(times, DecDeltas(n - i, rest, prev))
    {
      var delta :- DecU(rest);
      BehindTwice(times, [prev + delta.0], DecDeltas(n - i - 1, delta.1, prev + delta.0));
      prev := prev + delta.0;
      times := times + [prev];
      rest := delta.1;
    }
    assert times + [] == times;
    r := Ok(times, rest);
  }

  method ReadVar(s: bytes) returns (r: Parse<seq<VcChange>>)
    ensures r == DecVar(s)
  {
    hide DecU, DecDeltas, Unsplit, DecCells;
    var id :- DecU(s);
    var kind :- DecByte(id.1);
    var width :- DecU(kind.1);
    var n :- DecU(width.1);
    var times := ReadDeltas(n.0, n.1);
    if times.Fail? {
      return Fail(times.fault);
    }
    var planes := DecSlice(Area(n.0, width.0), times.rest);
    var raw := UnsplitPlanes(planes.value, width.0);
    if raw.None? {
      return Fail(Corrupt);
    }
    var changes := ReadCells(id.0, kind.0, width.0, times.value, raw.value);
    r := match changes case None => Fail(Corrupt) case Some(cs) => Ok(cs, planes.rest);
  }

  method ReadCells(id: nat, kind: byte, width: nat, times: seq<nat>, raw: bytes) returns (r: Option<seq<VcChange>>)
    ensures r == DecCells(id, kind, width, times, raw)
  {
    hide DecCell;
    var rest, out: seq<VcChange> := raw, [];
    assert times[0..] == times;
    assert forall more: seq<VcChange> :: [] + more == more;
    for i := 0 to |times|
      invariant DecCells(id, kind, width, times, raw) ==
                match DecCells(id, kind, width, times[i..], rest) case None => None case Some(more) => Some(out + more)
    {
      Tail(times, i);
      var cut := DecSlice(width, rest);
      var v := DecCell(kind, cut.value);
      if v.None? {
        return None;
      }
      ghost var later := DecCells(id, kind, width, times[i + 1..], cut.rest);
      if later.Some? {
        assert out + ([VcChange(id, times[i], v.value)] + later.value) == (out + [VcChange(id, times[i], v.value)]) + later.value;
      }
      out := out + [VcChange(id, times[i], v.value)];
      rest := cut.rest;
    }
    assert out + [] == out;
    r := Some(out);
  }

  method WriteVars(b: PlaneBlock, sigs: SigMap, ids: seq<nat>) returns (r: Option<bytes>)
    requires PlanesShaped(b, sigs) && forall i :: 0 <= i < |ids| ==> ids[i] in b.changes
    ensures r.Some? <==> Listed(b, sigs, ids)
    ensures r.Some? ==> r.value == EncVars(b, sigs, ids)
  {
    hide EncVar, VarShaped, Flows;
    var out: bytes := [];
    assert ids[0..] == ids;
    for i := 0 to |ids|
      invariant Listed(b, sigs, ids[i..]) <==> Listed(b, sigs, ids)
      invariant Listed(b, sigs, ids) ==> EncVars(b, sigs, ids) == out + EncVars(b, sigs, ids[i..])
    {
      Tail(ids, i);
      assert ids[i] in b.changes && ids[i] in sigs && VarShaped(sigs[ids[i]], ids[i], b.changes[ids[i]]);
      var one := WriteVar(sigs[ids[i]], ids[i], b.changes[ids[i]]);
      if one.None? {
        assert !VarFits(sigs[ids[i]], ids[i], b.changes[ids[i]]);
        return None;
      }
      ListedTail(b, sigs, ids[i..]);
      if Listed(b, sigs, ids) {
        ghost var later := EncVars(b, sigs, ids[i + 1..]);
        assert (out + one.value) + later == out + (one.value + later);
      }
      out := out + one.value;
    }
    assert EncVars(b, sigs, ids[|ids|..]) == [];
    r := Some(out);
  }

  lemma ListedTail(b: PlaneBlock, sigs: SigMap, ids: seq<nat>)
    requires ids != [] && ids[0] in b.changes && ids[0] in sigs && VarFits(sigs[ids[0]], ids[0], b.changes[ids[0]])
    ensures Listed(b, sigs, ids) <==> Listed(b, sigs, ids[1..])
  {
    hide VarFits;
  }

  lemma OkIfFlows(b: PlaneBlock, sigs: SigMap)
    requires PlanesShaped(b, sigs)
    ensures PlanesOk(b, sigs) <==> AllFlow(b)
    ensures Listed(b, sigs, Ascending(b.changes.Keys)) <==> AllFlow(b)
  {
    hide VarShaped, Flows, Listed;
    if AllFlow(b) {
      AllListed(b, sigs);
    }
    if Listed(b, sigs, Ascending(b.changes.Keys)) {
      forall id | id in b.changes
        ensures Flows(b.changes[id], 0)
      {
        ListedFlows(b, sigs, Ascending(b.changes.Keys), id);
      }
    }
  }

  lemma ListedFlows(b: PlaneBlock, sigs: SigMap, ids: seq<nat>, id: nat)
    requires Listed(b, sigs, ids) && id in ids
    ensures id in b.changes && Flows(b.changes[id], 0)
  {
    hide VarShaped, Flows;
    var i :| 0 <= i < |ids| && ids[i] == id;
  }

  class BytesplitBlock {
    var startTime: nat
    var endTime: nat
    const sigTypes: SigMap
    const compress: bool
    const zlib: Compressor
    var changes: map<nat, seq<Change>>

    constructor (start: nat, sigs: SigMap, compress: bool, zlib: Compressor)
      ensures Now() == PlaneBlock(start, start, map[]) && sigTypes == sigs && this.compress == compress && this.zlib == zlib
    {
      startTime, endTime, changes := start, start, map[];
      sigTypes, this.compress, this.zlib := sigs, compress, zlib;
    }

    function Now(): PlaneBlock
      reads this
    {
      PlaneBlock(startTime, endTime, changes)
    }

    method AddChange(id: nat, time: nat, value: Value)
      modifies this
      ensures startTime == old(startTime) && endTime == if time > old(endTime) then time else old(endTime)
      ensures changes == old(changes)[id := (if id in old(changes) then old(changes)[id] else []) + [Change(time, value)]]
    {
      changes := changes[id := (if id in changes then changes[id] else []) + [Change(time, value)]];
      if time > endTime {
        endTime := time;
      }
    }

    /** An initial value is a change at the start of the block, in front of all others. */
    method SetInitial(id: nat, value: Value)
      modifies this
      ensures startTime == old(startTime) && endTime == old(endTime)
      ensures changes == old(changes)[id := [Change(startTime, value)] + (if id in old(changes) then old(changes)[id] else [])]
    {
      changes := changes[id := [Change(startTime, value)] + (if id in changes then changes[id] else [])];
    }

    /** Raises exactly when some variable's times go back. */
    method EncodeBlock(codecId: nat) returns (r: Option<bytes>)
      requires PlanesShaped(Now(), sigTypes)
      ensures r.Some? <==> AllFlow(Now())
      ensures r.Some? ==> PlanesOk(Now(), sigTypes) && r.value == EncPlanes(zlib, compress, codecId, Now(), sigTypes)
    {
      hide EncU, EncVars, Listed, PlanesShaped, AllFlow;
      OkIfFlows(Now(), sigTypes);
      assert forall i :: 0 <= i < |Ascending(changes.Keys)| ==> Ascending(changes.Keys)[i] in changes.Keys;
      var vars := WriteVars(Now(), sigTypes, Ascending(changes.Keys));
      if vars.None? {
        return None;
      }
      AllListed(Now(), sigTypes);
      var body := EncU(startTime) + (EncU(|changes|) + vars.value);
      r := Some(EncU(codecId) + (EncU(if compress then 1 else 0) + if compress then zlib.pack(body) else body));
    }

    static method DecodeChanges(zlib: Compressor, payload: bytes) returns (r: Parse<seq<VcChange>>)
      ensures r == DecPlanes(zlib, payload)
    {
      hide DecU, DecVar;
      var codecId :- DecU(payload);
      var flags :- DecU(codecId.1);
      var body := flags.1;
      if flags.0 % 2 == 1 {
        match zlib.unpack(body) {
          case None => return Fail(Corrupt);
          case Some(inner) => body := inner;
        }
      }
      var start :- DecU(body);
      var n :- DecU(start.1);
      var rest, out: seq<VcChange> := n.1, [];
      BehindTwice([], [], DecVars(n.0, n.1));
      for i := 0 to n.0
        invariant DecVars(n.0, n.1) == Behind(out, DecVars(n.0 - i, rest))
      {
        var here := ReadVar(rest);
        if here.Fail? {
          return Fail(here.fault);
        }
        BehindTwice(out, here.value, DecVars(n.0 - i - 1, here.rest));
        out := out + here.value;
        rest := here.rest;
      }
      assert out + [] == out;
      r := Ok(out, rest);
    }
  }
}
