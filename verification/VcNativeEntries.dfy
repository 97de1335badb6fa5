/** Waves that `c/src/vc_data.c` writes one entry a change: one-bit, four-state, nine-state, real and string
    signals.  Each entry's header shifts the distance by its own number of bits, so what a repeated time
    does depends on the encoding. */
module VcNativeEntries {
  import opened Bits
  import opened Bytes
  import opened Varint
  import opened Lists
  import opened VcValues
  import opened VcBlock
  import opened VcNative

  /** A recorded value: of a vector, the eight bytes of a double, or the characters before the NUL. */
  datatype Recorded = Vector(v: NativeValue) | Double(raw: bytes) | Chars(utf8: bytes)

  type Item = Timed<Recorded>

  /** The kind of value that the recording calls give each encoding. */
  predicate Kind(sig: Sig, v: Recorded) {
    match sig.enc
    case Real => v.Double? && |v.raw| == 8
    case Str => v.Chars? && |v.utf8| < WORD
    case _ => v.Vector?
  }

  /** Signals of which the loops write and read a count and nothing else. */
  predicate Blank(sig: Sig) {
    (sig.enc == TwoState && sig.width != 1) || sig.enc == BitVec || sig.enc == Analog
  }

  /** The header's shift, as a factor. */
  function Scale(sig: Sig): (k: nat)
    ensures k == 1 || k == 2 || k == 4 || k == 8
  {
    match sig.enc
    case TwoState => 4
    case FourState => if sig.width == 1 then 8 else 2
    case NineState => 2
    case _ => 1
  }

  /** A distance of minus one does not survive the shift. */
  predicate Shifts(sig: Sig) {
    !Blank(sig) && Scale(sig) > 1
  }

  // ---- An entry ----

  function Width32(n: nat): nat {
    n % 0x1_0000_0000
  }

  /** Sizes are computed in 32 bits. */
  function BinaryBytes(width: nat): nat {
    AtLeastOne(Width32(width + 7) / 8)
  }

  function PackedBytes(sig: Sig): nat {
    AtLeastOne(if sig.enc == FourState then Width32(2 * sig.width + 7) / 8 else Width32(sig.width + 1) / 2)
  }

  function Need(sig: Sig, binary: bool): nat {
    if binary then BinaryBytes(sig.width) else PackedBytes(sig)
  }

  function IsBinary(sig: Sig, v: NativeValue): bool {
    v.Word? || |v.data| <= BinaryBytes(sig.width)
  }

  /** The lowest byte or more. */
  function Low(v: NativeValue): nat {
    match v
    case Word(n) => n
    case Raw(data) => if data == [] then 0 else data[|data| - 1]
  }

  /** Of a word one bit is taken. */
  function Source(v: NativeValue): bytes {
    match v
    case Word(n) => [n % 2]
    case Raw(data) => data
  }

  /** The last bytes, or zeros in front. */
  function Exact(src: bytes, want: nat): (s: bytes)
    ensures |s| == want
  {
    if |src| >= want then src[|src| - want..] else seq(want - |src|, _ => 0) + src
  }

  predicate OneBit(sig: Sig) {
    sig.width == 1 && (sig.enc == TwoState || sig.enc == FourState)
  }

  /** The header's bits below the distance. */
  function Tag(sig: Sig, v: Recorded): (k: nat)
    requires Kind(sig, v)
    ensures k < Scale(sig)
  {
    match sig.enc
    case TwoState => 2 * (Low(v.v) % 2) + 1
    case FourState => if sig.width == 1 then 2 * (Low(v.v) % 4) + 1 else if IsBinary(sig, v.v) then 1 else 0
    case NineState => if IsBinary(sig, v.v) then 1 else 0
    case _ => 0
  }

  /** The value's bytes as a callback gets them; a length is cut to 32 bits. */
  function Shown(sig: Sig, v: Recorded): bytes
    requires Kind(sig, v)
  {
    match sig.enc
    case Real => v.raw
    case Str => Cut32(v.utf8)
    case _ =>
      if Blank(sig) then []
      else if OneBit(sig) then [Low(v.v) % (if sig.enc == TwoState then 2 else 4)]
      else Exact(Source(v.v), Need(sig, IsBinary(sig, v.v)))
  }

  function Cut32(s: bytes): bytes {
    s[..Width32(|s|)]
  }

  function Body(sig: Sig, v: Recorded): bytes
    requires Kind(sig, v)
  {
    match sig.enc
    case Real => v.raw
    case Str => EncU(|v.utf8|) + v.utf8
    case _ => if OneBit(sig) || Blank(sig) then [] else Exact(Source(v.v), Need(sig, IsBinary(sig, v.v)))
  }

  /** One entry: the distance in a 64-bit register, shifted, the tag in the free bits, and the body. */
  function EncOne(sig: Sig, delta: nat, v: Recorded): bytes
    requires Kind(sig, v)
  {
    if Blank(sig) then [] else EncU(Wrap(Scale(sig) * delta) + Tag(sig, v)) + Body(sig, v)
  }

  /** What the reader makes of the bytes: an entry, an error, or an end without an error. */
  datatype Reading = Found(delta: nat, value: bytes, rest: bytes) | Broken | Cut

  function ReadOne(sig: Sig, s: bytes): Reading
    requires !Blank(sig)
  {
    match DecU(s)
    case Fail(_) => Broken
    case Ok(n, s1) => ReadBody(sig, Wrap(n) / Scale(sig), Wrap(n), s1)
  }

  function ReadBody(sig: Sig, delta: nat, header: nat, s: bytes): Reading {
    match sig.enc
    case Real => if |s| < 8 then Cut else Found(delta, s[..8], s[8..])
    case Str =>
      (match DecU(s)
       case Fail(_) => Broken
       case Ok(n, s1) => if |s1| < Wrap(n) then Cut else Found(delta, Cut32(s1[..Wrap(n)]), s1[Wrap(n)..]))
    case _ =>
      if OneBit(sig) then Found(delta, [header / 2 % (if sig.enc == TwoState then 2 else 4)], s)
      else
        var need := Need(sig, header % 2 == 1);
        if |s| < need then Broken else Found(delta, s[..need], s[need..])
  }

  lemma ModTimes(k: nat, m: nat, d: nat)
    requires k > 0 && m > 0
    ensures k * m > 0 && (k * d) % (k * m) == k * (d % m)
  {
    var q, r := d / m, d % m;
    assert d == m * q + r;
    assert k * d == (k * m) * q + k * r by {
      assert k * (m * q) == (k * m) * q;
    }
    assert k * r < k * m;
    DivUnique(k * d, k * m, q, k * r);
  }

  /** The shift drops the distance's top bits. */
  lemma ShiftCuts(k: nat, delta: nat)
    requires k == 1 || k == 2 || k == 4 || k == 8
    ensures Wrap(k * delta) == k * (delta % (WORD / k)) <= WORD - k
  {
    var m := WORD / k;
    assert k * m == WORD;
    ModTimes(k, m, delta);
    assert k * (delta % m) <= k * (m - 1);
  }

  /** The tag does not get in the way. */
  lemma HeaderReads(k: nat, delta: nat, tag: nat)
    requires (k == 1 || k == 2 || k == 4 || k == 8) && tag < k
    ensures var h := Wrap(k * delta) + tag;
            h < WORD && h / k == delta % (WORD / k) && h % k == tag
  {
    hide Wrap;
    ShiftCuts(k, delta);
    DivUnique(k * (delta % (WORD / k)) + tag, k, delta % (WORD / k), tag);
  }

  /** A written entry reads back, with what the header kept of the distance. */
  lemma OneReads(sig: Sig, delta: nat, v: Recorded, t: bytes)
    requires Kind(sig, v) && !Blank(sig) && delta < WORD
    ensures ReadOne(sig, EncOne(sig, delta, v) + t) == Found(delta % (WORD / Scale(sig)), Shown(sig, v), t)
  {
    hide EncU, DecU, Body, Tag, Kind, Shown, ReadBody, Wrap, Blank, Scale;
    var k, tag, body := Scale(sig), Tag(sig, v), Body(sig, v);
    var header := Wrap(k * delta) + tag;
    HeaderReads(k, delta, tag);
    assert EncOne(sig, delta, v) + t == EncU(header) + (body + t);
    URoundTrip(header, body + t);
    Fits(header);
    if sig.enc == Real {
      RealReads(sig, header / k, header, v, t);
    } else if sig.enc == Str {
      TextReads(sig, header / k, header, v, t);
    } else {
      VectorReads(sig, header / k, header, v, t);
    }
  }

  lemma RealReads(sig: Sig, delta: nat, header: nat, v: Recorded, t: bytes)
    requires Kind(sig, v) && sig.enc == Real
    ensures ReadBody(sig, delta, header, Body(sig, v) + t) == Found(delta, Shown(sig, v), t)
  {
    SliceBack(v.raw, t);
  }

  lemma TextReads(sig: Sig, delta: nat, header: nat, v: Recorded, t: bytes)
    requires Kind(sig, v) && sig.enc == Str
    ensures ReadBody(sig, delta, header, Body(sig, v) + t) == Found(delta, Shown(sig, v), t)
  {
    hide EncU, DecU, Cut32;
    assert Body(sig, v) + t == EncU(|v.utf8|) + (v.utf8 + t);
    URoundTrip(|v.utf8|, v.utf8 + t);
    SliceBack(v.utf8, t);
  }

  lemma VectorReads(sig: Sig, delta: nat, header: nat, v: Recorded, t: bytes)
    requires Kind(sig, v) && !Blank(sig) && sig.enc != Real && sig.enc != Str && header % Scale(sig) == Tag(sig, v)
    ensures ReadBody(sig, delta, header, Body(sig, v) + t) == Found(delta, Shown(sig, v), t)
  {
    hide Exact, Low, Source, Need, IsBinary;
    if OneBit(sig) {
      assert [] + t == t;
      if sig.enc == TwoState {
        BitsBack(header, Low(v.v), 2);
      } else {
        BitsBack(header, Low(v.v), 4);
      }
    } else {
      WideReads(sig, delta, header, v, t);
    }
  }

  lemma BitsBack(header: nat, low: nat, k: nat)
    requires (k == 2 || k == 4) && header % (2 * k) == 2 * (low % k) + 1
    ensures header / 2 % k == low % k
  {
    var q := header / (2 * k);
    assert header == 2 * (k * q + low % k) + 1;
    DivUnique(header, 2, k * q + low % k, 1);
    DivUnique(k * q + low % k, k, q, low % k);
  }

  lemma WideReads(sig: Sig, delta: nat, header: nat, v: Recorded, t: bytes)
    requires Kind(sig, v) && (sig.enc == FourState || sig.enc == NineState) && !OneBit(sig)
    requires header % 2 == Tag(sig, v)
    ensures ReadBody(sig, delta, header, Body(sig, v) + t) == Found(delta, Shown(sig, v), t)
  {
    hide Exact, Low, Source, Need, IsBinary;
    SliceBack(Body(sig, v), t);
  }

  lemma SliceBack(a: bytes, t: bytes)
    ensures (a + t)[..|a|] == a && (a + t)[|a|..] == t && (a == [] ==> a + t == t)
  {
  }

  // ---- A wave ----

  /** A table of times fits into memory at eight bytes a time. */
  const TABLE: nat := 0x2000_0000_0000_0000

  ghost predicate Fine(sig: Sig, items: seq<Item>, times: seq<nat>) {
    ItemsOk(items, times) && |times| < TABLE && forall i :: 0 <= i < |items| ==> Kind(sig, items[i].value)
  }

  ghost function PlaceOf(items: seq<Item>, times: seq<nat>, i: nat): (p: nat)
    requires ItemsOk(items, times) && i < |items|
    ensures p < |times| && times[p] == items[i].time
  {
    var k :| 0 <= k < |times| && times[k] == items[i].time;
    TimeToIdx(times)[items[i].time]
  }

  /** The place that may come next. */
  ghost function NextAt(items: seq<Item>, times: seq<nat>, i: nat): nat
    requires ItemsOk(items, times) && i <= |items|
  {
    if i == 0 then 0 else PlaceOf(items, times, i - 1) + 1
  }

  /** The distance in a 64-bit register. */
  ghost function DeltaAt(items: seq<Item>, times: seq<nat>, i: nat): (d: nat)
    requires ItemsOk(items, times) && i < |items|
    ensures d < WORD
  {
    Wrap(PlaceOf(items, times, i) - NextAt(items, times, i))
  }

  ghost function EncFrom(sig: Sig, items: seq<Item>, times: seq<nat>, i: nat): bytes
    requires Fine(sig, items, times) && i <= |items|
    decreases |items| - i
  {
    if i == |items| then []
    else EncOne(sig, DeltaAt(items, times, i), items[i].value) + EncFrom(sig, items, times, i + 1)
  }

  /** The entry loop of `trl_vc_iter_payload`; changes before an error have been emitted.  Where nothing is
      read the place stays 0 and the value empty. */
  function EmitEntries(n: nat, sig: Sig, s: bytes, next: nat, times: seq<nat>): (seq<Emitted>, bool) {
    if n == 0 then ([], true)
    else if Blank(sig) then
      if times == [] then ([], false)
      else After([Emitted(times[0], [])], EmitEntries(n - 1, sig, s, next, times))
    else
      match ReadOne(sig, s)
      case Broken => ([], false)
      case Cut => ([], true)
      case Found(delta, value, rest) =>
        var tidx := Wrap(next + delta);
        if tidx >= |times| then ([], false)
        else After([Emitted(times[tidx], value)], EmitEntries(n - 1, sig, rest, tidx + 1, times))
  }

  /** A change at the time of the one before it. */
  predicate Repeats(items: seq<Item>, i: nat)
    requires i < |items|
  {
    i > 0 && items[i].time == items[i - 1].time
  }

  /** How far a reader gets from a place on: to the first repeated time, if a repeated time stops it. */
  function Until(sig: Sig, items: seq<Item>, i: nat): (m: nat)
    requires i <= |items|
    ensures i <= m <= |items| && (m < |items| ==> Shifts(sig) && Repeats(items, m))
    ensures Shifts(sig) ==> forall k :: i <= k < m ==> !Repeats(items, k)
    decreases |items| - i
  {
    if i == |items| || (Shifts(sig) && Repeats(items, i)) then i else Until(sig, items, i + 1)
  }

  /** The changes as a callback should get them. */
  function ShownAt(sig: Sig, items: seq<Item>, times: seq<nat>, i: nat): Emitted
    requires i < |items| && Kind(sig, items[i].value) && (Blank(sig) ==> times != [])
  {
    Emitted(if Blank(sig) then times[0] else items[i].time, Shown(sig, items[i].value))
  }

  ghost function ShownFrom(sig: Sig, items: seq<Item>, times: seq<nat>, i: nat, m: nat): (out: seq<Emitted>)
    requires Fine(sig, items, times) && i <= m <= |items|
    ensures |out| == m - i
    ensures items != [] ==> times != []
    ensures forall k :: 0 <= k < |out| ==> out[k] == ShownAt(sig, items, times, i + k)
  {
    assert items != [] ==> items[0].time in times;
    seq(m - i, k requires 0 <= k < m - i => ShownAt(sig, items, times, i + k))
  }

  /** Places of sorted items. */
  lemma PlacesRise(items: seq<Item>, times: seq<nat>, i: nat)
    requires ItemsOk(items, times) && i < |items|
    ensures NextAt(items, times, i) <= PlaceOf(items, times, i) + 1 && NextAt(items, times, i) <= |times|
    ensures Repeats(items, i) <==> NextAt(items, times, i) == PlaceOf(items, times, i) + 1
  {
    hide TimeToIdx;
    if i > 0 {
      var p, q := PlaceOf(items, times, i - 1), PlaceOf(items, times, i);
      assert times[p] == items[i - 1].time <= items[i].time == times[q];
    }
  }

  /** Where the reader finds the place, or that it looks outside the table. */
  lemma DistanceReads(k: nat, p: nat, next: nat, count: nat)
    requires (k == 1 || k == 2 || k == 4 || k == 8) && p < count < TABLE && next <= p + 1
    ensures var tidx := Wrap(next + Wrap(p - next) % (WORD / k));
            if next == p + 1 && k > 1 then tidx >= count else tidx == p
  {
    if next == p + 1 {
      assert Wrap(p - next) == WORD - 1;
      LastOf(k);
      Fits(next + (WORD / k - 1));
    } else {
      Fits(p - next);
      Fits(p);
      assert WORD / k >= TABLE;
      DivUnique(p - next, WORD / k, 0, p - next);
    }
  }

  lemma Fits(n: nat)
    requires n < 2 * WORD
    ensures Wrap(n) == if n < WORD then n else n - WORD
  {
  }

  lemma LastOf(k: nat)
    requires k == 1 || k == 2 || k == 4 || k == 8
    ensures (WORD - 1) % (WORD / k) == WORD / k - 1 >= TABLE - 1
  {
    if k == 1 {
    } else if k == 2 {
    } else if k == 4 {
    } else {
    }
  }

  /** One turn of the loop on what the writer wrote. */
  lemma EmitOnce(n: nat, sig: Sig, items: seq<Item>, times: seq<nat>, i: nat, t: bytes)
    requires Fine(sig, items, times) && i < |items| && !Blank(sig)
    ensures EmitEntries(n + 1, sig, EncOne(sig, DeltaAt(items, times, i), items[i].value) + t, NextAt(items, times, i), times)
         == if Shifts(sig) && Repeats(items, i) then ([], false)
            else After([Emitted(items[i].time, Shown(sig, items[i].value))],
                       EmitEntries(n, sig, t, NextAt(items, times, i + 1), times))
  {
    hide EncOne, ReadOne, Shown, Kind, PlaceOf, Scale, ItemsOk, Wrap, Repeats, NextAt, Blank;
    var p, next := PlaceOf(items, times, i), NextAt(items, times, i);
    PlacesRise(items, times, i);
    NextIs(items, times, i);
    DistanceReads(Scale(sig), p, next, |times|);
    OneReads(sig, DeltaAt(items, times, i), items[i].value, t);
  }

  lemma NextIs(items: seq<Item>, times: seq<nat>, i: nat)
    requires ItemsOk(items, times) && i < |items|
    ensures NextAt(items, times, i + 1) == PlaceOf(items, times, i) + 1
  {
  }

  lemma {:induction false} EmitsFrom(sig: Sig, items: seq<Item>, times: seq<nat>, i: nat, t: bytes)
    requires Fine(sig, items, times) && i <= |items| && !Blank(sig)
    ensures var m := Until(sig, items, i);
            EmitEntries(|items| - i, sig, EncFrom(sig, items, times, i) + t, NextAt(items, times, i), times)
              == (ShownFrom(sig, items, times, i, m), m == |items|)
    decreases |items| - i
  {
    hide EncOne, ReadOne, Shown, Kind, Scale, ItemsOk, Shifts, Repeats, NextAt, Blank, DeltaAt;
    var m := Until(sig, items, i);
    if i < |items| {
      var one, more := EncOne(sig, DeltaAt(items, times, i), items[i].value), EncFrom(sig, items, times, i + 1);
      assert EncFrom(sig, items, times, i) + t == one + (more + t);
      EmitOnce(|items| - i - 1, sig, items, times, i, more + t);
      if m > i {
        EmitsFrom(sig, items, times, i + 1, t);
        assert ShownFrom(sig, items, times, i, m)
            == [ShownAt(sig, items, times, i)] + ShownFrom(sig, items, times, i + 1, m);
      }
    }
  }

  lemma {:induction false} BlanksWrite(sig: Sig, items: seq<Item>, times: seq<nat>, i: nat)
    requires Fine(sig, items, times) && i <= |items| && Blank(sig)
    ensures EncFrom(sig, items, times, i) == []
    decreases |items| - i
  {
    hide Kind, EncOne, ItemsOk, Blank, DeltaAt;
    if i < |items| {
      NothingWritten(sig, DeltaAt(items, times, i), items[i].value);
      BlanksWrite(sig, items, times, i + 1);
    }
  }

  lemma {:induction false} BlanksEmit(sig: Sig, items: seq<Item>, times: seq<nat>, i: nat, next: nat, t: bytes)
    requires Fine(sig, items, times) && i <= |items| && Blank(sig)
    ensures EmitEntries(|items| - i, sig, t, next, times) == (ShownFrom(sig, items, times, i, |items|), true)
    decreases |items| - i
  {
    hide Kind, ItemsOk, Blank, Shown;
    var all := ShownFrom(sig, items, times, i, |items|);
    if i < |items| {
      NothingWritten(sig, 0, items[i].value);
      BlanksEmit(sig, items, times, i + 1, next, t);
      assert all == [ShownAt(sig, items, times, i)] + ShownFrom(sig, items, times, i + 1, |items|);
    }
  }

  lemma NothingWritten(sig: Sig, delta: nat, v: Recorded)
    requires Kind(sig, v) && Blank(sig)
    ensures EncOne(sig, delta, v) == [] && Shown(sig, v) == []
  {
  }

  /** What the entry loop wrote the reader gets through without an error if and only if the signal's headers
      do not shift the distance or no two changes share a time.  Up to the first repeated time it has then
      emitted every change. */
  lemma EntriesRoundTrip(sig: Sig, items: seq<Item>, times: seq<nat>, t: bytes)
    requires Fine(sig, items, times)
    ensures var m := Until(sig, items, 0);
            var head := DecU(EncWaveEntries(sig, items, times) + t);
            head.Ok? && head.value == |items| &&
            EmitEntries(head.value, sig, head.rest, 0, times) == (ShownFrom(sig, items, times, 0, m), m == |items|) &&
            (m == |items| <==> (Shifts(sig) ==> Strict(items)))
  {
    hide EncFrom, EmitEntries, ShownFrom, Shifts, Blank;
    var body := EncFrom(sig, items, times, 0);
    assert EncWaveEntries(sig, items, times) + t == EncU(|items|) + (body + t);
    URoundTrip(|items|, body + t);
    StrictExactly(sig, items);
    if Blank(sig) {
      BlanksWrite(sig, items, times, 0);
      assert [] + t == t;
      assert !Shifts(sig) by {
        NeverShifts(sig);
      }
      BlanksEmit(sig, items, times, 0, 0, t);
    } else {
      EmitsFrom(sig, items, times, 0, t);
    }
  }

  lemma NeverShifts(sig: Sig)
    requires Blank(sig)
    ensures !Shifts(sig)
  {
  }

  lemma StrictExactly(sig: Sig, items: seq<Item>)
    requires forall i, j :: 0 <= i < j < |items| ==> items[i].time <= items[j].time
    ensures Until(sig, items, 0) == |items| <==> (Shifts(sig) ==> Strict(items))
  {
    var m := Until(sig, items, 0);
    if Shifts(sig) && m == |items| {
      forall i, j | 0 <= i < j < |items|
        ensures items[i].time != items[j].time
      {
        assert !Repeats(items, i + 1);
      }
    }
  }

  ghost function EncWaveEntries(sig: Sig, items: seq<Item>, times: seq<nat>): bytes
    requires Fine(sig, items, times)
  {
    EncU(|items|) + EncFrom(sig, items, times, 0)
  }

  lemma {:induction false} BeJoin(a: bytes, b: bytes)
    ensures BeValue(a + b) == BeValue(a) * Pow2(8 * |b|) + BeValue(b)
    decreases |b|
  {
    hide BeValue, Pow2;
    BeLast(b);
    if b == [] {
      assert a + b == a;
      ByteMore(0);
    } else {
      var init, p := b[..|b| - 1], Pow2(8 * (|b| - 1));
      BeJoin(a, init);
      BeLast(a + b);
      assert (a + b)[..|a + b| - 1] == a + init;
      ByteMore(|b| - 1);
      JoinOnce(BeValue(a), p, BeValue(init), b[|b| - 1]);
    }
  }

  lemma BeLast(s: bytes)
    ensures BeValue(s) == if s == [] then 0 else 256 * BeValue(s[..|s| - 1]) + s[|s| - 1]
  {
  }

  lemma ByteMore(n: nat)
    ensures Pow2(8 * (n + 1)) == 256 * Pow2(8 * n) && Pow2(8 * 0) == 1
  {
    Pow2Add(8, 8 * n);
    assert Pow2(8) == 256 && Pow2(0) == 1;
  }

  lemma JoinOnce(a: nat, p: nat, init: nat, last: nat)
    ensures 256 * (a * p + init) + last == a * (256 * p) + (256 * init + last)
  {
  }

  /** Exactly so many bytes keep the number's low part. */
  lemma ExactValue(src: bytes, want: nat)
    ensures BeValue(Exact(src, want)) == BeValue(src) % Pow2(8 * want)
  {
    hide BeValue, Pow2;
    var p := Pow2(8 * want);
    if |src| >= want {
      var a, b := src[..|src| - want], src[|src| - want..];
      assert src == a + b;
      BeJoin(a, b);
      BeBound(b);
      DivUnique(BeValue(src), p, BeValue(a), BeValue(b));
    } else {
      BeJoin(seq(want - |src|, _ => 0), src);
      ZeroBytes(want - |src|);
      BeBound(src);
      Pow2Mono(8 * |src|, 8 * want);
      DivUnique(BeValue(src), p, 0, BeValue(src));
    }
  }

  /** A wide four-state or nine-state signal shows the recorded number exactly if it fits the bytes, or, of a
      value given as a word, if it is 0 or 1. */
  lemma WideValueExactly(sig: Sig, v: NativeValue)
    requires (sig.enc == FourState && sig.width != 1) || sig.enc == NineState
    ensures BeValue(Shown(sig, Vector(v))) == Full(v)
            <==> if v.Word? then v.n < 2 else Full(v) < Pow2(8 * Need(sig, IsBinary(sig, v)))
  {
    hide BeValue, Pow2, Exact, Need, IsBinary;
    var want := Need(sig, IsBinary(sig, v));
    var p := Pow2(8 * want);
    ExactValue(Source(v), want);
    if v.Word? {
      OneByte(v.n % 2);
      SomeBytes(sig, v);
      Pow2Mono(8, 8 * want);
      Pow2Values();
      DivUnique(v.n % 2, p, 0, v.n % 2);
    } else if Full(v) < p {
      DivUnique(Full(v), p, 0, Full(v));
    } else {
      assert Full(v) % p < p;
    }
  }

  lemma OneByte(b: byte)
    ensures BeValue([b]) == b
  {
    assert [b][..0] == [];
  }

  lemma SomeBytes(sig: Sig, v: NativeValue)
    ensures Need(sig, IsBinary(sig, v)) >= 1
  {
  }

  // ---- The loops ----

  method AppendExact(buf: bytes, src: bytes, want: nat) returns (out: bytes)
    ensures out == buf + Exact(src, want)
  {
    if |src| >= want {
      return buf + src[|src| - want..];
    }
    out := buf;
    for i := 0 to want - |src|
      invariant out == buf + seq(i, _ => 0)
    {
      out := out + [0];
    }
    out := out + src;
    assert (buf + seq(want - |src|, _ => 0)) + src == buf + (seq(want - |src|, _ => 0) + src);
  }

  /** One turn of the entry loop. */
  method AppendOne(dst: bytes, sig: Sig, delta: word, v: Recorded) returns (out: bytes)
    requires Kind(sig, v)
    ensures out == dst + EncOne(sig, delta, v)
  {
    hide EncU, Exact, Wrap, Tag, Body, Blank, Scale;
    if Blank(sig) {
      return dst;
    }
    HeaderReads(Scale(sig), delta, Tag(sig, v));
    out := BufAppendUvarint(dst, Wrap(Scale(sig) * delta) + Tag(sig, v));
    out := AppendBody(out, sig, v);
    assert (dst + EncU(Wrap(Scale(sig) * delta) + Tag(sig, v))) + Body(sig, v)
        == dst + (EncU(Wrap(Scale(sig) * delta) + Tag(sig, v)) + Body(sig, v));
  }

  method AppendBody(dst: bytes, sig: Sig, v: Recorded) returns (out: bytes)
    requires Kind(sig, v) && !Blank(sig)
    ensures out == dst + Body(sig, v)
  {
    hide EncU, Exact;
    if sig.enc == Real {
      out := dst + v.raw;
    } else if sig.enc == Str {
      out := BufAppendUvarint(dst, |v.utf8|);
      out := out + v.utf8;
      assert (dst + EncU(|v.utf8|)) + v.utf8 == dst + (EncU(|v.utf8|) + v.utf8);
    } else if OneBit(sig) {
      out := dst;
    } else {
      out := AppendExact(dst, Source(v.v), Need(sig, IsBinary(sig, v.v)));
    }
  }

  /** The entry loop of `trl_vc_encode_wave`. */
  method EncodeWaveEntries(dst: bytes, sig: Sig, items: seq<Item>, times: array<nat>, count: nat) returns (out: bytes)
    requires count <= times.Length && Fine(sig, items, times[..count])
    ensures out == dst + EncWaveEntries(sig, items, times[..count])
  {
    hide EncU, EncOne, TimeToIdx, Kind, PlaceOf, ItemsOk, NextAt;
    ghost var table, whole := times[..count], EncWaveEntries(sig, items, times[..count]);
    NextFirst(items, table);
    out := BufAppendUvarint(dst, |items|);
    var prevTidx := -1;
    assert dst + whole == out + EncFrom(sig, items, table, 0);
    for i := 0 to |items|
      invariant -1 <= prevTidx < count && prevTidx + 1 == NextAt(items, table, i)
      invariant dst + whole == out + EncFrom(sig, items, table, i)
    {
      var tidx := PlaceIn(times, count, items, i);
      NextIs(items, table, i);
      ghost var before := out;
      out := AppendOne(out, sig, Wrap(tidx - (prevTidx + 1)), items[i].value);
      assert (before + EncOne(sig, DeltaAt(items, table, i), items[i].value)) + EncFrom(sig, items, table, i + 1)
          == before + (EncOne(sig, DeltaAt(items, table, i), items[i].value) + EncFrom(sig, items, table, i + 1));
      prevTidx := tidx;
    }
    assert out + [] == out;
  }

  lemma NextFirst(items: seq<Item>, times: seq<nat>)
    requires ItemsOk(items, times)
    ensures NextAt(items, times, 0) == 0 && |items| < WORD
  {
  }

  method PlaceIn(times: array<nat>, count: nat, items: seq<Item>, i: nat) returns (tidx: nat)
    requires count <= times.Length && ItemsOk(items, times[..count]) && i < |items|
    ensures tidx < count && tidx == PlaceOf(items, times[..count], i)
  {
    hide TimeToIdx, PlaceOf;
    tidx := TimeIndex(times, count, items[i].time);
    FoundPlace(items, times[..count], i, tidx);
  }

  lemma FoundPlace(items: seq<Item>, times: seq<nat>, i: nat, lo: nat)
    requires ItemsOk(items, times) && i < |items| && lo <= |times|
    requires (forall k :: 0 <= k < lo ==> times[k] < items[i].time) && forall k :: lo <= k < |times| ==> times[k] >= items[i].time
    ensures lo == PlaceOf(items, times, i)
  {
    assert times[PlaceOf(items, times, i)] == items[i].time;
    assert lo < |times| ==> times[lo] >= items[i].time;
  }

  /** The reader's loop. */
  method ReadEntries(n: nat, sig: Sig, data: bytes, times: seq<nat>) returns (out: seq<Emitted>, ok: bool)
    requires |times| < TABLE
    ensures (out, ok) == EmitEntries(n, sig, data, 0, times)
  {
    hide ReadOne, After, Blank;
    out, ok := [], true;
    var rest, next: nat := data, 0;
    AfterTwice([], [], EmitEntries(n, sig, data, 0, times));
    for i := 0 to n
      invariant EmitEntries(n, sig, data, 0, times) == After(out, EmitEntries(n - i, sig, rest, next, times))
    {
      var tidx: nat, value: bytes := 0, [];
      if !Blank(sig) {
        match ReadOne(sig, rest) {
          case Broken =>
            AfterTwice(out, [], ([], false));
            return out, false;
          case Cut =>
            AfterTwice(out, [], ([], true));
            return out, true;
          case Found(delta, v, more) =>
            tidx, value := Wrap(next + delta), v;
            rest, next := more, tidx + 1;
        }
      }
      if tidx >= |times| {
        AfterTwice(out, [], ([], false));
        return out, false;
      }
      AfterTwice(out, [Emitted(times[tidx], value)], EmitEntries(n - i - 1, sig, rest, next, times));
      out := out + [Emitted(times[tidx], value)];
    }
    AfterTwice(out, [], ([], true));
  }
}
