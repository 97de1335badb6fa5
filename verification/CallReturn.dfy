/** The call/return codec: `python/src/trlog/ext/callreturn.py`.  Integer arguments are coded against
    the previous call of the same function, and a call seen a moment ago collapses to its distance in
    a bounded window.  Reading works because both sides rebuild the same predictors and window. */
module CallReturn {
  import opened Bits
  import opened Bytes
  import opened Varint
  import opened StringTables

  /** `Nothing` is a type the tables allow but whose values are never written. */
  datatype ArgType = Nothing | UInt | Int | Real | Text

  /** A REAL is its eight bytes, and `Missing` is what a NONE argument holds. */
  datatype Arg = Num(n: int) | Dbl(raw: bytes) | Txt(s: bytes) | Missing

  datatype Signature = Signature(name: bytes, args: seq<ArgType>)
  type Signatures = map<nat, Signature>

  datatype Event =
    | Enter(time: int, func: nat, args: seq<Arg>)
    | Exit(time: int, ret: Option<int>)

  /** A decoded event: entries also carry the function's name. */
  datatype Shown =
    | Entered(time: int, func: nat, name: bytes, args: seq<Arg>)
    | Left(time: int, ret: Option<int>)

  datatype Frame = Frame(func: nat, args: seq<Arg>)

  /** What writer and reader each rebuild: the last time, the predictors, and the window. */
  datatype State = State(time: int, prev: map<nat, seq<Arg>>, window: seq<Frame>)

  const START := State(0, map[], [])

  // ---- What the format can carry ----

  predicate Int64(n: int) {
    -HALF <= n < HALF
  }

  /** Nobody looks at the value of a NONE argument. */
  predicate ArgOk(t: ArgType, a: Arg) {
    match t
    case Nothing => true
    case UInt | Int => a.Num?
    case Real => a.Dbl? && |a.raw| == 8
    case Text => a.Txt?
  }

  predicate ArgsOk(types: seq<ArgType>, args: seq<Arg>) {
    |args| == |types| && forall i :: 0 <= i < |types| ==> ArgOk(types[i], args[i])
  }

  /** Predictors hold a number wherever the signature has an integer. */
  predicate PrevOk(types: seq<ArgType>, prev: seq<Arg>) {
    |prev| == |types| && forall i :: 0 <= i < |types| && types[i] in {UInt, Int} ==> prev[i].Num?
  }

  predicate AllPrevOk(sigs: Signatures, prev: map<nat, seq<Arg>>) {
    forall f :: f in prev ==> f in sigs && PrevOk(sigs[f].args, prev[f])
  }

  /** `prev_args.setdefault(func, [0] * n)`. */
  function Predictor(prev: map<nat, seq<Arg>>, func: nat, n: nat): (p: seq<Arg>)
    ensures func !in prev ==> |p| == n
  {
    if func in prev then prev[func] else seq(n, _ => Num(0))
  }

  // ---- Arguments ----

  /** `int(x)` on a predictor.  The writer only ever finds numbers there. */
  function IntOf(a: Arg): Option<int> {
    match a
    case Num(n) => Some(n)
    case Dbl(raw) => Integral(raw)
    case Txt(s) => Decimal(s)
    case Missing => None
  }

  const FRACTION: int := 0x10_0000_0000_0000

  /** `int(x)` of a double cuts towards zero; infinities and NaN raise. */
  function Integral(raw: bytes): Option<int> {
    var w := LeValue(raw);
    var exponent, digits := w / FRACTION % 2048, FRACTION + w % FRACTION;
    if exponent == 2047 then None
    else
      var size := if exponent >= 1075 then Shl(digits, exponent - 1075) else Shr(digits, 1075 - exponent);
      Some(if w >= HALF then -size else size)
  }

  /** `int(x)` of a text: a sign and decimal digits. */
  function Decimal(s: bytes): Option<int> {
    if s == [] then None
    else if s[0] in {0x2B, 0x2D} then
      match Digits(s[1..])
      case None => None
      case Some(n) => if |s| == 1 then None else Some(if s[0] == 0x2D then -n else n)
    else Digits(s)
  }

  function Digits(s: bytes): Option<int> {
    if s == [] then Some(0)
    else
      var last := s[|s| - 1];
      match Digits(s[..|s| - 1])
      case None => None
      case Some(n) => if 0x30 <= last <= 0x39 then Some(10 * n + last - 0x30) else None
  }

  /** Bytes out, predictor after, string table after. */
  datatype ArgsOut = ArgsOut(out: bytes, prev: seq<Arg>, table: Strings)

  /** `_encode_args` from argument `i` on. */
  function EncArgs(types: seq<ArgType>, args: seq<Arg>, i: nat, prev: seq<Arg>, table: Strings): ArgsOut
    requires i <= |types| && ArgsOk(types, args) && PrevOk(types, prev)
    decreases |types| - i
  {
    if i == |types| then ArgsOut([], prev, table)
    else
      assert ArgOk(types[i], args[i]);
      match types[i]
      case UInt | Int =>
        var o := EncArgs(types, args, i + 1, prev[i := args[i]], table);
        o.(out := EncS(args[i].n - prev[i].n) + o.out)
      case Real =>
        var o := EncArgs(types, args, i + 1, prev, table);
        o.(out := args[i].raw + o.out)
      case Text =>
        var o := EncArgs(types, args, i + 1, prev, After(table, args[i].s));
        o.(out := EncU(IdOf(table, args[i].s)) + o.out)
      case Nothing => EncArgs(types, args, i + 1, prev, table)
  }

  datatype ArgsIn = ArgsIn(args: seq<Arg>, prev: seq<Arg>)

  /** `_decode_args` from argument `i` on, against any list as predictor. */
  function DecArgs(types: seq<ArgType>, i: nat, prev: seq<Arg>, table: Strings, s: bytes): Parse<ArgsIn>
    requires i <= |types|
    decreases |types| - i
  {
    if i == |types| then Ok(ArgsIn([], prev), s)
    else match types[i]
      case Nothing => DecArgs(types, i + 1, prev, table, s)
      case UInt | Int =>
        var (d, s1) :- DecS(s);
        (match if i < |prev| then IntOf(prev[i]) else None
         case None => Fail(Corrupt)
         case Some(p) =>
           var v := Num(p + d);
           var (more, rest) :- DecArgs(types, i + 1, prev[i := v], table, s1);
           Ok(more.(args := [v] + more.args), rest))
      case Real =>
        if |s| < 8 then Fail(Truncated)
        else
          var (more, rest) :- DecArgs(types, i + 1, prev, table, s[8..]);
          Ok(more.(args := [Dbl(s[..8])] + more.args), rest)
      case Text =>
        var (id, s1) :- DecU(s);
        match Resolve(table, id)
        case None => Fail(Corrupt)
        case Some(str) =>
          var (more, rest) :- DecArgs(types, i + 1, prev, table, s1);
          Ok(more.(args := [Txt(str)] + more.args), rest)
  }

  lemma PrevAt(types: seq<ArgType>, prev: seq<Arg>, i: nat, v: int)
    requires i < |types| && PrevOk(types, prev)
    ensures |prev| == |types| && PrevOk(types, prev[i := Num(v)])
    ensures types[i] in {UInt, Int} ==> prev[i].Num?
  {
  }

  lemma ArgAt(types: seq<ArgType>, args: seq<Arg>, i: nat)
    requires i < |types| && ArgsOk(types, args)
    ensures |args| == |types| && ArgOk(types[i], args[i])
  {
  }

  function NumIn(a: Arg): int {
    if a.Num? then a.n else 0
  }

  /** From argument `i` on, each integer is within 64 bits of its predictor. */
  predicate DeltasFit(types: seq<ArgType>, args: seq<Arg>, i: nat, prev: seq<Arg>)
    requires |args| == |prev| == |types|
  {
    forall k :: i <= k < |types| && types[k] in {UInt, Int} ==> Int64(NumIn(args[k]) - NumIn(prev[k]))
  }

  /** What a reader gets of the arguments from `i` on: all but the NONE ones. */
  function Kept(types: seq<ArgType>, args: seq<Arg>, i: nat): seq<Arg>
    requires |args| == |types| && i <= |types|
    decreases |types| - i
  {
    if i == |types| then []
    else if types[i] == Nothing then Kept(types, args, i + 1)
    else [args[i]] + Kept(types, args, i + 1)
  }

  lemma {:induction false} AllKept(types: seq<ArgType>, args: seq<Arg>, i: nat)
    requires |args| == |types| && i <= |types| && Nothing !in types
    ensures Kept(types, args, i) == args[i..]
    decreases |types| - i
  {
    if i < |types| {
      assert types[i] in types;
      AllKept(types, args, i + 1);
      assert [args[i]] + args[i + 1..] == args[i..];
    }
  }

  /** The numbers two argument lists hold where the signature has integers. */
  predicate SameNums(types: seq<ArgType>, a: seq<Arg>, b: seq<Arg>) {
    |a| == |b| == |types| && forall k :: 0 <= k < |types| && types[k] in {UInt, Int} ==> NumIn(a[k]) == NumIn(b[k])
  }

  /** Interning arguments only ever extends the table, and the predictor becomes the call's integers. */
  lemma {:induction false} ArgsExtend(types: seq<ArgType>, args: seq<Arg>, i: nat, prev: seq<Arg>, table: Strings)
    requires i <= |types| && ArgsOk(types, args) && PrevOk(types, prev) && Distinct(table)
    ensures var o := EncArgs(types, args, i, prev, table);
            Distinct(o.table) && table <= o.table && PrevOk(types, o.prev) &&
            (forall k :: 0 <= k < i ==> o.prev[k] == prev[k]) &&
            forall k :: i <= k < |types| && types[k] in {UInt, Int} ==> o.prev[k] == args[k]
    decreases |types| - i
  {
    hide EncS, EncU, IdOf, After;
    if i < |types| {
      assert ArgOk(types[i], args[i]);
      match types[i]
      case UInt | Int => ArgsExtend(types, args, i + 1, prev[i := args[i]], table);
      case Real | Nothing => ArgsExtend(types, args, i + 1, prev, table);
      case Text =>
        InternLaws(table, args[i].s, []);
        ArgsExtend(types, args, i + 1, prev, After(table, args[i].s));
    }
  }

  lemma ResolveExtends(table: Strings, final: Strings, id: nat)
    requires table <= final && Lookup(table, id).Some? && |final| < LIMIT
    ensures Resolve(final, id) == Lookup(table, id) && id < LIMIT
  {
  }

  /** Argument `i` on reads back, against a table that extends the writer's, and leaves the reader with
      the writer's predictor. */
  ghost predicate ReadsBack(types: seq<ArgType>, args: seq<Arg>, i: nat, prev: seq<Arg>, table: Strings, final: Strings,
                            t: bytes)
    requires i <= |types| && ArgsOk(types, args) && PrevOk(types, prev)
  {
    var o := EncArgs(types, args, i, prev, table);
    DecArgs(types, i, prev, final, o.out + t) == Ok(ArgsIn(Kept(types, args, i), o.prev), t)
  }

  lemma NumStep(types: seq<ArgType>, args: seq<Arg>, i: nat, prev: seq<Arg>, table: Strings, final: Strings, t: bytes)
    requires i < |types| && types[i] in {UInt, Int} && ArgsOk(types, args) && PrevOk(types, prev)
    requires Int64(NumIn(args[i]) - NumIn(prev[i]))
    requires ArgOk(types[i], args[i]) && ReadsBack(types, args, i + 1, prev[i := args[i]], table, final, t)
    ensures ReadsBack(types, args, i, prev, table, final, t)
  {
    hide EncS, DecS, ArgsOk, PrevOk;
    ArgAt(types, args, i);
    PrevAt(types, prev, i, args[i].n);
    var o := EncArgs(types, args, i + 1, prev[i := args[i]], table);
    var d := args[i].n - prev[i].n;
    assert EncArgs(types, args, i, prev, table).out + t == EncS(d) + (o.out + t);
    SRoundTrip(d, o.out + t);
  }

  lemma RealStep(types: seq<ArgType>, args: seq<Arg>, i: nat, prev: seq<Arg>, table: Strings, final: Strings, t: bytes)
    requires i < |types| && types[i] == Real && ArgsOk(types, args) && PrevOk(types, prev)
    requires ReadsBack(types, args, i + 1, prev, table, final, t)
    ensures ReadsBack(types, args, i, prev, table, final, t)
  {
    hide ArgsOk, PrevOk;
    ArgAt(types, args, i);
    var o := EncArgs(types, args, i + 1, prev, table);
    assert EncArgs(types, args, i, prev, table).out + t == args[i].raw + (o.out + t);
    SliceRoundTrip(args[i].raw, o.out + t);
  }

  lemma TextStep(types: seq<ArgType>, args: seq<Arg>, i: nat, prev: seq<Arg>, table: Strings, final: Strings, t: bytes)
    requires i < |types| && types[i] == Text && ArgsOk(types, args) && PrevOk(types, prev) && Distinct(table)
    requires ArgOk(types[i], args[i]) && ReadsBack(types, args, i + 1, prev, After(table, args[i].s), final, t)
    requires EncArgs(types, args, i, prev, table).table <= final && |final| < LIMIT
    ensures ReadsBack(types, args, i, prev, table, final, t)
  {
    hide EncU, DecU, IdOf, After, Lookup, Resolve, ArgsOk, PrevOk;
    ArgAt(types, args, i);
    var id := TextId(types, args, i, prev, table, final);
    var o := EncArgs(types, args, i + 1, prev, After(table, args[i].s));
    assert EncArgs(types, args, i, prev, table).out + t == EncU(id) + (o.out + t);
    URoundTrip(id, o.out + t);
  }

  /** The id of a text argument still finds it in any later table. */
  lemma TextId(types: seq<ArgType>, args: seq<Arg>, i: nat, prev: seq<Arg>, table: Strings, final: Strings)
    returns (id: nat)
    requires i < |types| && types[i] == Text && ArgsOk(types, args) && PrevOk(types, prev) && Distinct(table)
    requires ArgOk(types[i], args[i])
    requires EncArgs(types, args, i, prev, table).table <= final && |final| < LIMIT
    ensures id == IdOf(table, args[i].s) && id < LIMIT && Resolve(final, id) == Some(args[i].s)
  {
    hide EncU, IdOf, After, Lookup, Resolve, ArgsOk, PrevOk;
    ArgAt(types, args, i);
    var s := args[i].s;
    var next := After(table, s);
    id := IdOf(table, s);
    InternLaws(table, s, []);
    ArgsExtend(types, args, i + 1, prev, next);
    ResolveExtends(next, final, id);
  }

  /** Arguments whose integers are within reach read back, but for the NONE ones. */
  lemma {:induction false} ArgsRoundTrip(types: seq<ArgType>, args: seq<Arg>, i: nat, prev: seq<Arg>, table: Strings,
                                         final: Strings, t: bytes)
    requires i <= |types| && ArgsOk(types, args) && PrevOk(types, prev) && Distinct(table)
    requires DeltasFit(types, args, i, prev)
    requires EncArgs(types, args, i, prev, table).table <= final && |final| < LIMIT
    ensures ReadsBack(types, args, i, prev, table, final, t)
    decreases |types| - i
  {
    hide EncS, EncU, IdOf, After, ArgsOk, PrevOk, ReadsBack;
    if i == |types| {
      NothingLeft(types, args, prev, table, final, t);
    } else {
      ArgAt(types, args, i);
      match types[i]
      case UInt | Int =>
        PrevAt(types, prev, i, args[i].n);
        ArgsRoundTrip(types, args, i + 1, prev[i := args[i]], table, final, t);
        NumStep(types, args, i, prev, table, final, t);
      case Real =>
        ArgsRoundTrip(types, args, i + 1, prev, table, final, t);
        RealStep(types, args, i, prev, table, final, t);
      case Text =>
        InternLaws(table, args[i].s, []);
        ArgsRoundTrip(types, args, i + 1, prev, After(table, args[i].s), final, t);
        TextStep(types, args, i, prev, table, final, t);
      case Nothing =>
        ArgsRoundTrip(types, args, i + 1, prev, table, final, t);
        SkipStep(types, args, i, prev, table, final, t);
    }
  }

  lemma SkipStep(types: seq<ArgType>, args: seq<Arg>, i: nat, prev: seq<Arg>, table: Strings, final: Strings, t: bytes)
    requires i < |types| && types[i] == Nothing && ArgsOk(types, args) && PrevOk(types, prev)
    requires ReadsBack(types, args, i + 1, prev, table, final, t)
    ensures ReadsBack(types, args, i, prev, table, final, t)
  {
    hide ArgsOk, PrevOk;
  }

  lemma NothingLeft(types: seq<ArgType>, args: seq<Arg>, prev: seq<Arg>, table: Strings, final: Strings, t: bytes)
    requires ArgsOk(types, args) && PrevOk(types, prev)
    ensures ReadsBack(types, args, |types|, prev, table, final, t)
  {
    assert [] + t == t;
  }

  /** Whatever the bytes and the predictor, no more arguments come back than there are types that are
      not NONE. */
  lemma {:induction false} FewerArgs(types: seq<ArgType>, i: nat, prev: seq<Arg>, table: Strings, s: bytes)
    requires i <= |types|
    ensures var r := DecArgs(types, i, prev, table, s);
            r.Ok? ==> |r.value.args| <= |types| - i && (Nothing in types[i..] ==> |r.value.args| < |types| - i)
    decreases |types| - i
  {
    hide DecS, DecU, IntOf, Resolve;
    if i < |types| {
      assert types[i..] == [types[i]] + types[i + 1..];
      match types[i]
      case Nothing => FewerArgs(types, i + 1, prev, table, s);
      case UInt | Int =>
        var d := DecS(s);
        if d.Ok? && i < |prev| && IntOf(prev[i]).Some? {
          FewerArgs(types, i + 1, prev[i := Num(IntOf(prev[i]).value + d.value)], table, d.rest);
        }
      case Real =>
        if |s| >= 8 {
          FewerArgs(types, i + 1, prev, table, s[8..]);
        }
      case Text =>
        var id := DecU(s);
        if id.Ok? {
          FewerArgs(types, i + 1, prev, table, id.rest);
        }
    }
  }

  /** Argument `i` on comes back wrong, or not at all. */
  ghost predicate Misread(types: seq<ArgType>, args: seq<Arg>, i: nat, prev: seq<Arg>, table: Strings, final: Strings,
                          t: bytes)
    requires i <= |types| && ArgsOk(types, args) && PrevOk(types, prev)
  {
    var r := DecArgs(types, i, prev, final, EncArgs(types, args, i, prev, table).out + t);
    r.Fail? || r.value.args != args[i..]
  }

  /** An integer out of reach of its predictor comes back as another integer. */
  lemma {:induction false} FarIntegerMisread(types: seq<ArgType>, args: seq<Arg>, i: nat, prev: seq<Arg>,
                                             table: Strings, final: Strings, t: bytes)
    requires i <= |types| && ArgsOk(types, args) && PrevOk(types, prev) && Distinct(table) && Nothing !in types
    requires !DeltasFit(types, args, i, prev)
    requires EncArgs(types, args, i, prev, table).table <= final && |final| < LIMIT
    ensures Misread(types, args, i, prev, table, final, t)
    decreases |types| - i
  {
    hide EncS, EncU, DecS, DecU, IdOf, After, Resolve, ArgsOk, PrevOk, Misread;
    ArgAt(types, args, i);
    assert types[i] in types;
    match types[i]
    case UInt | Int =>
      PrevAt(types, prev, i, args[i].n);
      if Int64(args[i].n - prev[i].n) {
        FarIntegerMisread(types, args, i + 1, prev[i := args[i]], table, final, t);
      }
      NumMisread(types, args, i, prev, table, final, t);
    case Real =>
      FarIntegerMisread(types, args, i + 1, prev, table, final, t);
      RealMisread(types, args, i, prev, table, final, t);
    case Text =>
      InternLaws(table, args[i].s, []);
      FarIntegerMisread(types, args, i + 1, prev, After(table, args[i].s), final, t);
      TextMisread(types, args, i, prev, table, final, t);
  }

  lemma NumMisread(types: seq<ArgType>, args: seq<Arg>, i: nat, prev: seq<Arg>, table: Strings, final: Strings, t: bytes)
    requires i < |types| && types[i] in {UInt, Int} && ArgsOk(types, args) && PrevOk(types, prev)
    requires ArgOk(types[i], args[i]) && PrevOk(types, prev[i := args[i]])
    requires Int64(NumIn(args[i]) - NumIn(prev[i])) ==> Misread(types, args, i + 1, prev[i := args[i]], table, final, t)
    ensures Misread(types, args, i, prev, table, final, t)
  {
    hide EncS, DecS, ArgsOk, PrevOk;
    ArgAt(types, args, i);
    PrevAt(types, prev, i, args[i].n);
    var o := EncArgs(types, args, i + 1, prev[i := args[i]], table);
    var d := args[i].n - prev[i].n;
    assert EncArgs(types, args, i, prev, table).out + t == EncS(d) + (o.out + t);
    SReads(d, o.out + t);
    assert args[i..][0] == args[i] && args[i..][1..] == args[i + 1..];
  }

  lemma RealMisread(types: seq<ArgType>, args: seq<Arg>, i: nat, prev: seq<Arg>, table: Strings, final: Strings, t: bytes)
    requires i < |types| && types[i] == Real && ArgsOk(types, args) && PrevOk(types, prev)
    requires Misread(types, args, i + 1, prev, table, final, t)
    ensures Misread(types, args, i, prev, table, final, t)
  {
    hide ArgsOk, PrevOk;
    ArgAt(types, args, i);
    var o := EncArgs(types, args, i + 1, prev, table);
    assert EncArgs(types, args, i, prev, table).out + t == args[i].raw + (o.out + t);
    SliceRoundTrip(args[i].raw, o.out + t);
    assert args[i..][0] == args[i] && args[i..][1..] == args[i + 1..];
  }

  lemma TextMisread(types: seq<ArgType>, args: seq<Arg>, i: nat, prev: seq<Arg>, table: Strings, final: Strings, t: bytes)
    requires i < |types| && types[i] == Text && ArgsOk(types, args) && PrevOk(types, prev) && Distinct(table)
    requires ArgOk(types[i], args[i]) && Misread(types, args, i + 1, prev, After(table, args[i].s), final, t)
    requires EncArgs(types, args, i, prev, table).table <= final && |final| < LIMIT
    ensures Misread(types, args, i, prev, table, final, t)
  {
    hide EncU, DecU, IdOf, After, Lookup, Resolve, ArgsOk, PrevOk;
    ArgAt(types, args, i);
    var id := TextId(types, args, i, prev, table, final);
    var o := EncArgs(types, args, i + 1, prev, After(table, args[i].s));
    assert EncArgs(types, args, i, prev, table).out + t == EncU(id) + (o.out + t);
    URoundTrip(id, o.out + t);
    assert args[i..][0] == args[i] && args[i..][1..] == args[i + 1..];
  }

  // ---- The window ----

  /** `_window_find`: the distance from the end of the first equal frame. */
  function Find(window: seq<Frame>, f: Frame): (d: Option<nat>)
    ensures d.None? <==> f !in window
    ensures d.Some? ==> d.value < |window| && window[|window| - 1 - d.value] == f
  {
    if window == [] then None
    else if window[0] == f then Some(|window| - 1)
    else
      var d := Find(window[1..], f);
      assert d.Some? ==> window[1..][|window| - 2 - d.value] == window[|window| - 1 - d.value];
      assert f in window <==> f in window[1..];
      d
  }

  /** `_window_push`: the oldest frame falls out when the window is over its cap. */
  function PushFrame(window: seq<Frame>, f: Frame, cap: nat): seq<Frame> {
    var w := window + [f];
    if |w| > cap then w[1..] else w
  }

  ghost predicate WindowOk(window: seq<Frame>, cap: nat) {
    |window| <= cap && forall i, j :: 0 <= i < j < |window| ==> window[i] != window[j]
  }

  lemma PushKeeps(window: seq<Frame>, f: Frame, cap: nat)
    requires WindowOk(window, cap) && f !in window
    ensures WindowOk(PushFrame(window, f, cap), cap)
  {
  }

  // ---- Events ----

  datatype EventOut = EventOut(out: bytes, state: State, table: Strings)

  predicate EventOk(ev: Event, sigs: Signatures) {
    match ev
    case Enter(_, func, args) => func in sigs && ArgsOk(sigs[func].args, args)
    case Exit(_, _) => true
  }

  /** Every frame of the window is a call that matches its signature. */
  predicate FramesOk(window: seq<Frame>, sigs: Signatures) {
    forall f :: f in window ==> f.func in sigs && ArgsOk(sigs[f.func].args, f.args)
  }

  predicate StateOk(st: State, sigs: Signatures) {
    AllPrevOk(sigs, st.prev) && FramesOk(st.window, sigs)
  }

  lemma PredictorOk(st: State, sigs: Signatures, func: nat)
    requires StateOk(st, sigs) && func in sigs
    ensures PrevOk(sigs[func].args, Predictor(st.prev, func, |sigs[func].args|))
  {
  }

  /** One turn of the loop of `_encode_events`. */
  function EncEvent(ev: Event, st: State, cap: nat, sigs: Signatures, table: Strings): EventOut
    requires EventOk(ev, sigs) && StateOk(st, sigs)
  {
    var dt := EncS(ev.time - st.time);
    match ev
    case Enter(time, func, args) =>
      var types := sigs[func].args;
      PredictorOk(st, sigs, func);
      var frame := Frame(func, args);
      (match Find(st.window, frame)
       case Some(d) =>
         EventOut([3] + EncU(d) + dt, State(time, st.prev[func := args], st.window), table)
       case None =>
         var o := EncArgs(types, args, 0, Predictor(st.prev, func, |types|), table);
         EventOut([1] + EncU(func) + o.out + dt,
                  State(time, st.prev[func := o.prev], PushFrame(st.window, frame, cap)), o.table))
    case Exit(time, ret) =>
      match ret
      case Some(v) => EventOut([4] + dt + EncS(v), State(time, st.prev, st.window), table)
      case None => EventOut([0] + dt, State(time, st.prev, st.window), table)
  }

  datatype EventIn = EventIn(event: Shown, state: State)

  /** Python's indexing: a negative index counts from the end. */
  function PyIndex(window: seq<Frame>, j: int): Option<Frame> {
    if 0 <= j < |window| then Some(window[j])
    else if -|window| <= j < 0 then Some(window[|window| + j])
    else None
  }

  function NameOf(sigs: Signatures, func: nat): bytes {
    if func in sigs then sigs[func].name else []
  }

  /** One turn of the loop of `_decode_block`. */
  function DecEvent(st: State, cap: nat, sigs: Signatures, table: Strings, s: bytes): Parse<EventIn> {
    var (tag, s1) :- DecByte(s);
    if tag % 2 == 1 then
      if tag / 2 % 2 == 1 then DecRepeat(st, sigs, s1) else DecCall(st, cap, sigs, table, s1)
    else DecExit(st, tag / 4 % 2 == 1, s1)
  }

  function DecRepeat(st: State, sigs: Signatures, s: bytes): Parse<EventIn> {
    var (d, s1) :- DecU(s);
    match PyIndex(st.window, |st.window| - 1 - d)
    case None => Fail(Corrupt)
    case Some(f) =>
      var (dt, rest) :- DecS(s1);
      var time := st.time + dt;
      Ok(EventIn(Entered(time, f.func, NameOf(sigs, f.func), f.args),
                 State(time, st.prev[f.func := f.args], st.window)), rest)
  }

  function DecCall(st: State, cap: nat, sigs: Signatures, table: Strings, s: bytes): Parse<EventIn> {
    var (func, s1) :- DecU(s);
    if func !in sigs then Fail(Corrupt)
    else
      var types := sigs[func].args;
      DecCallTail(func, DecArgs(types, 0, Predictor(st.prev, func, |types|), table, s1), st, cap, sigs)
  }

  function DecCallTail(func: nat, args: Parse<ArgsIn>, st: State, cap: nat, sigs: Signatures): Parse<EventIn>
    requires func in sigs
  {
    var (a, s2) :- args;
    var (dt, rest) :- DecS(s2);
    var time := st.time + dt;
    Ok(EventIn(Entered(time, func, sigs[func].name, a.args),
               State(time, st.prev[func := a.prev], PushFrame(st.window, Frame(func, a.args), cap))), rest)
  }

  function DecExit(st: State, hasRet: bool, s: bytes): Parse<EventIn> {
    var (dt, s1) :- DecS(s);
    var time := st.time + dt;
    var next := State(time, st.prev, st.window);
    if hasRet then
      var (v, rest) :- DecS(s1);
      Ok(EventIn(Left(time, Some(v)), next), rest)
    else Ok(EventIn(Left(time, None), next), s1)
  }

  function Show(ev: Event, sigs: Signatures): Shown {
    match ev
    case Enter(time, func, args) => Entered(time, func, NameOf(sigs, func), args)
    case Exit(time, ret) => Left(time, ret)
  }

  /** What an event needs to come back: differences and returns of 64 bits, and a call without NONE
      arguments.  `last` holds the integers of the function's previous call; nothing is asked of them when
      the frame is still in the window. */
  predicate Carried(ev: Event, time: int, window: seq<Frame>, last: seq<Arg>, sigs: Signatures)
    requires EventOk(ev, sigs) && (ev.Enter? ==> |last| == |sigs[ev.func].args|)
  {
    Int64(ev.time - time) &&
    match ev
    case Enter(_, func, args) =>
      Nothing !in sigs[func].args &&
      (Frame(func, args) in window || (func < LIMIT && DeltasFit(sigs[func].args, args, 0, last)))
    case Exit(_, ret) => ret.Some? ==> Int64(ret.value)
  }

  function LastOf(ev: Event, st: State, sigs: Signatures): (r: seq<Arg>)
    requires EventOk(ev, sigs) && StateOk(st, sigs)
    ensures ev.Enter? ==> |r| == |sigs[ev.func].args|
  {
    if ev.Exit? then []
    else
      PredictorOk(st, sigs, ev.func);
      Predictor(st.prev, ev.func, |sigs[ev.func].args|)
  }

  predicate EventFits(ev: Event, st: State, sigs: Signatures)
    requires EventOk(ev, sigs) && StateOk(st, sigs)
  {
    Carried(ev, st.time, st.window, LastOf(ev, st, sigs), sigs)
  }

  /** A function's predictor after a repeated frame is the frame itself. */
  lemma FrameIsPrev(sigs: Signatures, func: nat, args: seq<Arg>)
    requires func in sigs && ArgsOk(sigs[func].args, args)
    ensures PrevOk(sigs[func].args, args)
  {
    var types := sigs[func].args;
    forall i | 0 <= i < |types| && types[i] in {UInt, Int}
      ensures args[i].Num?
    {
      assert ArgOk(types[i], args[i]);
    }
  }

  /** An event keeps the state well formed, its window free of duplicates and within its cap, and only
      extends the string table. */
  lemma EventKeeps(ev: Event, st: State, cap: nat, sigs: Signatures, table: Strings)
    requires EventOk(ev, sigs) && StateOk(st, sigs) && WindowOk(st.window, cap) && Distinct(table)
    ensures var o := EncEvent(ev, st, cap, sigs, table);
            StateOk(o.state, sigs) && WindowOk(o.state.window, cap) && Distinct(o.table) && table <= o.table
  {
    hide EncS, EncU, EncArgs, PushFrame, ArgsOk, PrevOk, WindowOk, FramesOk;
    if ev.Enter? {
      PredictorOk(st, sigs, ev.func);
      var types := sigs[ev.func].args;
      var frame := Frame(ev.func, ev.args);
      if Find(st.window, frame).Some? {
        FrameIsPrev(sigs, ev.func, ev.args);
      } else {
        ArgsExtend(types, ev.args, 0, Predictor(st.prev, ev.func, |types|), table);
        PushKeeps(st.window, frame, cap);
        PushFrames(st.window, frame, cap, sigs);
      }
    }
  }

  lemma PushAdds(window: seq<Frame>, f: Frame, cap: nat)
    ensures forall g :: g in PushFrame(window, f, cap) ==> g in window || g == f
  {
  }

  lemma PushFrames(window: seq<Frame>, f: Frame, cap: nat, sigs: Signatures)
    requires FramesOk(window, sigs) && f.func in sigs && ArgsOk(sigs[f.func].args, f.args)
    ensures FramesOk(PushFrame(window, f, cap), sigs)
  {
    PushAdds(window, f, cap);
  }

  /** No call in the window has NONE arguments: nothing a reader would have lost. */
  predicate Plain(window: seq<Frame>, sigs: Signatures) {
    forall f :: f in window && f.func in sigs ==> Nothing !in sigs[f.func].args
  }

  /** The reader gets the event and goes to the writer's state if the event fits, and otherwise gets
      another event or none. */
  ghost predicate ReadsExactly(r: Parse<EventIn>, ev: Event, st: State, cap: nat, sigs: Signatures, table: Strings,
                               t: bytes)
    requires EventOk(ev, sigs) && StateOk(st, sigs)
  {
    if EventFits(ev, st, sigs) then r == Ok(EventIn(Show(ev, sigs), EncEvent(ev, st, cap, sigs, table).state), t)
    else r.Fail? || r.value.event != Show(ev, sigs)
  }

  lemma RepeatExact(ev: Event, st: State, cap: nat, sigs: Signatures, table: Strings, t: bytes)
    requires ev.Enter? && EventOk(ev, sigs) && StateOk(st, sigs) && |st.window| < LIMIT && Plain(st.window, sigs)
    requires Find(st.window, Frame(ev.func, ev.args)).Some?
    ensures var o := EncEvent(ev, st, cap, sigs, table);
            o.out != [] && o.out[0] == 3 && ReadsExactly(DecRepeat(st, sigs, o.out[1..] + t), ev, st, cap, sigs, table, t)
  {
    hide EncS, EncU, DecS, DecU, ArgsOk, AllPrevOk, FramesOk, DeltasFit;
    var d := Find(st.window, Frame(ev.func, ev.args)).value;
    var dt := EncS(ev.time - st.time);
    var o := EncEvent(ev, st, cap, sigs, table);
    assert o.out[1..] + t == EncU(d) + (dt + t);
    URoundTrip(d, dt + t);
    SReads(ev.time - st.time, t);
    SRoundTrip(ev.time - st.time, t);
    assert Frame(ev.func, ev.args) in st.window;
  }

  /** How a call that is written out reads in any reader's state: by its function's id and its arguments. */
  lemma CallReads(ev: Event, st: State, reader: State, cap: nat, sigs: Signatures, table: Strings, final: Strings,
                  t: bytes)
    returns (a: Parse<ArgsIn>)
    requires ev.Enter? && EventOk(ev, sigs) && StateOk(st, sigs) && Distinct(table)
    requires Find(st.window, Frame(ev.func, ev.args)).None?
    ensures var o := EncEvent(ev, st, cap, sigs, table);
            var types := sigs[ev.func].args;
            var tail := EncS(ev.time - st.time) + t;
            var prev := Predictor(st.prev, ev.func, |types|);
            PrevOk(types, prev) &&
            a == DecArgs(types, 0, Predictor(reader.prev, ev.func, |types|), final,
                         EncArgs(types, ev.args, 0, prev, table).out + tail) &&
            o.out != [] && o.out[0] == 1 &&
            DecCall(reader, cap, sigs, final, o.out[1..] + t) ==
              if ev.func >= LIMIT then Fail(TooLarge) else DecCallTail(ev.func, a, reader, cap, sigs)
  {
    hide EncS, EncU, DecS, DecU, ArgsOk, PrevOk, AllPrevOk, FramesOk, EncArgs, DecArgs, PushFrame, Find;
    PredictorOk(st, sigs, ev.func);
    var types := sigs[ev.func].args;
    var prev := Predictor(st.prev, ev.func, |types|);
    var dt := EncS(ev.time - st.time);
    var out := EncArgs(types, ev.args, 0, prev, table).out;
    a := DecArgs(types, 0, Predictor(reader.prev, ev.func, |types|), final, out + (dt + t));
    assert EncEvent(ev, st, cap, sigs, table).out[1..] + t == EncU(ev.func) + (out + (dt + t));
    URoundTrip(ev.func, out + (dt + t));
  }

  lemma SameLengths(types: seq<ArgType>, args: seq<Arg>, prev: seq<Arg>)
    requires ArgsOk(types, args) && PrevOk(types, prev)
    ensures |args| == |prev| == |types|
  {
  }

  lemma CallExact(ev: Event, st: State, cap: nat, sigs: Signatures, table: Strings, final: Strings, t: bytes)
    requires ev.Enter? && EventOk(ev, sigs) && StateOk(st, sigs) && Distinct(table)
    requires Find(st.window, Frame(ev.func, ev.args)).None?
    requires EncEvent(ev, st, cap, sigs, table).table <= final && |final| < LIMIT
    ensures var o := EncEvent(ev, st, cap, sigs, table);
            o.out != [] && o.out[0] == 1 &&
            ReadsExactly(DecCall(st, cap, sigs, final, o.out[1..] + t), ev, st, cap, sigs, table, t)
  {
    hide EncS, EncU, DecS, DecU, ArgsOk, PrevOk, AllPrevOk, FramesOk, EncArgs, DecArgs, PushFrame, Find, DecCall, DeltasFit;
    PredictorOk(st, sigs, ev.func);
    var types := sigs[ev.func].args;
    var prev := Predictor(st.prev, ev.func, |types|);
    var tail := EncS(ev.time - st.time) + t;
    var a := CallReads(ev, st, st, cap, sigs, table, final, t);
    SameLengths(types, ev.args, prev);
    assert ev.args[0..] == ev.args && types[0..] == types;
    if Nothing in types {
      FewerArgs(types, 0, prev, final, EncArgs(types, ev.args, 0, prev, table).out + tail);
    } else if DeltasFit(types, ev.args, 0, prev) {
      ArgsRoundTrip(types, ev.args, 0, prev, table, final, tail);
      AllKept(types, ev.args, 0);
      SReads(ev.time - st.time, t);
    } else {
      FarIntegerMisread(types, ev.args, 0, prev, table, final, tail);
    }
  }

  lemma ExitExact(ev: Event, st: State, cap: nat, sigs: Signatures, table: Strings, t: bytes)
    requires ev.Exit? && EventOk(ev, sigs) && StateOk(st, sigs)
    ensures var o := EncEvent(ev, st, cap, sigs, table);
            o.out != [] && o.out[0] == (if ev.ret.Some? then 4 else 0) &&
            ReadsExactly(DecExit(st, ev.ret.Some?, o.out[1..] + t), ev, st, cap, sigs, table, t)
  {
    hide EncS, DecS, AllPrevOk, FramesOk;
    var dt := EncS(ev.time - st.time);
    var o := EncEvent(ev, st, cap, sigs, table);
    if ev.ret.Some? {
      assert o.out[1..] + t == dt + (EncS(ev.ret.value) + t);
      SReads(ev.time - st.time, EncS(ev.ret.value) + t);
      SReads(ev.ret.value, t);
    } else {
      assert o.out[1..] + t == dt + t;
      SReads(ev.time - st.time, t);
    }
  }

  /** Lockstep: from equal states, reading the bytes of an event that fits gives the event and the state
      the writer went to; of any other event the reader gets something else. */
  lemma EventLockstep(ev: Event, st: State, cap: nat, sigs: Signatures, table: Strings, final: Strings, t: bytes)
    requires EventOk(ev, sigs) && StateOk(st, sigs) && |st.window| < LIMIT && Plain(st.window, sigs) && Distinct(table)
    requires EncEvent(ev, st, cap, sigs, table).table <= final && |final| < LIMIT
    ensures var o := EncEvent(ev, st, cap, sigs, table);
            ReadsExactly(DecEvent(st, cap, sigs, final, o.out + t), ev, st, cap, sigs, table, t)
  {
    hide EncEvent, DecRepeat, DecCall, DecExit, Show, Find, StateOk, ArgsOk, ReadsExactly, Plain;
    var o := EncEvent(ev, st, cap, sigs, table);
    if ev.Exit? {
      ExitExact(ev, st, cap, sigs, table, t);
    } else if Find(st.window, Frame(ev.func, ev.args)).Some? {
      RepeatExact(ev, st, cap, sigs, table, t);
    } else {
      CallExact(ev, st, cap, sigs, table, final, t);
    }
    assert (o.out + t)[1..] == o.out[1..] + t;
  }

  // ---- Runs ----

  /** What a reader's state keeps on any bytes: for functions without NONE arguments, predictors and
      frames of the shape the signature gives them. */
  predicate ReaderOk(st: State, sigs: Signatures) {
    && (forall f :: f in st.prev ==> f in sigs)
    && (forall f :: f in st.prev && f in sigs && Nothing !in sigs[f].args ==> PrevOk(sigs[f].args, st.prev[f]))
    && forall f :: f in st.window ==> FrameRead(f, sigs)
  }

  predicate FrameRead(f: Frame, sigs: Signatures) {
    f.func in sigs && (Nothing !in sigs[f.func].args ==> ArgsOk(sigs[f.func].args, f.args))
  }

  /** Arguments for the types from `i` on. */
  predicate ArgsFrom(types: seq<ArgType>, i: nat, args: seq<Arg>) {
    i + |args| == |types| && forall k :: 0 <= k < |args| ==> ArgOk(types[i + k], args[k])
  }

  lemma ArgsFromCons(types: seq<ArgType>, i: nat, v: Arg, more: seq<Arg>)
    requires i < |types| && ArgOk(types[i], v) && ArgsFrom(types, i + 1, more)
    ensures ArgsFrom(types, i, [v] + more)
  {
    var all := [v] + more;
    forall k | 0 <= k < |all|
      ensures ArgOk(types[i + k], all[k])
    {
      if k > 0 {
        assert ArgOk(types[i + 1 + (k - 1)], more[k - 1]);
      }
    }
  }

  lemma {:induction false} DecArgsOk(types: seq<ArgType>, i: nat, prev: seq<Arg>, table: Strings, s: bytes)
    requires i <= |types| && PrevOk(types, prev) && Nothing !in types
    requires DecArgs(types, i, prev, table, s).Ok?
    ensures var a := DecArgs(types, i, prev, table, s).value;
            PrevOk(types, a.prev) && ArgsFrom(types, i, a.args)
    decreases |types| - i
  {
    hide DecS, DecU, PrevOk, Resolve, ArgsFrom;
    if i == |types| {
      assert ArgsFrom(types, i, []) by {
        NoArgsFrom(types);
      }
    } else {
      assert types[i] in types;
      match types[i]
      case UInt | Int =>
        PrevAt(types, prev, i, 0);
        var d := DecS(s);
        var v := Num(prev[i].n + d.value);
        PrevAt(types, prev, i, v.n);
        DecArgsOk(types, i + 1, prev[i := v], table, d.rest);
        ArgsFromCons(types, i, v, DecArgs(types, i + 1, prev[i := v], table, d.rest).value.args);
      case Real =>
        DecArgsOk(types, i + 1, prev, table, s[8..]);
        ArgsFromCons(types, i, Dbl(s[..8]), DecArgs(types, i + 1, prev, table, s[8..]).value.args);
      case Text =>
        var id := DecU(s);
        DecArgsOk(types, i + 1, prev, table, id.rest);
        ArgsFromCons(types, i, Txt(Resolve(table, id.value).value), DecArgs(types, i + 1, prev, table, id.rest).value.args);
    }
  }

  lemma NoArgsFrom(types: seq<ArgType>)
    ensures ArgsFrom(types, |types|, [])
  {
  }

  lemma DecCallKeeps(st: State, cap: nat, sigs: Signatures, table: Strings, s: bytes)
    requires ReaderOk(st, sigs) && DecCall(st, cap, sigs, table, s).Ok?
    ensures ReaderOk(DecCall(st, cap, sigs, table, s).value.state, sigs)
  {
    hide DecS, DecU, DecArgs, PrevOk, PushFrame, ArgsOk, ArgOk, FrameRead;
    var f := DecU(s);
    var types := sigs[f.value].args;
    var prev := Predictor(st.prev, f.value, |types|);
    var a := DecArgs(types, 0, prev, table, f.rest).value;
    if Nothing !in types {
      assert PrevOk(types, prev) by {
        FreshPrev(types);
      }
      DecArgsOk(types, 0, prev, table, f.rest);
      ArgsOkIf(types, a.args);
    }
    var frame := Frame(f.value, a.args);
    assert FrameRead(frame, sigs) by {
      FrameReadIf(frame, sigs);
    }
    assert forall g :: g in PushFrame(st.window, frame, cap) ==> g in st.window || g == frame by {
      PushAdds(st.window, frame, cap);
    }
  }

  lemma FreshPrev(types: seq<ArgType>)
    ensures PrevOk(types, seq(|types|, _ => Num(0)))
  {
  }

  lemma FrameReadIf(f: Frame, sigs: Signatures)
    requires f.func in sigs && (Nothing !in sigs[f.func].args ==> ArgsOk(sigs[f.func].args, f.args))
    ensures FrameRead(f, sigs)
  {
  }

  lemma ArgsOkIf(types: seq<ArgType>, args: seq<Arg>)
    requires ArgsFrom(types, 0, args)
    ensures ArgsOk(types, args)
  {
    assert forall i :: 0 <= i < |types| ==> ArgOk(types[0 + i], args[i]);
  }

  lemma DecRepeatKeeps(st: State, sigs: Signatures, s: bytes)
    requires ReaderOk(st, sigs) && DecRepeat(st, sigs, s).Ok?
    ensures ReaderOk(DecRepeat(st, sigs, s).value.state, sigs)
  {
    hide DecS, DecU, ArgsOk, PrevOk;
    var f := PyIndex(st.window, |st.window| - 1 - DecU(s).value).value;
    assert f in st.window && FrameRead(f, sigs);
    if Nothing !in sigs[f.func].args {
      FrameIsPrev(sigs, f.func, f.args);
    }
  }

  /** Whatever the bytes, the reader's state stays well formed for all functions without NONE arguments. */
  lemma DecEventKeeps(st: State, cap: nat, sigs: Signatures, table: Strings, s: bytes)
    requires ReaderOk(st, sigs) && DecEvent(st, cap, sigs, table, s).Ok?
    ensures ReaderOk(DecEvent(st, cap, sigs, table, s).value.state, sigs)
  {
    hide DecCall, DecRepeat, PrevOk, FrameRead;
    var s1 := s[1..];
    if s[0] % 2 == 1 {
      if s[0] / 2 % 2 == 1 {
        DecRepeatKeeps(st, sigs, s1);
      } else {
        DecCallKeeps(st, cap, sigs, table, s1);
      }
    }
  }

  predicate EventsOk(evs: seq<Event>, sigs: Signatures) {
    forall i :: 0 <= i < |evs| ==> EventOk(evs[i], sigs)
  }

  /** Bytes, string table, and the state after each event. */
  datatype RunOut = RunOut(out: bytes, table: Strings, states: seq<State>)

  /** The writer's loop over a list of events. */
  ghost function EncRun(evs: seq<Event>, st: State, cap: nat, sigs: Signatures, table: Strings): RunOut
    requires StateOk(st, sigs) && EventsOk(evs, sigs) && WindowOk(st.window, cap) && Distinct(table)
  {
    if evs == [] then RunOut([], table, [])
    else
      assert EventOk(evs[0], sigs);
      var o := EncEvent(evs[0], st, cap, sigs, table);
      EventKeeps(evs[0], st, cap, sigs, table);
      var r := EncRun(evs[1..], o.state, cap, sigs, o.table);
      RunOut(o.out + r.out, r.table, [o.state] + r.states)
  }

  datatype RunIn = RunIn(events: seq<Shown>, states: seq<State>)

  /** The reader's loop over `n` events. */
  ghost function DecRun(n: nat, st: State, cap: nat, sigs: Signatures, table: Strings, s: bytes): Parse<RunIn> {
    if n == 0 then Ok(RunIn([], []), s)
    else
      var (e, s1) :- DecEvent(st, cap, sigs, table, s);
      var (more, rest) :- DecRun(n - 1, e.state, cap, sigs, table, s1);
      Ok(RunIn([e.event] + more.events, [e.state] + more.states), rest)
  }

  function ShowAll(evs: seq<Event>, sigs: Signatures): (r: seq<Shown>)
    ensures |r| == |evs|
  {
    if evs == [] then [] else [Show(evs[0], sigs)] + ShowAll(evs[1..], sigs)
  }

  lemma {:induction false} RunExtends(evs: seq<Event>, st: State, cap: nat, sigs: Signatures, table: Strings)
    requires StateOk(st, sigs) && EventsOk(evs, sigs) && WindowOk(st.window, cap) && Distinct(table)
    ensures var r := EncRun(evs, st, cap, sigs, table);
            table <= r.table && Distinct(r.table) && |r.states| == |evs| &&
            forall i :: 0 <= i < |evs| ==> WindowOk(r.states[i].window, cap)
  {
    hide EncEvent, StateOk, WindowOk, EventOk, Distinct;
    if evs != [] {
      assert EventOk(evs[0], sigs);
      var o := EncEvent(evs[0], st, cap, sigs, table);
      EventKeeps(evs[0], st, cap, sigs, table);
      RunExtends(evs[1..], o.state, cap, sigs, o.table);
    }
  }

  // ---- What a list of events must keep to ----

  function TimeOf(past: seq<Event>): int {
    if past == [] then 0 else past[|past| - 1].time
  }

  /** The arguments of the latest call of a function; zeros before its first. */
  function LastCall(past: seq<Event>, func: nat, n: nat): seq<Arg> {
    if past == [] then seq(n, _ => Num(0))
    else
      var ev := past[|past| - 1];
      if ev.Enter? && ev.func == func then ev.args else LastCall(past[..|past| - 1], func, n)
  }

  /** The last `n` of a list, or all of it. */
  function LastOnes<T>(s: seq<T>, n: nat): seq<T> {
    if |s| <= n then s else s[|s| - n..]
  }

  /** The frames written out in full: each call that is not among the last `cap` of those before it. */
  function WrittenOut(past: seq<Event>, cap: nat): seq<Frame> {
    if past == [] then []
    else
      var ev, before := past[|past| - 1], WrittenOut(past[..|past| - 1], cap);
      if ev.Enter? && Frame(ev.func, ev.args) !in LastOnes(before, cap) then before + [Frame(ev.func, ev.args)] else before
  }

  /** The frames that can still be referred to: the last `cap` of those written out, in order. */
  function WindowOf(past: seq<Event>, cap: nat): seq<Frame> {
    LastOnes(WrittenOut(past, cap), cap)
  }

  lemma PushIsLastOnes(all: seq<Frame>, f: Frame, cap: nat)
    ensures PushFrame(LastOnes(all, cap), f, cap) == LastOnes(all + [f], cap)
  {
  }

  /** A call that is not in the window goes to its end, and each frame leaves when `cap` others have come
      behind it: what is found is exactly among the last `cap` frames written out, at its distance from
      the end. */
  lemma FoundWhileRecent(past: seq<Event>, cap: nat, f: Frame)
    ensures var all := WrittenOut(past, cap);
            match Find(WindowOf(past, cap), f)
            case Some(d) => d < cap && d < |all| && all[|all| - 1 - d] == f
            case None => forall k :: 0 <= k < |all| && k >= |all| - cap ==> all[k] != f
  {
    hide Find, WrittenOut;
    var all, window := WrittenOut(past, cap), WindowOf(past, cap);
    var gone := |all| - |window|;
    assert forall k :: gone <= k < |all| ==> window[k - gone] == all[k];
  }

  lemma {:induction false} LastCallOk(past: seq<Event>, func: nat, sigs: Signatures)
    requires EventsOk(past, sigs) && func in sigs
    ensures |LastCall(past, func, |sigs[func].args|)| == |sigs[func].args|
  {
    if past != [] {
      assert EventOk(past[|past| - 1], sigs);
      LastCallOk(past[..|past| - 1], func, sigs);
    }
  }

  /** Whether an event can be carried depends on the events before it only. */
  predicate Fits(past: seq<Event>, ev: Event, cap: nat, sigs: Signatures)
    requires EventsOk(past, sigs) && EventOk(ev, sigs)
  {
    if ev.Exit? then Carried(ev, TimeOf(past), [], [], sigs)
    else
      LastCallOk(past, ev.func, sigs);
      Carried(ev, TimeOf(past), WindowOf(past, cap), LastCall(past, ev.func, |sigs[ev.func].args|), sigs)
  }

  ghost predicate AllFit(evs: seq<Event>, cap: nat, sigs: Signatures)
    requires EventsOk(evs, sigs)
  {
    forall i :: 0 <= i < |evs| ==> FitsAt(evs, i, cap, sigs)
  }

  predicate FitsAt(evs: seq<Event>, i: nat, cap: nat, sigs: Signatures)
    requires i < |evs| && EventsOk(evs, sigs)
  {
    assert EventOk(evs[i], sigs);
    Fits(evs[..i], evs[i], cap, sigs)
  }

  /** The state that the loops have built up is what the list of events says. */
  ghost predicate Tracks(st: State, past: seq<Event>, cap: nat, sigs: Signatures) {
    st.time == TimeOf(past) && st.window == WindowOf(past, cap) && forall f :: f in sigs ==> TracksCalls(st, past, f, sigs)
  }

  ghost predicate TracksCalls(st: State, past: seq<Event>, func: nat, sigs: Signatures)
    requires func in sigs
  {
    var types := sigs[func].args;
    SameNums(types, Predictor(st.prev, func, |types|), LastCall(past, func, |types|))
  }

  lemma TracksStart(cap: nat, sigs: Signatures)
    ensures Tracks(START, [], cap, sigs)
  {
  }

  lemma TracksStep(ev: Event, st: State, past: seq<Event>, cap: nat, sigs: Signatures, table: Strings)
    requires EventOk(ev, sigs) && StateOk(st, sigs) && Tracks(st, past, cap, sigs) && Distinct(table)
    ensures Tracks(EncEvent(ev, st, cap, sigs, table).state, past + [ev], cap, sigs)
  {
    hide EncEvent, EventOk, TracksCalls, StateOk, Distinct, TimeOf, WindowOf;
    var next, all := EncEvent(ev, st, cap, sigs, table).state, past + [ev];
    WindowStep(ev, st, past, cap, sigs, table);
    forall f | f in sigs
      ensures TracksCalls(next, all, f, sigs)
    {
      assert TracksCalls(st, past, f, sigs);
      CallsStep(ev, st, past, f, cap, sigs, table);
    }
  }

  lemma WindowStep(ev: Event, st: State, past: seq<Event>, cap: nat, sigs: Signatures, table: Strings)
    requires EventOk(ev, sigs) && StateOk(st, sigs) && st.window == WindowOf(past, cap)
    ensures var next := EncEvent(ev, st, cap, sigs, table).state;
            next.time == TimeOf(past + [ev]) && next.window == WindowOf(past + [ev], cap)
  {
    hide EncS, EncU, EncArgs, PushFrame, ArgsOk, PrevOk, StateOk, Find, LastOnes;
    var all := past + [ev];
    assert all[..|all| - 1] == past && all[|all| - 1] == ev;
    if ev.Enter? {
      PushIsLastOnes(WrittenOut(past, cap), Frame(ev.func, ev.args), cap);
    }
  }

  /** An event changes the predictor of the called function only. */
  lemma PrevStep(ev: Event, st: State, func: nat, cap: nat, sigs: Signatures, table: Strings)
    requires EventOk(ev, sigs) && StateOk(st, sigs) && func in sigs
    ensures var types := sigs[func].args;
            var before := Predictor(st.prev, func, |types|);
            var after := Predictor(EncEvent(ev, st, cap, sigs, table).state.prev, func, |types|);
            if ev.Enter? && ev.func == func then
              ArgsOk(types, ev.args) && PrevOk(types, before) && (after == ev.args || after == EncArgs(types, ev.args, 0, before, table).prev)
            else after == before
  {
    hide EncS, EncU, EncArgs, PushFrame, ArgsOk, PrevOk, StateOk, Find;
    PredictorOk(st, sigs, func);
  }

  lemma LastStep(past: seq<Event>, ev: Event, func: nat, n: nat)
    ensures LastCall(past + [ev], func, n) == if ev.Enter? && ev.func == func then ev.args else LastCall(past, func, n)
  {
    var all := past + [ev];
    assert all[..|all| - 1] == past && all[|all| - 1] == ev;
  }

  lemma CallsStep(ev: Event, st: State, past: seq<Event>, func: nat, cap: nat, sigs: Signatures, table: Strings)
    requires EventOk(ev, sigs) && StateOk(st, sigs) && Distinct(table) && func in sigs && TracksCalls(st, past, func, sigs)
    ensures TracksCalls(EncEvent(ev, st, cap, sigs, table).state, past + [ev], func, sigs)
  {
    hide EncEvent, EncArgs, ArgsOk, PrevOk, SameNums, StateOk, EventOk, Distinct, LastCall, Predictor;
    var types := sigs[func].args;
    PrevStep(ev, st, func, cap, sigs, table);
    LastStep(past, ev, func, |types|);
    if ev.Enter? && func == ev.func {
      PrevIsCall(types, ev.args, Predictor(st.prev, func, |types|), table);
    }
  }

  lemma PrevIsCall(types: seq<ArgType>, args: seq<Arg>, prev: seq<Arg>, table: Strings)
    requires ArgsOk(types, args) && PrevOk(types, prev) && Distinct(table)
    ensures SameNums(types, EncArgs(types, args, 0, prev, table).prev, args) && SameNums(types, args, args)
  {
    ArgsExtend(types, args, 0, prev, table);
  }

  /** In a run the writer's state before every event says what the list of events says: the time of the
      event before, the last frames written out, and the integers of each function's previous call. */
  lemma {:induction false} RunTracks(evs: seq<Event>, k: nat, st: State, cap: nat, sigs: Signatures, table: Strings)
    requires k <= |evs| && EventsOk(evs, sigs) && EventsOk(evs[k..], sigs) && StateOk(st, sigs)
    requires WindowOk(st.window, cap) && Distinct(table) && Tracks(st, evs[..k], cap, sigs)
    ensures var r := EncRun(evs[k..], st, cap, sigs, table);
            |r.states| == |evs| - k && forall i :: k < i <= |evs| ==> Tracks(r.states[i - k - 1], evs[..i], cap, sigs)
    decreases |evs| - k
  {
    hide EncEvent, StateOk, WindowOk, EventOk, Distinct, Tracks;
    if k < |evs| {
      var ev, later := evs[k], evs[k + 1..];
      assert evs[k..][0] == ev && evs[k..][1..] == later && EventOk(evs[k..][0], sigs);
      var o := EncEvent(ev, st, cap, sigs, table);
      EventKeeps(ev, st, cap, sigs, table);
      assert evs[..k] + [ev] == evs[..k + 1];
      TracksStep(ev, st, evs[..k], cap, sigs, table);
      RunTracks(evs, k + 1, o.state, cap, sigs, o.table);
      var r, more := EncRun(evs[k..], st, cap, sigs, table), EncRun(later, o.state, cap, sigs, o.table);
      forall i | k < i <= |evs|
        ensures Tracks(r.states[i - k - 1], evs[..i], cap, sigs)
      {
        if i > k + 1 {
          assert r.states[i - k - 1] == more.states[i - k - 2];
        }
      }
    }
  }

  lemma FitsTracked(ev: Event, st: State, past: seq<Event>, cap: nat, sigs: Signatures)
    requires EventOk(ev, sigs) && EventsOk(past, sigs) && StateOk(st, sigs) && Tracks(st, past, cap, sigs)
    ensures EventFits(ev, st, sigs) == Fits(past, ev, cap, sigs)
  {
    hide ArgsOk, PrevOk;
    if ev.Enter? {
      assert TracksCalls(st, past, ev.func, sigs);
    }
  }

  /** After an event that fits the window is still free of calls with NONE arguments. */
  lemma PlainStep(ev: Event, st: State, cap: nat, sigs: Signatures, table: Strings)
    requires EventOk(ev, sigs) && StateOk(st, sigs) && Plain(st.window, sigs) && EventFits(ev, st, sigs)
    ensures Plain(EncEvent(ev, st, cap, sigs, table).state.window, sigs)
  {
    hide EncS, EncU, EncArgs, PushFrame, ArgsOk, PrevOk;
    if ev.Enter? {
      PushAdds(st.window, Frame(ev.func, ev.args), cap);
    }
  }

  /** From event `k` on. */
  ghost predicate FitFrom(evs: seq<Event>, k: nat, cap: nat, sigs: Signatures)
    requires EventsOk(evs, sigs)
  {
    forall i :: k <= i < |evs| ==> FitsAt(evs, i, cap, sigs)
  }

  /** Lockstep over a run: the reader gets the events back and goes through the very states the writer
      went through, so predictors and windows agree at every event.  An event that does not fit ends
      that: the reader gets another list, or none. */
  lemma {:induction false} RunLockstep(evs: seq<Event>, k: nat, st: State, cap: nat, sigs: Signatures, table: Strings,
                                       final: Strings, t: bytes)
    requires k <= |evs| && EventsOk(evs, sigs) && EventsOk(evs[k..], sigs) && StateOk(st, sigs)
    requires WindowOk(st.window, cap) && Distinct(table) && Tracks(st, evs[..k], cap, sigs) && Plain(st.window, sigs)
    requires cap < LIMIT && EncRun(evs[k..], st, cap, sigs, table).table <= final && |final| < LIMIT
    ensures var r := EncRun(evs[k..], st, cap, sigs, table);
            var back := DecRun(|evs| - k, st, cap, sigs, final, r.out + t);
            if FitFrom(evs, k, cap, sigs) then back == Ok(RunIn(ShowAll(evs[k..], sigs), r.states), t)
            else back.Fail? || back.value.events != ShowAll(evs[k..], sigs)
    decreases |evs| - k
  {
    hide EncEvent, DecEvent, StateOk, EventOk, Distinct, EventFits, Show, Plain, FitsAt, Tracks;
    if k < |evs| {
      var ev, later := evs[k], evs[k + 1..];
      assert evs[k..][0] == ev && evs[k..][1..] == later && EventOk(evs[k..][0], sigs);
      var o := EncEvent(ev, st, cap, sigs, table);
      EventKeeps(ev, st, cap, sigs, table);
      RunExtends(later, o.state, cap, sigs, o.table);
      var r := EncRun(later, o.state, cap, sigs, o.table);
      assert EncRun(evs[k..], st, cap, sigs, table).out + t == o.out + (r.out + t);
      EventLockstep(ev, st, cap, sigs, table, final, r.out + t);
      assert EventFits(ev, st, sigs) == FitsAt(evs, k, cap, sigs) by {
        FitsTrackedAt(evs, k, st, cap, sigs);
      }
      if FitsAt(evs, k, cap, sigs) {
        assert evs[..k] + [ev] == evs[..k + 1];
        TracksStep(ev, st, evs[..k], cap, sigs, table);
        PlainStep(ev, st, cap, sigs, table);
        RunLockstep(evs, k + 1, o.state, cap, sigs, o.table, final, t);
        assert FitFrom(evs, k, cap, sigs) == FitFrom(evs, k + 1, cap, sigs);
        var more := DecRun(|later|, o.state, cap, sigs, final, r.out + t);
        assert more.Ok? ==> ([Show(ev, sigs)] + more.value.events)[1..] == more.value.events;
        assert ShowAll(evs[k..], sigs)[1..] == ShowAll(later, sigs);
      } else {
        var back := DecRun(|evs| - k, st, cap, sigs, final, o.out + (r.out + t));
        assert ShowAll(evs[k..], sigs)[0] == Show(ev, sigs);
        assert back.Ok? ==> back.value.events[0] != Show(ev, sigs);
      }
    }
  }

  lemma FitsTrackedAt(evs: seq<Event>, k: nat, st: State, cap: nat, sigs: Signatures)
    requires k < |evs| && EventsOk(evs, sigs) && StateOk(st, sigs) && Tracks(st, evs[..k], cap, sigs)
    ensures EventOk(evs[k], sigs) && EventFits(evs[k], st, sigs) == FitsAt(evs, k, cap, sigs)
  {
    hide EventOk, EventFits, Fits, StateOk, Tracks;
    assert EventOk(evs[k], sigs);
    FitsTracked(evs[k], st, evs[..k], cap, sigs);
  }

  /** A back-reference is only written while its frame is in the window, and its distance points at
      it. */
  lemma BackReferenceInRange(ev: Event, st: State, cap: nat, sigs: Signatures, table: Strings)
    requires ev.Enter? && EventOk(ev, sigs) && StateOk(st, sigs)
    ensures var o := EncEvent(ev, st, cap, sigs, table);
            var d := Find(st.window, Frame(ev.func, ev.args));
            o.out != [] && (o.out[0] == 3 <==> Frame(ev.func, ev.args) in st.window) &&
            (d.Some? ==> PyIndex(st.window, |st.window| - 1 - d.value) == Some(Frame(ev.func, ev.args)))
  {
    hide EncArgs, EncS, EncU;
  }

  // ---- Blocks ----

  datatype Block = Block(callStream: nat, sigStream: nat, cap: nat, events: seq<Shown>)

  lemma StartOk(cap: nat, sigs: Signatures)
    ensures StateOk(START, sigs) && WindowOk(START.window, cap)
  {
  }

  ghost function EncBlock(callStream: nat, sigStream: nat, cap: nat, evs: seq<Event>, sigs: Signatures, table: Strings)
    : RunOut
    requires EventsOk(evs, sigs) && Distinct(table)
  {
    StartOk(cap, sigs);
    var r := EncRun(evs, START, cap, sigs, table);
    r.(out := EncU(callStream) + EncU(sigStream) + EncU(cap) + EncU(|evs|) + r.out)
  }

  ghost function DecBlock(payload: bytes, sigs: Signatures, table: Strings): Parse<Block> {
    var (callStream, s1) :- DecU(payload);
    var (sigStream, s2) :- DecU(s1);
    var (cap, s3) :- DecU(s2);
    var (n, s4) :- DecU(s3);
    var (r, rest) :- DecRun(n, START, cap, sigs, table, s4);
    Ok(Block(callStream, sigStream, cap, r.events), rest)
  }

  /** A block of calls reads back as it was recorded, whatever the window size, against the string
      table as it stands when reading starts, if and only if each of its events can be carried. */
  lemma BlockRoundTrip(callStream: nat, sigStream: nat, cap: nat, evs: seq<Event>, sigs: Signatures, table: Strings,
                       final: Strings)
    requires callStream < LIMIT && sigStream < LIMIT && cap < LIMIT && |evs| < LIMIT
    requires EventsOk(evs, sigs) && Distinct(table)
    requires EncBlock(callStream, sigStream, cap, evs, sigs, table).table <= final && |final| < LIMIT
    ensures DecBlock(EncBlock(callStream, sigStream, cap, evs, sigs, table).out, sigs, final)
         == Ok(Block(callStream, sigStream, cap, ShowAll(evs, sigs)), [])
       <==> AllFit(evs, cap, sigs)
  {
    hide EncU, DecU, EncRun, DecRun, EventsOk, ShowAll, FitsAt;
    StartOk(cap, sigs);
    TracksStart(cap, sigs);
    var r := EncRun(evs, START, cap, sigs, table);
    var s4 := r.out;
    var s3 := EncU(|evs|) + s4;
    var s2 := EncU(cap) + s3;
    var s1 := EncU(sigStream) + s2;
    assert EncBlock(callStream, sigStream, cap, evs, sigs, table).out == EncU(callStream) + s1;
    URoundTrip(callStream, s1);
    URoundTrip(sigStream, s2);
    URoundTrip(cap, s3);
    URoundTrip(|evs|, s4);
    assert evs[0..] == evs && evs[..0] == [];
    RunLockstep(evs, 0, START, cap, sigs, table, final, []);
    assert s4 + [] == s4;
  }

  // ---- Calls with NONE arguments ----

  /** A block's first call comes back without its NONE arguments. */
  lemma FirstCallShortens(ev: Event, cap: nat, sigs: Signatures, table: Strings, final: Strings, t: bytes)
    returns (first: EventOut)
    requires FirstCall(ev, sigs) && 1 <= cap && Distinct(table)
    requires EncEvent(ev, START, cap, sigs, table).table <= final && |final| < LIMIT
    ensures first == EncEvent(ev, START, cap, sigs, table) && StateOk(first.state, sigs)
    ensures first.state.time == 0 && first.state.window == [Frame(ev.func, ev.args)] && first.state.prev.Keys == {ev.func}
    ensures var kept := Kept(sigs[ev.func].args, ev.args, 0);
            DecEvent(START, cap, sigs, final, first.out + t)
              == Ok(EventIn(Entered(0, ev.func, sigs[ev.func].name, kept),
                            State(0, map[ev.func := first.state.prev[ev.func]], [Frame(ev.func, kept)])), t)
  {
    hide EncS, EncU, DecS, DecU, ArgsOk, PrevOk, EncArgs, DecArgs, DeltasFit, DecCall, Kept, FramesOk, AllPrevOk;
    StartOk(cap, sigs);
    var types := sigs[ev.func].args;
    FreshPrev(types);
    first := EncEvent(ev, START, cap, sigs, table);
    EventKeeps(ev, START, cap, sigs, table);
    var a := CallReads(ev, START, START, cap, sigs, table, final, t);
    SameLengths(types, ev.args, seq(|types|, _ => Num(0)));
    ArgsRoundTrip(types, ev.args, 0, seq(|types|, _ => Num(0)), table, final, EncS(0) + t);
    SRoundTrip(0, t);
    assert (first.out + t)[1..] == first.out[1..] + t && (first.out + t)[0] == 1;
    var prev := first.state.prev[ev.func];
    assert a == Ok(ArgsIn(Kept(types, ev.args, 0), prev), EncS(0) + t);
    assert map[][ev.func := prev] == map[ev.func := prev];
    var frame := Frame(ev.func, Kept(types, ev.args, 0));
    assert [] + [frame] == [frame] && PushFrame([], frame, cap) == [frame];
    assert DecEvent(START, cap, sigs, final, first.out + t) == DecCall(START, cap, sigs, final, first.out[1..] + t);
  }

  predicate FirstCall(ev: Event, sigs: Signatures) {
    ev.Enter? && EventOk(ev, sigs) && ev.time == 0 && ev.func < LIMIT &&
    DeltasFit(sigs[ev.func].args, ev.args, 0, seq(|sigs[ev.func].args|, _ => Num(0)))
  }

  /** Its repetition makes the shortened list the reader's predictor, while the writer's is the full one. */
  lemma RepetitionShortens(ev: Event, st: State, cap: nat, sigs: Signatures, table: Strings, final: Strings,
                           kept: seq<Arg>, prev: seq<Arg>, t: bytes)
    returns (second: EventOut)
    requires FirstCall(ev, sigs) && StateOk(st, sigs)
    requires st.time == 0 && st.window == [Frame(ev.func, ev.args)] && st.prev.Keys == {ev.func}
    ensures second == EncEvent(ev, st, cap, sigs, table) && second.table == table && StateOk(second.state, sigs)
    ensures second.state == State(0, map[ev.func := ev.args], [Frame(ev.func, ev.args)])
    ensures var reader := State(0, map[ev.func := prev], [Frame(ev.func, kept)]);
            DecEvent(reader, cap, sigs, final, second.out + t)
              == Ok(EventIn(Entered(0, ev.func, sigs[ev.func].name, kept),
                            State(0, map[ev.func := kept], [Frame(ev.func, kept)])), t)
  {
    hide EncS, EncU, DecS, DecU, EncArgs, DecArgs, ArgsOk, PrevOk, DeltasFit, DecCall;
    second := EncEvent(ev, st, cap, sigs, table);
    FrameIsPrev(sigs, ev.func, ev.args);
    SRoundTrip(0, t);
    assert (second.out + t)[1..] == EncU(0) + (EncS(0) + t);
    URoundTrip(0, EncS(0) + t);
    var reader := State(0, map[ev.func := prev], [Frame(ev.func, kept)]);
    assert reader.prev[ev.func := kept] == map[ev.func := kept] && st.prev[ev.func := ev.args] == map[ev.func := ev.args];
    assert PyIndex(reader.window, |reader.window| - 1 - 0) == Some(Frame(ev.func, kept));
    assert DecEvent(reader, cap, sigs, final, second.out + t) == DecRepeat(reader, sigs, EncU(0) + (EncS(0) + t));
  }

  /** A NONE argument, an integer, and perhaps a real. */
  predicate Skips(sigs: Signatures, func: nat, reals: seq<Arg>) {
    func in sigs && func < LIMIT && |reals| <= 1 && (forall r :: r in reals ==> ArgOk(Real, r)) &&
    sigs[func].args == [Nothing, Int] + (if reals == [] then [] else [Real])
  }

  function Call(func: nat, n: int, reals: seq<Arg>): Event {
    Enter(0, func, [Missing, Num(n)] + reals)
  }

  /** Two equal calls and one with another integer. */
  function ThreeCalls(func: nat, a: int, b: int, reals: seq<Arg>): seq<Event> {
    [Call(func, a, reals), Call(func, a, reals), Call(func, b, reals)]
  }

  lemma CallOk(sigs: Signatures, func: nat, n: int, reals: seq<Arg>)
    requires Skips(sigs, func, reals) && Int64(n)
    ensures FirstCall(Call(func, n, reals), sigs)
    ensures Kept(sigs[func].args, Call(func, n, reals).args, 0) == [Num(n)] + reals
  {
    var types, args := sigs[func].args, Call(func, n, reals).args;
    assert forall k :: 2 <= k < |types| ==> args[k] == reals[k - 2] && reals[k - 2] in reals;
    assert Kept(types, args, |types|) == [];
    assert Kept(types, args, 2) == reals;
    assert Kept(types, args, 1) == [args[1]] + Kept(types, args, 2);
  }

  /** The third call is written against `a`, and read against whatever stands in its place in the
      shortened list: the real, or nothing. */
  lemma ThirdCallReads(sigs: Signatures, func: nat, a: int, b: int, reals: seq<Arg>, cap: nat, table: Strings,
                       final: Strings, t: bytes)
    requires Skips(sigs, func, reals) && Int64(a) && Int64(b - a) && a != b && 1 <= cap
    requires var frame := Frame(func, Call(func, a, reals).args);
             EventOk(Call(func, b, reals), sigs) && StateOk(State(0, map[func := frame.args], [frame]), sigs)
    ensures var frame := Frame(func, Call(func, a, reals).args);
            var out := EncEvent(Call(func, b, reals), State(0, map[func := frame.args], [frame]), cap, sigs, table).out;
            var kept := [Num(a)] + reals;
            var r := DecEvent(State(0, map[func := kept], [Frame(func, kept)]), cap, sigs, final, out + t);
            if reals == [] || IntOf(reals[0]).None? then r.Fail?
            else r.Ok? && r.rest == t &&
                 r.value.event == Entered(0, func, sigs[func].name, [Num(IntOf(reals[0]).value + b - a)] + reals)
  {
    hide EncS, EncU, DecS, DecU, AllPrevOk, FramesOk, IntOf, PushFrame;
    var types, ev := sigs[func].args, Call(func, b, reals);
    var frame, kept := Frame(func, Call(func, a, reals).args), [Num(a)] + reals;
    var st, reader := State(0, map[func := frame.args], [frame]), State(0, map[func := kept], [Frame(func, kept)]);
    assert ev.args[1] != frame.args[1];
    assert Frame(func, ev.args) !in st.window;
    var o := EncEvent(ev, st, cap, sigs, table);
    var args := EncArgs(types, ev.args, 0, frame.args, table).out;
    var tail := EncS(0) + t;
    assert (o.out + t)[1..] == EncU(func) + (args + tail);
    URoundTrip(func, args + tail);
    var r := ThirdArgs(types, a, b, reals, table, final, tail);
    SRoundTrip(0, t);
    assert DecEvent(reader, cap, sigs, final, o.out + t) == DecCallTail(func, r, reader, cap, sigs);
  }

  lemma ThirdArgs(types: seq<ArgType>, a: int, b: int, reals: seq<Arg>, table: Strings, final: Strings, t: bytes)
    returns (r: Parse<ArgsIn>)
    requires types == [Nothing, Int] + (if reals == [] then [] else [Real]) && |reals| <= 1 && Int64(b - a)
    requires ArgsOk(types, [Missing, Num(b)] + reals) && PrevOk(types, [Missing, Num(a)] + reals)
    ensures r == DecArgs(types, 0, [Num(a)] + reals, final,
                         EncArgs(types, [Missing, Num(b)] + reals, 0, [Missing, Num(a)] + reals, table).out + t)
    ensures if reals == [] || IntOf(reals[0]).None? then r.Fail?
            else r.Ok? && r.rest == t && r.value.args == [Num(IntOf(reals[0]).value + b - a)] + reals
  {
    hide EncS, DecS, IntOf, ArgsOk, PrevOk;
    var args, prev, kept := [Missing, Num(b)] + reals, [Missing, Num(a)] + reals, [Num(a)] + reals;
    ArgAt(types, args, 1);
    PrevAt(types, prev, 1, b);
    var o := EncArgs(types, args, 0, prev, table);
    r := DecArgs(types, 0, kept, final, o.out + t);
    var later := EncArgs(types, args, 2, prev[1 := args[1]], table).out;
    assert EncArgs(types, args, 1, prev, table).out == o.out;
    assert o.out == EncS(b - a) + later;
    assert o.out + t == EncS(b - a) + (later + t);
    SRoundTrip(b - a, later + t);
    assert DecArgs(types, 0, kept, final, o.out + t) == DecArgs(types, 1, kept, final, o.out + t);
    assert DecS(EncS(b - a) + (later + t)) == Ok(b - a, later + t);
    if reals == [] || IntOf(reals[0]).None? {
      assert |kept| == 1 || kept[1] == reals[0];
      assert DecArgs(types, 1, kept, final, o.out + t).Fail?;
    } else {
      ArgAt(types, args, 2);
      assert kept[1] == reals[0];
      assert later == reals[0].raw + EncArgs(types, args, 3, prev[1 := args[1]], table).out;
      assert later + t == reals[0].raw + t;
      SliceRoundTrip(reals[0].raw, t);
      assert reals == [reals[0]];
      var v := Num(IntOf(reals[0]).value + (b - a));
      assert DecArgs(types, 3, kept[1 := v], final, t) == Ok(ArgsIn([], kept[1 := v]), t);
      assert [Dbl(reals[0].raw)] + [] == reals;
      assert DecArgs(types, 2, kept[1 := v], final, later + t) == Ok(ArgsIn(reals, kept[1 := v]), t);
    }
  }

  /** A call with a NONE argument comes back without it, and after a repetition the reader's predictors
      are out of place: the next integer is read against the real behind it, or cannot be read at all. */
  lemma NothingIsDropped(func: nat, a: int, b: int, reals: seq<Arg>, cap: nat, sigs: Signatures, table: Strings,
                         final: Strings)
    requires Skips(sigs, func, reals) && Int64(a) && Int64(b) && Int64(b - a) && a != b && 1 <= cap < LIMIT
    requires Distinct(table) && EventsOk(ThreeCalls(func, a, b, reals), sigs)
    requires EncBlock(0, 0, cap, ThreeCalls(func, a, b, reals), sigs, table).table <= final && |final| < LIMIT
    ensures var r := DecBlock(EncBlock(0, 0, cap, ThreeCalls(func, a, b, reals), sigs, table).out, sigs, final);
            if reals == [] || IntOf(reals[0]).None? then r.Fail?
            else r == Ok(Block(0, 0, cap, [Entered(0, func, sigs[func].name, [Num(a)] + reals),
                                           Entered(0, func, sigs[func].name, [Num(a)] + reals),
                                           Entered(0, func, sigs[func].name, [Num(IntOf(reals[0]).value + b - a)] + reals)]), [])
  {
    hide EncEvent, DecEvent, StateOk, WindowOk, EventOk, Distinct, IntOf, Kept, FirstCall, Skips, EncBlock, DecBlock,
      EncRun, DecRun;
    var ev, last, kept := Call(func, a, reals), Call(func, b, reals), [Num(a)] + reals;
    CallOk(sigs, func, a, reals);
    CallOk(sigs, func, b, reals);
    FirstOk(ev, sigs);
    FirstOk(last, sigs);
    StartOk(cap, sigs);
    var o1, o2, o3 := ThreeOut(ev, last, cap, sigs, table);
    assert o1.table <= final by {
      BlockWhole(cap, ThreeCalls(func, a, b, reals), sigs, table, final);
    }
    var first := FirstCallShortens(ev, cap, sigs, table, final, o2.out + o3.out);
    var prev := first.state.prev[func];
    var second := RepetitionShortens(ev, o1.state, cap, sigs, o1.table, final, kept, prev, o3.out);
    ThirdCallReads(sigs, func, a, b, reals, cap, o2.table, final, []);
    assert o3.out + [] == o3.out;
    var shown := Entered(0, func, sigs[func].name, kept);
    var st1, st2 := State(0, map[func := prev], [Frame(func, kept)]), State(0, map[func := kept], [Frame(func, kept)]);
    ThreeReads(EventIn(shown, st1), EventIn(shown, st2), cap, sigs, final, o1.out + (o2.out + o3.out), o2.out + o3.out, o3.out);
    BlockWhole(cap, ThreeCalls(func, a, b, reals), sigs, table, final);
  }

  /** A block is its events behind a header. */
  lemma BlockWhole(cap: nat, evs: seq<Event>, sigs: Signatures, table: Strings, final: Strings)
    requires cap < LIMIT && |evs| < LIMIT && EventsOk(evs, sigs) && Distinct(table)
    requires StateOk(START, sigs) && WindowOk(START.window, cap)
    ensures var r := EncRun(evs, START, cap, sigs, table);
            var back := DecRun(|evs|, START, cap, sigs, final, r.out);
            EncBlock(0, 0, cap, evs, sigs, table).table == r.table &&
            DecBlock(EncBlock(0, 0, cap, evs, sigs, table).out, sigs, final)
              == if back.Fail? then Fail(back.fault) else Ok(Block(0, 0, cap, back.value.events), back.rest)
  {
    hide EncU, DecU, EncRun, DecRun, EventsOk;
    var s4 := EncRun(evs, START, cap, sigs, table).out;
    var s3 := EncU(|evs|) + s4;
    var s2 := EncU(cap) + s3;
    assert EncBlock(0, 0, cap, evs, sigs, table).out == EncU(0) + (EncU(0) + s2);
    URoundTrip(0, EncU(0) + s2);
    URoundTrip(0, s2);
    URoundTrip(cap, s3);
    URoundTrip(|evs|, s4);
  }

  lemma FirstOk(ev: Event, sigs: Signatures)
    requires FirstCall(ev, sigs)
    ensures EventOk(ev, sigs)
  {
  }

  lemma ThreeOut(ev: Event, last: Event, cap: nat, sigs: Signatures, table: Strings)
    returns (o1: EventOut, o2: EventOut, o3: EventOut)
    requires EventOk(ev, sigs) && EventOk(last, sigs) && StateOk(START, sigs) && WindowOk(START.window, cap) && Distinct(table)
    ensures EventsOk([ev, ev, last], sigs)
    ensures o1 == EncEvent(ev, START, cap, sigs, table) && StateOk(o1.state, sigs)
    ensures o2 == EncEvent(ev, o1.state, cap, sigs, o1.table) && StateOk(o2.state, sigs)
    ensures o3 == EncEvent(last, o2.state, cap, sigs, o2.table)
    ensures var r := EncRun([ev, ev, last], START, cap, sigs, table);
            r.out == o1.out + (o2.out + o3.out) && o1.table <= r.table
  {
    hide EncEvent, StateOk, WindowOk, EventOk, Distinct;
    o1 := EncEvent(ev, START, cap, sigs, table);
    EventKeeps(ev, START, cap, sigs, table);
    o2 := EncEvent(ev, o1.state, cap, sigs, o1.table);
    EventKeeps(ev, o1.state, cap, sigs, o1.table);
    o3 := EncEvent(last, o2.state, cap, sigs, o2.table);
    EventKeeps(last, o2.state, cap, sigs, o2.table);
    assert [ev, ev, last][1..] == [ev, last] && [ev, last][1..] == [last] && [last][1..] == [];
    var r3 := EncRun([last], o2.state, cap, sigs, o2.table);
    assert EncRun([], o3.state, cap, sigs, o3.table) == RunOut([], o3.table, []);
    assert r3.out == o3.out + [] == o3.out && r3.table == o3.table;
    var r2 := EncRun([ev, last], o1.state, cap, sigs, o1.table);
    assert r2.out == o2.out + o3.out && r2.table == o3.table;
  }

  lemma ThreeReads(e1: EventIn, e2: EventIn, cap: nat, sigs: Signatures, table: Strings, s0: bytes, s1: bytes, s2: bytes)
    requires DecEvent(START, cap, sigs, table, s0) == Ok(e1, s1)
    requires DecEvent(e1.state, cap, sigs, table, s1) == Ok(e2, s2)
    ensures var third := DecEvent(e2.state, cap, sigs, table, s2);
            var r := DecRun(3, START, cap, sigs, table, s0);
            if third.Fail? then r.Fail?
            else r.Ok? && r.value.events == [e1.event, e2.event, third.value.event] && r.rest == third.rest
  {
    hide DecEvent;
    var third := DecEvent(e2.state, cap, sigs, table, s2);
    var r2, r1 := DecRun(2, e1.state, cap, sigs, table, s1), DecRun(1, e2.state, cap, sigs, table, s2);
    if third.Ok? {
      assert DecRun(0, third.value.state, cap, sigs, table, third.rest) == Ok(RunIn([], []), third.rest);
      assert r1.Ok? && r1.value.events == [third.value.event] && r1.rest == third.rest;
      assert r2.Ok? && r2.value.events == [e2.event] + r1.value.events && r2.rest == third.rest;
    } else {
      assert r1.Fail? && r2.Fail?;
    }
  }

  /** A signature NONE, INT, REAL and the calls (None, 5, 2.0) twice, then (None, 7, 2.0): the 7 is read
      as a 4. */
  lemma SevenReadsAsFour(name: bytes, table: Strings, final: Strings)
    requires Distinct(table) && EventsOk(FiveFiveSeven(), OneSignature(name))
    requires EncBlock(0, 0, 64, FiveFiveSeven(), OneSignature(name), table).table <= final && |final| < LIMIT
    ensures var r := DecBlock(EncBlock(0, 0, 64, FiveFiveSeven(), OneSignature(name), table).out, OneSignature(name), final);
            r.Ok? && |r.value.events| == 3 && r.value.events[2] == Entered(0, 1, name, [Num(4), Dbl(TWO)])
  {
    hide EncBlock, DecBlock, EventsOk, IntOf;
    TwoIsTwo();
    NothingIsDropped(1, 5, 7, [Dbl(TWO)], 64, OneSignature(name), table, final);
  }

  /** 2.0 as a double. */
  const TWO: bytes := [0, 0, 0, 0, 0, 0, 0, 0x40]

  function OneSignature(name: bytes): Signatures {
    map[1 := Signature(name, [Nothing, Int, Real])]
  }

  function FiveFiveSeven(): seq<Event> {
    ThreeCalls(1, 5, 7, [Dbl(TWO)])
  }

  lemma LeStep(s: bytes)
    requires s != []
    ensures LeValue(s) == s[0] + 256 * (if |s| == 1 then 0 else LeValue(s[1..]))
  {
    assert |s| == 1 ==> LeValue(s[1..]) == 0;
  }

  lemma TwoAsNumber()
    ensures LeValue(TWO) == 0x4000_0000_0000_0000
  {
    hide LeValue;
    LeStep(TWO);
    LeStep(TWO[1..]);
    LeStep(TWO[2..]);
    LeStep(TWO[3..]);
    LeStep(TWO[4..]);
    LeStep(TWO[5..]);
    LeStep(TWO[6..]);
    LeStep(TWO[7..]);
  }

  lemma TwoIsTwo()
    ensures IntOf(Dbl(TWO)) == Some(2)
  {
    hide LeValue;
    TwoAsNumber();
    ShrPow2(1, 51);
    assert Pow2(52) == FRACTION by {
      assert Pow2(13) == 8192;
      Pow2Add(26, 26);
      Pow2Add(13, 13);
    }
  }

  // ---- Writer and reader ----

  class CallReturnWriter {
    const callStream: nat
    const sigStream: nat
    const sigs: Signatures
    const cap: nat
    var events: seq<Event>
    var depth: nat

    constructor (callStream: nat, sigStream: nat, sigs: Signatures, cap: nat)
      ensures this.callStream == callStream && this.sigStream == sigStream && this.sigs == sigs && this.cap == cap
      ensures events == [] && depth == 0
    {
      this.callStream, this.sigStream, this.sigs, this.cap := callStream, sigStream, sigs, cap;
      events, depth := [], 0;
    }

    /** A call that matches no signature raises and is not recorded. */
    method EnterCall(func: nat, args: seq<Arg>, time: int) returns (ok: bool)
      modifies this
      ensures ok == (func in sigs && |args| == |sigs[func].args|)
      ensures events == if ok then old(events) + [Enter(time, func, args)] else old(events)
      ensures depth == if ok then old(depth) + 1 else old(depth)
    {
      ok := func in sigs && |args| == |sigs[func].args|;
      if ok {
        events, depth := events + [Enter(time, func, args)], depth + 1;
      }
    }

    method ExitCall(ret: Option<int>, time: int)
      modifies this
      ensures events == old(events) + [Exit(time, ret)]
      ensures depth == if old(depth) > 0 then old(depth) - 1 else 0
    {
      events := events + [Exit(time, ret)];
      if depth > 0 {
        depth := depth - 1;
      }
    }

    /** One argument; a string is interned into the trace's table. */
    static method EncodeArg(types: seq<ArgType>, args: seq<Arg>, i: nat, prev: seq<Arg>, tab: StringTable)
      returns (item: bytes, next: seq<Arg>)
      requires i < |types| && ArgsOk(types, args) && PrevOk(types, prev) && tab.Valid()
      modifies tab
      ensures tab.Valid() && PrevOk(types, next)
      ensures var r := EncArgs(types, args, i + 1, next, tab.Contents());
              EncArgs(types, args, i, prev, old(tab.Contents())) == r.(out := item + r.out)
    {
      hide EncS, EncU, IdOf, After, ArgsOk, PrevOk, StringTable.Valid;
      ArgAt(types, args, i);
      next := prev;
      match types[i] {
        case UInt | Int =>
          PrevAt(types, prev, i, args[i].n);
          item := EncS(args[i].n - prev[i].n);
          next := prev[i := args[i]];
        case Real =>
          item := args[i].raw;
        case Text =>
          var id := tab.Intern(args[i].s);
          item := EncU(id);
        case Nothing =>
          item := [];
      }
    }

    static method EncodeArgs(types: seq<ArgType>, args: seq<Arg>, first: seq<Arg>, tab: StringTable)
      returns (out: bytes, prev: seq<Arg>)
      requires ArgsOk(types, args) && PrevOk(types, first) && tab.Valid()
      modifies tab
      ensures tab.Valid()
      ensures ArgsOut(out, prev, tab.Contents()) == EncArgs(types, args, 0, first, old(tab.Contents()))
    {
      hide ArgsOk, PrevOk, StringTable.Valid, EncS, EncU, IdOf, After;
      out, prev := [], first;
      ghost var whole := EncArgs(types, args, 0, first, tab.Contents());
      ghost var r := whole;
      for i := 0 to |types|
        invariant PrevOk(types, prev) && tab.Valid()
        invariant r == EncArgs(types, args, i, prev, tab.Contents())
        invariant whole == r.(out := out + r.out)
      {
        var item;
        item, prev := EncodeArg(types, args, i, prev, tab);
        r := EncArgs(types, args, i + 1, prev, tab.Contents());
        assert out + (item + r.out) == (out + item) + r.out;
        out := out + item;
      }
      assert out + [] == out;
    }

    /** One turn of the loop of `_encode_events`. */
    method EncodeEvent(ev: Event, st: State, tab: StringTable) returns (out: bytes, next: State)
      requires EventOk(ev, sigs) && StateOk(st, sigs) && tab.Valid()
      modifies tab
      ensures tab.Valid()
      ensures EventOut(out, next, tab.Contents()) == EncEvent(ev, st, cap, sigs, old(tab.Contents()))
    {
      hide EncS, EncU, EncArgs, ArgsOk, PrevOk, AllPrevOk, FramesOk, PushFrame, Find, StringTable.Valid;
      var dt := EncS(ev.time - st.time);
      match ev {
        case Enter(time, func, args) =>
          var types := sigs[func].args;
          PredictorOk(st, sigs, func);
          var hit := FindFrame(st.window, Frame(func, args));
          if hit.Some? {
            out := [3] + EncU(hit.value) + dt;
            next := State(time, st.prev[func := args], st.window);
          } else {
            var body, prev := EncodeArgs(types, args, Predictor(st.prev, func, |types|), tab);
            out := [1] + EncU(func) + body + dt;
            next := State(time, st.prev[func := prev], PushFrame(st.window, Frame(func, args), cap));
          }
        case Exit(time, ret) =>
          next := State(time, st.prev, st.window);
          out := if ret.Some? then [4] + dt + EncS(ret.value) else [0] + dt;
      }
    }

    static method FindFrame(window: seq<Frame>, f: Frame) returns (d: Option<nat>)
      ensures d == Find(window, f)
    {
      assert window[0..] == window;
      for p := 0 to |window|
        invariant Find(window, f) == Find(window[p..], f)
      {
        assert window[p..][1..] == window[p + 1..];
        if window[p] == f {
          return Some(|window| - 1 - p);
        }
      }
      d := None;
    }

    method EncodeEvents(tab: StringTable) returns (out: bytes)
      requires EventsOk(events, sigs) && tab.Valid()
      modifies tab
      ensures tab.Valid()
      ensures var r := EncBlock(callStream, sigStream, cap, events, sigs, old(tab.Contents()));
              out == r.out && tab.Contents() == r.table
    {
      hide EncEvent, EncU, StateOk, WindowOk, EventOk, Distinct, StringTable.Valid;
      out := EncU(callStream) + EncU(sigStream) + EncU(cap) + EncU(|events|);
      ghost var head, t0 := out, tab.Contents();
      var st := START;
      StartOk(cap, sigs);
      TableDistinct(tab);
      ghost var whole := EncRun(events, st, cap, sigs, t0);
      ghost var r := whole;
      assert events[0..] == events && [] + whole.out == whole.out;
      for i := 0 to |events|
        invariant StateOk(st, sigs) && WindowOk(st.window, cap) && tab.Valid() && Distinct(tab.Contents())
        invariant r == EncRun(events[i..], st, cap, sigs, tab.Contents())
        invariant head + whole.out == out + r.out && r.table == whole.table
      {
        assert EventOk(events[i], sigs);
        assert events[i..][0] == events[i] && events[i..][1..] == events[i + 1..];
        EventKeeps(events[i], st, cap, sigs, tab.Contents());
        var item;
        item, st := EncodeEvent(events[i], st, tab);
        r := EncRun(events[i + 1..], st, cap, sigs, tab.Contents());
        assert out + (item + r.out) == (out + item) + r.out;
        out := out + item;
      }
      assert out + [] == out;
    }

    static lemma TableDistinct(tab: StringTable)
      requires tab.Valid()
      ensures Distinct(tab.Contents())
    {
    }
  }

  class CallReturnReader {
    const sigs: Signatures
    var events: seq<Shown>

    constructor (sigs: Signatures)
      ensures this.sigs == sigs && events == []
    {
      this.sigs, events := sigs, [];
    }

    /** A run's events are those so far and those of the rest of the run. */
    static ghost predicate Yields(whole: Parse<RunIn>, evs: seq<Shown>, later: Parse<RunIn>) {
      match later
      case Fail(f) => whole == Fail(f)
      case Ok(more, end) => whole.Ok? && whole.value.events == evs + more.events && whole.rest == end
    }

    static lemma EventsAfter(a: seq<Shown>, b: seq<Shown>, later: Parse<RunIn>)
      ensures later.Ok? ==> a + (b + later.value.events) == (a + b) + later.value.events
      ensures later.Ok? ==> [] + later.value.events == later.value.events
    {
    }

    static lemma DecRunOnce(n: nat, st: State, cap: nat, sigs: Signatures, table: Strings, s: bytes)
      requires n > 0
      ensures match DecEvent(st, cap, sigs, table, s)
              case Fail(f) => DecRun(n, st, cap, sigs, table, s) == Fail(f)
              case Ok(e, s1) =>
                match DecRun(n - 1, e.state, cap, sigs, table, s1)
                case Fail(f) => DecRun(n, st, cap, sigs, table, s) == Fail(f)
                case Ok(more, rest) =>
                  var r := DecRun(n, st, cap, sigs, table, s);
                  r.Ok? && r.value.events == [e.event] + more.events && r.rest == rest
    {
      hide DecEvent;
    }

    static lemma DecRunNone(st: State, cap: nat, sigs: Signatures, table: Strings, s: bytes)
      ensures DecRun(0, st, cap, sigs, table, s) == Ok(RunIn([], []), s)
    {
    }

    method DecodeBlock(payload: bytes, table: Strings) returns (r: Parse<Block>)
      ensures r == DecBlock(payload, sigs, table)
    {
      hide DecU, DecEvent, DecRun;
      var callStream := DecU(payload);
      if callStream.Fail? {
        return Fail(callStream.fault);
      }
      var sigStream := DecU(callStream.rest);
      if sigStream.Fail? {
        return Fail(sigStream.fault);
      }
      var cap := DecU(sigStream.rest);
      if cap.Fail? {
        return Fail(cap.fault);
      }
      var count := DecU(cap.rest);
      if count.Fail? {
        return Fail(count.fault);
      }
      var rest, st, evs: seq<Shown> := count.rest, START, [];
      ghost var whole := DecRun(count.value, START, cap.value, sigs, table, count.rest);
      EventsAfter([], [], whole);
      for i := 0 to count.value
        invariant Yields(whole, evs, DecRun(count.value - i, st, cap.value, sigs, table, rest))
      {
        DecRunOnce(count.value - i, st, cap.value, sigs, table, rest);
        var e := DecEvent(st, cap.value, sigs, table, rest);
        if e.Fail? {
          return Fail(e.fault);
        }
        EventsAfter(evs, [e.value.event], DecRun(count.value - i - 1, e.value.state, cap.value, sigs, table, e.rest));
        st, rest, evs := e.value.state, e.rest, evs + [e.value.event];
      }
      DecRunNone(st, cap.value, sigs, table, rest);
      assert evs + [] == evs;
      r := Ok(Block(callStream.value, sigStream.value, cap.value, evs), rest);
    }
  }
}
