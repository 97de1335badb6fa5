/** Transaction records and their row form: `python/src/trlog/_txn_data.py`, `_encode_record`,
    `_decode_record` and the delta state both sides carry. */
module TxnRecords {
  import opened Bytes
  import opened Bits
  import opened Varint
  import opened Fields

  datatype Attr = Attr(idx: nat, value: Value)

  /** What the writer attaches with `write_attr`: the value goes out with its type byte inline. */
  datatype TypedAttr = TypedAttr(idx: nat, ft: FieldType, value: Value)

  /** The six record kinds.  Ids and times that a damaged delta takes below zero are returned as they are.  Readers get the attributes of a `Note` (TR_ATTR) without their types. */
  datatype Rec<A> =
    | Full(stream: nat, kind: nat, id: int, start: int, end: int, parent: nat, attrs: seq<Attr>)
    | Begin(stream: nat, kind: nat, id: int, start: int, parent: nat)
    | Note(id: int, notes: seq<A>)
    | End(id: int, end: int)
    | Link(link: nat, id: int, target: nat, caption: nat)
    | Meta(id: int, key: nat, val: nat)

  type Written = Rec<TypedAttr>
  type Seen = Rec<Attr>
  type Schemas = map<nat, seq<FieldType>>

  /** The running state of delta coding: the previous id and the previous time. */
  datatype Prev = Prev(id: int, time: int)

  // ---- What the format can carry ----

  function Schema(schemas: Schemas, kind: nat): seq<FieldType> {
    if kind in schemas then schemas[kind] else []
  }

  /** The type a schema gives a field; fields past its end are 64-bit. */
  function FieldTypeAt(schema: seq<FieldType>, idx: nat): FieldType {
    if idx < |schema| then schema[idx] else U64
  }

  predicate AttrOk(schema: seq<FieldType>, a: Attr) {
    a.idx < WORD && Fits(FieldTypeAt(schema, a.idx), a.value)
  }

  predicate TypedOk(a: TypedAttr) {
    a.idx < WORD && Fits(a.ft, a.value)
  }

  predicate AttrsOk(schema: seq<FieldType>, attrs: seq<Attr>) {
    |attrs| < WORD && forall i :: 0 <= i < |attrs| ==> AttrOk(schema, attrs[i])
  }

  predicate NotesOk(notes: seq<TypedAttr>) {
    |notes| < WORD && forall i :: 0 <= i < |notes| ==> TypedOk(notes[i])
  }

  /** `LinkType(byte)` accepts four codes. */
  predicate LinkOk(code: nat) {
    code in {0, 1, 2, 255}
  }

  predicate RecOk(r: Written, schemas: Schemas) {
    0 <= r.id < HALF &&
    match r
    case Full(stream, kind, _, start, end, parent, attrs) =>
      stream < WORD && kind < WORD && 0 <= start <= end < HALF && parent < WORD && AttrsOk(Schema(schemas, kind), attrs)
    case Begin(stream, kind, _, start, parent) => stream < WORD && kind < WORD && 0 <= start < HALF && parent < WORD
    case Note(_, notes) => NotesOk(notes)
    case End(_, end) => 0 <= end < HALF
    case Link(link, _, target, caption) => LinkOk(link) && target < WORD && caption < WORD
    case Meta(_, key, val) => key < WORD && val < WORD
  }

  predicate PrevOk(p: Prev) {
    0 <= p.id < HALF && 0 <= p.time < HALF
  }

  // ---- Delta state ----

  /** `_advance_state` on the records written and `_advance_decoded_state` on the records read are
      this one step. */
  function Advance<A>(r: Rec<A>, p: Prev): Prev {
    match r
    case Full(_, _, id, _, end, _, _) => Prev(id, end)
    case Begin(_, _, id, start, _) => Prev(id, start)
    case End(id, end) => Prev(id, end)
    case Note(id, _) => Prev(id, p.time)
    case Link(_, id, _, _) => Prev(id, p.time)
    case Meta(id, _, _) => Prev(id, p.time)
  }

  function Step<A>(r: Rec<A>, delta: bool, p: Prev): Prev {
    if delta then Advance(r, p) else p
  }

  function Untyped(notes: seq<TypedAttr>): (r: seq<Attr>)
    ensures |r| == |notes|
  {
    if notes == [] then [] else [Attr(notes[0].idx, notes[0].value)] + Untyped(notes[1..])
  }

  /** A written record as a reader is meant to see it. */
  function Show(r: Written): Seen {
    match r
    case Full(stream, kind, id, start, end, parent, attrs) => Full(stream, kind, id, start, end, parent, attrs)
    case Begin(stream, kind, id, start, parent) => Begin(stream, kind, id, start, parent)
    case Note(id, notes) => Note(id, Untyped(notes))
    case End(id, end) => End(id, end)
    case Link(link, id, target, caption) => Link(link, id, target, caption)
    case Meta(id, key, val) => Meta(id, key, val)
  }

  function ShowAll(rs: seq<Written>): (s: seq<Seen>)
    ensures |s| == |rs|
  {
    if rs == [] then [] else [Show(rs[0])] + ShowAll(rs[1..])
  }

  /** Encoder and decoder hold the same state before every record, and it stays in range. */
  lemma AdvanceAgrees(r: Written, schemas: Schemas, delta: bool, p: Prev)
    requires PrevOk(p)
    ensures Step(Show(r), delta, p) == Step(r, delta, p)
    ensures RecOk(r, schemas) ==> PrevOk(Step(r, delta, p))
  {
  }

  // ---- Fields of a record ----

  /** An id or a time: relative to the running state, or eight bytes. */
  function EncKey(delta: bool, prev: int, n: nat): bytes {
    if delta then EncS(n - prev) else EncLe(8, n)
  }

  function DecKey(delta: bool, prev: int, s: bytes): Parse<int> {
    if delta then
      var (d, rest) :- DecS(s);
      Ok(prev + d, rest)
    else DecLe(8, s)
  }

  /** A reference to another transaction: a varint, or eight bytes. */
  function EncRef(delta: bool, n: nat): bytes {
    if delta then EncU(n) else EncLe(8, n)
  }

  function DecRef(delta: bool, s: bytes): Parse<nat> {
    if delta then DecU(s) else DecLe(8, s)
  }

  /** The end of a full record: its duration, or eight bytes of absolute time. */
  function EncEnd(delta: bool, start: int, end: nat): bytes
    requires start <= end
  {
    if delta then EncU(end - start) else EncLe(8, end)
  }

  function DecEnd(delta: bool, start: int, s: bytes): Parse<int> {
    if delta then
      var (d, rest) :- DecU(s);
      Ok(start + d, rest)
    else DecLe(8, s)
  }

  lemma KeyRoundTrip(delta: bool, prev: nat, n: nat, t: bytes)
    requires prev < HALF && n < HALF
    ensures DecKey(delta, prev, EncKey(delta, prev, n) + t) == Ok(n, t)
  {
    hide EncS, DecS, EncLe, DecLe, Pow2;
    if delta {
      SRoundTrip(n - prev, t);
    } else {
      Pow2Values();
      LeReads(8, n, t);
    }
  }

  lemma RefRoundTrip(delta: bool, n: nat, t: bytes)
    requires n < WORD
    ensures DecRef(delta, EncRef(delta, n) + t) == Ok(n, t)
  {
    if delta {
      URoundTrip(n, t);
    } else {
      Pow2Values();
      LeReads(8, n, t);
    }
  }

  lemma EndRoundTrip(delta: bool, start: nat, end: nat, t: bytes)
    requires start <= end < HALF
    ensures DecEnd(delta, start, EncEnd(delta, start, end) + t) == Ok(end, t)
  {
    if delta {
      URoundTrip(end - start, t);
    } else {
      Pow2Values();
      LeReads(8, end, t);
    }
  }

  /** The four field forms, as facts to have in scope while peeling a record. */
  lemma KeyRoundTrips()
    ensures forall d: bool, p: nat, n: nat, t: bytes {:trigger EncKey(d, p, n) + t} ::
              p < HALF && n < HALF ==> DecKey(d, p, EncKey(d, p, n) + t) == Ok(n, t)
    ensures forall d: bool, n: nat, t: bytes {:trigger EncRef(d, n) + t} ::
              n < WORD ==> DecRef(d, EncRef(d, n) + t) == Ok(n, t)
    ensures forall d: bool, a: nat, b: nat, t: bytes {:trigger EncEnd(d, a, b) + t} ::
              a <= b < HALF ==> DecEnd(d, a, EncEnd(d, a, b) + t) == Ok(b, t)
  {
    forall d: bool, p: nat, n: nat, t: bytes | p < HALF && n < HALF
      ensures DecKey(d, p, EncKey(d, p, n) + t) == Ok(n, t)
    {
      KeyRoundTrip(d, p, n, t);
    }
    forall d: bool, n: nat, t: bytes | n < WORD
      ensures DecRef(d, EncRef(d, n) + t) == Ok(n, t)
    {
      RefRoundTrip(d, n, t);
    }
    forall d: bool, a: nat, b: nat, t: bytes | a <= b < HALF
      ensures DecEnd(d, a, EncEnd(d, a, b) + t) == Ok(b, t)
    {
      EndRoundTrip(d, a, b, t);
    }
  }

  // ---- Attribute lists ----

  function EncAttrItems(schema: seq<FieldType>, attrs: seq<Attr>): bytes
    requires forall i :: 0 <= i < |attrs| ==> AttrOk(schema, attrs[i])
  {
    if attrs == [] then []
    else assert AttrOk(schema, attrs[0]);
         EncU(attrs[0].idx) + EncField(FieldTypeAt(schema, attrs[0].idx), attrs[0].value)
         + EncAttrItems(schema, attrs[1..])
  }

  function DecAttrItems(schema: seq<FieldType>, n: nat, s: bytes): Parse<seq<Attr>> {
    if n == 0 then Ok([], s)
    else
      var (idx, s1) :- DecU(s);
      var (value, s2) :- DecField(FieldTypeAt(schema, idx), s1);
      var (more, rest) :- DecAttrItems(schema, n - 1, s2);
      Ok([Attr(idx, value)] + more, rest)
  }

  /** `_encode_attrs`: the count, then index and value by schema. */
  function EncAttrs(schema: seq<FieldType>, attrs: seq<Attr>): bytes
    requires AttrsOk(schema, attrs)
  {
    EncU(|attrs|) + EncAttrItems(schema, attrs)
  }

  function DecAttrs(schema: seq<FieldType>, s: bytes): Parse<seq<Attr>> {
    var (n, s1) :- DecU(s);
    DecAttrItems(schema, n, s1)
  }

  function EncNoteItems(notes: seq<TypedAttr>): bytes
    requires forall i :: 0 <= i < |notes| ==> TypedOk(notes[i])
  {
    if notes == [] then []
    else assert TypedOk(notes[0]);
         EncU(notes[0].idx) + [Code(notes[0].ft)] + EncField(notes[0].ft, notes[0].value) + EncNoteItems(notes[1..])
  }

  function DecNoteItems(n: nat, s: bytes): Parse<seq<Attr>> {
    if n == 0 then Ok([], s)
    else
      var (idx, s1) :- DecU(s);
      var (ft, s2) :- DecType(s1);
      var (value, s3) :- DecField(ft, s2);
      var (more, rest) :- DecNoteItems(n - 1, s3);
      Ok([Attr(idx, value)] + more, rest)
  }

  function EncNotes(notes: seq<TypedAttr>): bytes
    requires NotesOk(notes)
  {
    EncU(|notes|) + EncNoteItems(notes)
  }

  function DecNotes(s: bytes): Parse<seq<Attr>> {
    var (n, s1) :- DecU(s);
    DecNoteItems(n, s1)
  }

  lemma {:induction false} AttrItemsRoundTrip(schema: seq<FieldType>, attrs: seq<Attr>, t: bytes)
    requires forall i :: 0 <= i < |attrs| ==> AttrOk(schema, attrs[i])
    ensures DecAttrItems(schema, |attrs|, EncAttrItems(schema, attrs) + t) == Ok(attrs, t)
  {
    hide EncU, DecU, Fits, EncField, DecField;
    if attrs != [] {
      var a := attrs[0];
      var ft := FieldTypeAt(schema, a.idx);
      var tail := EncAttrItems(schema, attrs[1..]) + t;
      assert EncAttrItems(schema, attrs) + t == EncU(a.idx) + (EncField(ft, a.value) + tail);
      URoundTrip(a.idx, EncField(ft, a.value) + tail);
      FieldRoundTrip(ft, a.value, tail);
      AttrItemsRoundTrip(schema, attrs[1..], t);
      assert [a] + attrs[1..] == attrs;
    }
  }

  lemma {:induction false} NoteItemsRoundTrip(notes: seq<TypedAttr>, t: bytes)
    requires forall i :: 0 <= i < |notes| ==> TypedOk(notes[i])
    ensures DecNoteItems(|notes|, EncNoteItems(notes) + t) == Ok(Untyped(notes), t)
  {
    hide EncU, DecU, Fits, EncField, DecField, DecType, Code;
    if notes == [] {
      assert [] + t == t;
    } else {
      var a := notes[0];
      assert TypedOk(notes[0]);
      var tail := EncNoteItems(notes[1..]) + t;
      var body := EncField(a.ft, a.value) + tail;
      assert EncNoteItems(notes) + t == EncU(a.idx) + ([Code(a.ft)] + body);
      TypeRoundTrip(a.ft, body);
      URoundTrip(a.idx, [Code(a.ft)] + body);
      FieldRoundTrip(a.ft, a.value, tail);
      NoteItemsRoundTrip(notes[1..], t);
    }
  }

  lemma AttrsRoundTrip(schema: seq<FieldType>, attrs: seq<Attr>, t: bytes)
    requires AttrsOk(schema, attrs)
    ensures DecAttrs(schema, EncAttrs(schema, attrs) + t) == Ok(attrs, t)
  {
    hide EncU, DecU;
    assert EncAttrs(schema, attrs) + t == EncU(|attrs|) + (EncAttrItems(schema, attrs) + t);
    URoundTrip(|attrs|, EncAttrItems(schema, attrs) + t);
    AttrItemsRoundTrip(schema, attrs, t);
  }

  lemma NotesRoundTrip(notes: seq<TypedAttr>, t: bytes)
    requires NotesOk(notes)
    ensures DecNotes(EncNotes(notes) + t) == Ok(Untyped(notes), t)
  {
    hide EncU, DecU;
    assert EncNotes(notes) + t == EncU(|notes|) + (EncNoteItems(notes) + t);
    URoundTrip(|notes|, EncNoteItems(notes) + t);
    NoteItemsRoundTrip(notes, t);
  }

  // ---- Rows ----

  function Tag<A>(r: Rec<A>): byte {
    match r
    case Full(_, _, _, _, _, _, _) => 1
    case Begin(_, _, _, _, _) => 2
    case Note(_, _) => 3
    case End(_, _) => 4
    case Link(_, _, _, _) => 5
    case Meta(_, _, _) => 6
  }

  /** `_encode_record`. */
  function EncRec(r: Written, delta: bool, p: Prev, schemas: Schemas): bytes
    requires RecOk(r, schemas)
  {
    [Tag(r)] + EncBody(r, delta, p, schemas)
  }

  function EncBody(r: Written, delta: bool, p: Prev, schemas: Schemas): bytes
    requires RecOk(r, schemas)
  {
    match r
    case Full(stream, kind, id, start, end, parent, attrs) =>
      EncU(stream) + EncU(kind) + EncKey(delta, p.id, id) + EncKey(delta, p.time, start)
      + EncEnd(delta, start, end) + EncRef(delta, parent) + EncAttrs(Schema(schemas, kind), attrs)
    case Begin(stream, kind, id, start, parent) =>
      EncU(stream) + EncU(kind) + EncKey(delta, p.id, id) + EncKey(delta, p.time, start) + EncRef(delta, parent)
    case Note(id, notes) => EncKey(delta, p.id, id) + EncNotes(notes)
    case End(id, end) => EncKey(delta, p.id, id) + EncKey(delta, p.time, end)
    case Link(link, id, target, caption) => [link] + EncKey(delta, p.id, id) + EncRef(delta, target) + EncU(caption)
    case Meta(id, key, val) => EncKey(delta, p.id, id) + EncU(key) + EncU(val)
  }

  /** `_decode_record`: an unknown tag reads as no record at all. */
  function DecRec(s: bytes, delta: bool, p: Prev, schemas: Schemas): Parse<Option<Seen>> {
    var (tag, s1) :- DecByte(s);
    if tag == 1 then Present(DecFull(s1, delta, p, schemas))
    else if tag == 2 then Present(DecBegin(s1, delta, p))
    else if tag == 3 then Present(DecNote(s1, delta, p))
    else if tag == 4 then Present(DecFinish(s1, delta, p))
    else if tag == 5 then Present(DecLink(s1, delta, p))
    else if tag == 6 then Present(DecMeta(s1, delta, p))
    else Ok(None, s1)
  }

  function Present(r: Parse<Seen>): Parse<Option<Seen>> {
    var (rec, rest) :- r;
    Ok(Some(rec), rest)
  }

  function DecFull(s: bytes, delta: bool, p: Prev, schemas: Schemas): Parse<Seen> {
    var (stream, s1) :- DecU(s);
    var (kind, s2) :- DecU(s1);
    var (id, s3) :- DecKey(delta, p.id, s2);
    var (start, s4) :- DecKey(delta, p.time, s3);
    var (end, s5) :- DecEnd(delta, start, s4);
    var (parent, s6) :- DecRef(delta, s5);
    var (attrs, rest) :- DecAttrs(Schema(schemas, kind), s6);
    Ok(Full(stream, kind, id, start, end, parent, attrs), rest)
  }

  function DecBegin(s: bytes, delta: bool, p: Prev): Parse<Seen> {
    var (stream, s1) :- DecU(s);
    var (kind, s2) :- DecU(s1);
    var (id, s3) :- DecKey(delta, p.id, s2);
    var (start, s4) :- DecKey(delta, p.time, s3);
    var (parent, rest) :- DecRef(delta, s4);
    Ok(Begin(stream, kind, id, start, parent), rest)
  }

  function DecNote(s: bytes, delta: bool, p: Prev): Parse<Seen> {
    var (id, s1) :- DecKey(delta, p.id, s);
    var (notes, rest) :- DecNotes(s1);
    Ok(Note(id, notes), rest)
  }

  function DecFinish(s: bytes, delta: bool, p: Prev): Parse<Seen> {
    var (id, s1) :- DecKey(delta, p.id, s);
    var (end, rest) :- DecKey(delta, p.time, s1);
    Ok(End(id, end), rest)
  }

  function DecLink(s: bytes, delta: bool, p: Prev): Parse<Seen> {
    var (link, s1) :- DecByte(s);
    if !LinkOk(link) then Fail(BadTag)
    else
      var (id, s2) :- DecKey(delta, p.id, s1);
      var (target, s3) :- DecRef(delta, s2);
      var (caption, rest) :- DecU(s3);
      Ok(Link(link, id, target, caption), rest)
  }

  function DecMeta(s: bytes, delta: bool, p: Prev): Parse<Seen> {
    var (id, s1) :- DecKey(delta, p.id, s);
    var (key, s2) :- DecU(s1);
    var (val, rest) :- DecU(s2);
    Ok(Meta(id, key, val), rest)
  }

  lemma FullRoundTrip(r: Written, delta: bool, p: Prev, schemas: Schemas, t: bytes)
    requires r.Full? && RecOk(r, schemas) && PrevOk(p)
    ensures DecFull(EncBody(r, delta, p, schemas) + t, delta, p, schemas) == Ok(Show(r), t)
  {
    hide EncU, DecU, EncKey, DecKey, EncEnd, DecEnd, EncRef, DecRef, EncAttrs, DecAttrs;
    AppendAssoc();
    RoundTrips();
    KeyRoundTrips();
    AttrsRoundTrip(Schema(schemas, r.kind), r.attrs, t);
  }

  lemma BeginRoundTrip(r: Written, delta: bool, p: Prev, schemas: Schemas, t: bytes)
    requires r.Begin? && RecOk(r, schemas) && PrevOk(p)
    ensures DecBegin(EncBody(r, delta, p, schemas) + t, delta, p) == Ok(Show(r), t)
  {
    hide EncU, DecU, EncKey, DecKey, EncEnd, DecEnd, EncRef, DecRef;
    AppendAssoc();
    RoundTrips();
    KeyRoundTrips();
  }

  lemma SmallRoundTrip(r: Written, delta: bool, p: Prev, schemas: Schemas, t: bytes)
    requires (r.Note? || r.End?) && RecOk(r, schemas) && PrevOk(p)
    ensures r.Note? ==> DecNote(EncBody(r, delta, p, schemas) + t, delta, p) == Ok(Show(r), t)
    ensures r.End? ==> DecFinish(EncBody(r, delta, p, schemas) + t, delta, p) == Ok(Show(r), t)
  {
    hide EncKey, DecKey, EncNotes, DecNotes;
    AppendAssoc();
    KeyRoundTrips();
    if r.Note? {
      NotesRoundTrip(r.notes, t);
    }
  }

  lemma LinkRoundTrip(r: Written, delta: bool, p: Prev, schemas: Schemas, t: bytes)
    requires r.Link? && RecOk(r, schemas) && PrevOk(p)
    ensures DecLink(EncBody(r, delta, p, schemas) + t, delta, p) == Ok(Show(r), t)
  {
    hide EncU, DecU, EncKey, DecKey, EncEnd, DecEnd, EncRef, DecRef;
    AppendAssoc();
    RoundTrips();
    KeyRoundTrips();
  }

  lemma MetaRoundTrip(r: Written, delta: bool, p: Prev, schemas: Schemas, t: bytes)
    requires r.Meta? && RecOk(r, schemas) && PrevOk(p)
    ensures DecMeta(EncBody(r, delta, p, schemas) + t, delta, p) == Ok(Show(r), t)
  {
    hide EncU, DecU, EncKey, DecKey, EncEnd, DecEnd, EncRef, DecRef;
    AppendAssoc();
    RoundTrips();
    KeyRoundTrips();
  }

  /** One row reads back as the record that was written, whatever rows follow it. */
  lemma RecRoundTrip(r: Written, delta: bool, p: Prev, schemas: Schemas, t: bytes)
    requires RecOk(r, schemas) && PrevOk(p)
    ensures DecRec(EncRec(r, delta, p, schemas) + t, delta, p, schemas) == Ok(Some(Show(r)), t)
  {
    hide EncBody, DecFull, DecBegin, DecNote, DecFinish, DecLink, DecMeta;
    var body := EncBody(r, delta, p, schemas);
    assert EncRec(r, delta, p, schemas) + t == [Tag(r)] + (body + t);
    assert ([Tag(r)] + (body + t))[1..] == body + t;
    match r
    case Full(_, _, _, _, _, _, _) => FullRoundTrip(r, delta, p, schemas, t);
    case Begin(_, _, _, _, _) => BeginRoundTrip(r, delta, p, schemas, t);
    case Link(_, _, _, _) => LinkRoundTrip(r, delta, p, schemas, t);
    case Meta(_, _, _) => MetaRoundTrip(r, delta, p, schemas, t);
    case _ => SmallRoundTrip(r, delta, p, schemas, t);
  }
}
