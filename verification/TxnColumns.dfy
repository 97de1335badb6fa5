/** The column layout of transaction blocks: every field of a record goes to the column of its
    kind (`_encode_payload_column`, `_decode_payload_column` of `python/src/trlog/_txn_data.py`). */
module TxnColumns {
  import opened Bytes
  import opened Bits
  import opened Varint
  import opened Fields
  import opened TxnRecords

  /** Column id to column bytes.  Tags have a column of their own, read before all others. */
  type Columns = map<nat, bytes>

  const TAG := 0
  const STREAM := 1
  const KIND := 2
  const ID := 3
  const TIME := 4
  const DURATION := 5
  const PARENT := 6
  const LINK_TYPE := 7
  const LINK_TARGET := 8
  const LINK_CAPTION := 9
  const META_KEY := 10
  const META_VAL := 11
  const ATTR_DATA := 12
  const ATTR_BASE := 0x80

  function Col(m: Columns, c: nat): bytes {
    if c in m then m[c] else []
  }

  /** Bytes that come before everything already in a column. */
  function Push(c: nat, b: bytes, m: Columns): Columns {
    m[c := b + Col(m, c)]
  }

  /** Bytes that come after: what the encoder does to its column buffers. */
  function Append(m: Columns, c: nat, b: bytes): Columns {
    m[c := Col(m, c) + b]
  }

  /** The columns of two stretches of records, one after the other. */
  ghost function Join(a: Columns, b: Columns): Columns {
    map c | c in a.Keys + b.Keys :: Col(a, c) + Col(b, c)
  }

  lemma JoinAppend(a: Columns, c: nat, b: bytes, m: Columns)
    ensures Join(Append(a, c, b), m) == Join(a, Push(c, b, m))
  {
    forall k
      ensures Col(Append(a, c, b), k) + Col(m, k) == Col(a, k) + Col(Push(c, b, m), k)
    {
      if k == c {
        assert (Col(a, c) + b) + Col(m, c) == Col(a, c) + (b + Col(m, c));
      }
    }
    assert Append(a, c, b).Keys + m.Keys == a.Keys + Push(c, b, m).Keys;
    hide Append, Push, Col;
  }

  // ---- What each record adds ----

  /** The fields of a schema that have a column, in order from field `i` on: what a reader takes out
      for every full record of that schema. */
  function FieldsIn(cols: set<nat>, schema: seq<FieldType>, i: nat): seq<nat>
    requires i <= |schema|
    decreases |schema| - i
  {
    if i == |schema| then []
    else if ATTR_BASE + i in cols then [i] + FieldsIn(cols, schema, i + 1)
    else FieldsIn(cols, schema, i + 1)
  }

  function Indices(attrs: seq<Attr>): (r: seq<nat>)
    ensures |r| == |attrs|
  {
    if attrs == [] then [] else [attrs[0].idx] + Indices(attrs[1..])
  }

  /** A full record carries exactly its schema's fields that have a column, each once and in order. */
  predicate Carries<A>(r: Rec<A>, schemas: Schemas, cols: set<nat>) {
    r.Full? ==> Indices(r.attrs) == FieldsIn(cols, Schema(schemas, r.kind), 0)
  }

  predicate ColumnOk(r: Written, schemas: Schemas, cols: set<nat>) {
    RecOk(r, schemas) && Carries(r, schemas, cols)
  }

  /** `_encode_attrs_column`, seen from the front: attribute `i` on. */
  function PushAttrs(schema: seq<FieldType>, attrs: seq<Attr>, i: nat, m: Columns): Columns
    requires i <= |attrs| && AttrsOk(schema, attrs)
    decreases |attrs| - i
  {
    if i == |attrs| then m
    else
      assert AttrOk(schema, attrs[i]);
      Push(ATTR_BASE + attrs[i].idx, EncField(FieldTypeAt(schema, attrs[i].idx), attrs[i].value),
           PushAttrs(schema, attrs, i + 1, m))
  }

  /** The notes of a TR_ATTR record travel as one length-prefixed blob. */
  function EncBlob(notes: seq<TypedAttr>): bytes
    requires NotesOk(notes)
  {
    EncU(|EncNotes(notes)|) + EncNotes(notes)
  }

  /** The fields of one record, in front of the columns of the records after it. */
  function PushRec(r: Written, delta: bool, p: Prev, schemas: Schemas, m: Columns): Columns
    requires RecOk(r, schemas)
  {
    match r
    case Full(stream, kind, id, start, end, parent, attrs) =>
      Push(STREAM, EncU(stream), Push(KIND, EncU(kind), Push(ID, EncKey(delta, p.id, id),
        Push(TIME, EncKey(delta, p.time, start), Push(DURATION, EncRef(delta, end - start),
          Push(PARENT, EncU(parent), PushAttrs(Schema(schemas, kind), attrs, 0, m)))))))
    case Begin(stream, kind, id, start, parent) =>
      Push(STREAM, EncU(stream), Push(KIND, EncU(kind), Push(ID, EncKey(delta, p.id, id),
        Push(TIME, EncKey(delta, p.time, start), Push(PARENT, EncU(parent), m)))))
    case Note(id, notes) => Push(ID, EncKey(delta, p.id, id), Push(ATTR_DATA, EncBlob(notes), m))
    case End(id, end) => Push(ID, EncKey(delta, p.id, id), Push(TIME, EncKey(delta, p.time, end), m))
    case Link(link, id, target, caption) =>
      Push(LINK_TYPE, [link], Push(ID, EncKey(delta, p.id, id),
        Push(LINK_TARGET, EncU(target), Push(LINK_CAPTION, EncU(caption), m))))
    case Meta(id, key, val) =>
      Push(ID, EncKey(delta, p.id, id), Push(META_KEY, EncU(key), Push(META_VAL, EncU(val), m)))
  }

  /** All columns but the tags. */
  function EncColumns(rs: seq<Written>, delta: bool, p: Prev, schemas: Schemas): Columns
    requires forall i :: 0 <= i < |rs| ==> RecOk(rs[i], schemas)
  {
    if rs == [] then map[]
    else assert RecOk(rs[0], schemas);
         PushRec(rs[0], delta, p, schemas, EncColumns(rs[1..], delta, Step(rs[0], delta, p), schemas))
  }

  function Tags(rs: seq<Written>): (t: bytes)
    ensures |t| == |rs|
  {
    if rs == [] then [] else [Tag(rs[0])] + Tags(rs[1..])
  }

  // ---- Reading back ----

  datatype Read<+T> = Got(value: T, cols: Columns) | Lost(fault: Fault) {
    predicate IsFailure() {
      Lost?
    }

    function PropagateFailure<U>(): Read<U>
      requires Lost?
    {
      Lost(fault)
    }

    function Extract(): (T, Columns)
      requires Got?
    {
      (value, cols)
    }
  }

  /** Reads the next item of one column and moves that column's cursor; a missing column raises. */
  function Next<T>(m: Columns, c: nat, dec: bytes -> Parse<T>): Read<T> {
    if c !in m then Lost(Corrupt)
    else match dec(m[c])
      case Ok(v, rest) => Got(v, m[c := rest])
      case Fail(f) => Lost(f)
  }

  function NextU(m: Columns, c: nat): Read<nat> {
    Next(m, c, s => DecU(s))
  }

  function NextKey(m: Columns, c: nat, delta: bool, prev: int): Read<int> {
    Next(m, c, s => DecKey(delta, prev, s))
  }

  function NextRef(m: Columns, c: nat, delta: bool): Read<nat> {
    Next(m, c, s => DecRef(delta, s))
  }

  function DecBlob(s: bytes): Parse<seq<Attr>> {
    var (n, s1) :- DecU(s);
    var (blob, rest) :- DecSlice(n, s1);
    match DecNotes(blob)
    case Ok(notes, _) => Ok(notes, rest)
    case Fail(f) => Fail(f)
  }

  /** `_decode_attrs_column`: the schema drives, and a field without a column is skipped. */
  function NextAttrs(schema: seq<FieldType>, i: nat, m: Columns): Read<seq<Attr>>
    requires i <= |schema|
    decreases |schema| - i
  {
    if i == |schema| then Got([], m)
    else if ATTR_BASE + i !in m then NextAttrs(schema, i + 1, m)
    else
      var (value, m1) :- Next(m, ATTR_BASE + i, s => DecField(schema[i], s));
      var (more, m2) :- NextAttrs(schema, i + 1, m1);
      Got([Attr(i, value)] + more, m2)
  }

  function NextFull(delta: bool, p: Prev, schemas: Schemas, m: Columns): Read<Seen> {
    var (stream, m1) :- NextU(m, STREAM);
    var (kind, m2) :- NextU(m1, KIND);
    var (id, m3) :- NextKey(m2, ID, delta, p.id);
    var (start, m4) :- NextKey(m3, TIME, delta, p.time);
    var (duration, m5) :- NextRef(m4, DURATION, delta);
    var (parent, m6) :- NextU(m5, PARENT);
    var (attrs, m7) :- NextAttrs(Schema(schemas, kind), 0, m6);
    Got(Full(stream, kind, id, start, start + duration, parent, attrs), m7)
  }

  function NextBegin(delta: bool, p: Prev, m: Columns): Read<Seen> {
    var (stream, m1) :- NextU(m, STREAM);
    var (kind, m2) :- NextU(m1, KIND);
    var (id, m3) :- NextKey(m2, ID, delta, p.id);
    var (start, m4) :- NextKey(m3, TIME, delta, p.time);
    var (parent, m5) :- NextU(m4, PARENT);
    Got(Begin(stream, kind, id, start, parent), m5)
  }

  function NextNote(delta: bool, p: Prev, m: Columns): Read<Seen> {
    var (id, m1) :- NextKey(m, ID, delta, p.id);
    var (notes, m2) :- Next(m1, ATTR_DATA, s => DecBlob(s));
    Got(Note(id, notes), m2)
  }

  function NextEnd(delta: bool, p: Prev, m: Columns): Read<Seen> {
    var (id, m1) :- NextKey(m, ID, delta, p.id);
    var (end, m2) :- NextKey(m1, TIME, delta, p.time);
    Got(End(id, end), m2)
  }

  function NextLink(delta: bool, p: Prev, m: Columns): Read<Seen> {
    var (link, m1) :- Next(m, LINK_TYPE, s => DecByte(s));
    if !LinkOk(link) then Lost(BadTag)
    else
      var (id, m2) :- NextKey(m1, ID, delta, p.id);
      var (target, m3) :- NextU(m2, LINK_TARGET);
      var (caption, m4) :- NextU(m3, LINK_CAPTION);
      Got(Link(link, id, target, caption), m4)
  }

  function NextMeta(delta: bool, p: Prev, m: Columns): Read<Seen> {
    var (id, m1) :- NextKey(m, ID, delta, p.id);
    var (key, m2) :- NextU(m1, META_KEY);
    var (val, m3) :- NextU(m2, META_VAL);
    Got(Meta(id, key, val), m3)
  }

  /** One record, by its tag; `TxnRecordTag(b)` raises on an unknown one. */
  function NextRec(tag: byte, delta: bool, p: Prev, schemas: Schemas, m: Columns): Read<Seen> {
    if tag == 1 then NextFull(delta, p, schemas, m)
    else if tag == 2 then NextBegin(delta, p, m)
    else if tag == 3 then NextNote(delta, p, m)
    else if tag == 4 then NextEnd(delta, p, m)
    else if tag == 5 then NextLink(delta, p, m)
    else if tag == 6 then NextMeta(delta, p, m)
    else Lost(BadTag)
  }

  // ---- Reading back what was written ----

  /** The cursors stand just before `w`: what is left of every column is `w`'s. */
  ghost predicate Before(m: Columns, w: Columns) {
    w.Keys <= m.Keys && forall c :: c in m ==> m[c] == Col(w, c)
  }

  lemma NextReads<T>(m: Columns, c: nat, dec: bytes -> Parse<T>, b: bytes, v: T, w: Columns)
    requires Before(m, Push(c, b, w))
    requires dec(b + Col(w, c)) == Ok(v, Col(w, c))
    ensures Next(m, c, dec) == Got(v, m[c := Col(w, c)]) && Before(m[c := Col(w, c)], w)
    ensures m[c := Col(w, c)].Keys == m.Keys
  {
    assert c in Push(c, b, w);
  }

  lemma NextUReads(m: Columns, c: nat, n: nat, w: Columns) returns (m': Columns)
    requires Before(m, Push(c, EncU(n), w)) && n < WORD
    ensures NextU(m, c) == Got(n, m') && Before(m', w) && m'.Keys == m.Keys
  {
    URoundTrip(n, Col(w, c));
    NextReads(m, c, s => DecU(s), EncU(n), n, w);
    m' := m[c := Col(w, c)];
  }

  lemma NextKeyReads(m: Columns, c: nat, delta: bool, prev: nat, n: nat, w: Columns) returns (m': Columns)
    requires Before(m, Push(c, EncKey(delta, prev, n), w)) && n < HALF && prev < HALF
    ensures NextKey(m, c, delta, prev) == Got(n, m') && Before(m', w) && m'.Keys == m.Keys
  {
    KeyRoundTrip(delta, prev, n, Col(w, c));
    NextReads(m, c, s => DecKey(delta, prev, s), EncKey(delta, prev, n), n, w);
    m' := m[c := Col(w, c)];
  }

  lemma NextRefReads(m: Columns, c: nat, delta: bool, n: nat, w: Columns) returns (m': Columns)
    requires Before(m, Push(c, EncRef(delta, n), w)) && n < WORD
    ensures NextRef(m, c, delta) == Got(n, m') && Before(m', w) && m'.Keys == m.Keys
  {
    RefRoundTrip(delta, n, Col(w, c));
    NextReads(m, c, s => DecRef(delta, s), EncRef(delta, n), n, w);
    m' := m[c := Col(w, c)];
  }

  /** The attributes from the `k`-th on come back, when they are the fields from `i` on that have a
      column. */
  lemma {:induction false} NextAttrsReads(schema: seq<FieldType>, attrs: seq<Attr>, k: nat, i: nat, m: Columns,
                                          w: Columns)
    returns (m': Columns)
    requires k <= |attrs| && i <= |schema| && AttrsOk(schema, attrs)
    requires Indices(attrs[k..]) == FieldsIn(m.Keys, schema, i)
    requires Before(m, PushAttrs(schema, attrs, k, w))
    ensures NextAttrs(schema, i, m) == Got(attrs[k..], m') && Before(m', w) && m'.Keys == m.Keys
    decreases |schema| - i
  {
    hide EncField, DecField, Fits, Before, Push, Col;
    if i == |schema| {
      m' := m;
    } else if ATTR_BASE + i !in m {
      m' := NextAttrsReads(schema, attrs, k, i + 1, m, w);
    } else {
      var c, a, ft := ATTR_BASE + i, attrs[k], schema[i];
      assert Indices(attrs[k..])[0] == i && a.idx == i;
      assert attrs[k..][1..] == attrs[k + 1..] && FieldsIn(m.Keys, schema, i)[1..] == FieldsIn(m.Keys, schema, i + 1);
      assert AttrOk(schema, a);
      var w1 := PushAttrs(schema, attrs, k + 1, w);
      FieldRoundTrip(ft, a.value, Col(w1, c));
      NextReads(m, c, s => DecField(ft, s), EncField(ft, a.value), a.value, w1);
      m' := NextAttrsReads(schema, attrs, k + 1, i + 1, m[c := Col(w1, c)], w);
      assert [Attr(i, a.value)] + attrs[k + 1..] == attrs[k..];
    }
  }

  lemma FullReads(r: Written, delta: bool, p: Prev, schemas: Schemas, m: Columns, w: Columns) returns (m': Columns)
    requires r.Full? && ColumnOk(r, schemas, m.Keys) && PrevOk(p) && Before(m, PushRec(r, delta, p, schemas, w))
    ensures NextFull(delta, p, schemas, m) == Got(Show(r), m') && Before(m', w) && m'.Keys == m.Keys
  {
    hide EncU, EncKey, EncRef, Push, Before, NextU, NextKey, NextRef, NextAttrs;
    var schema := Schema(schemas, r.kind);
    var w6 := PushAttrs(schema, r.attrs, 0, w);
    var w5 := Push(PARENT, EncU(r.parent), w6);
    var w4 := Push(DURATION, EncRef(delta, r.end - r.start), w5);
    var w3 := Push(TIME, EncKey(delta, p.time, r.start), w4);
    var w2 := Push(ID, EncKey(delta, p.id, r.id), w3);
    var w1 := Push(KIND, EncU(r.kind), w2);
    var m1 := NextUReads(m, STREAM, r.stream, w1);
    var m2 := NextUReads(m1, KIND, r.kind, w2);
    var m3 := NextKeyReads(m2, ID, delta, p.id, r.id, w3);
    var m4 := NextKeyReads(m3, TIME, delta, p.time, r.start, w4);
    var m5 := NextRefReads(m4, DURATION, delta, r.end - r.start, w5);
    var m6 := NextUReads(m5, PARENT, r.parent, w6);
    assert r.attrs[0..] == r.attrs;
    m' := NextAttrsReads(schema, r.attrs, 0, 0, m6, w);
  }

  lemma BeginReads(r: Written, delta: bool, p: Prev, schemas: Schemas, m: Columns, w: Columns) returns (m': Columns)
    requires r.Begin? && RecOk(r, schemas) && PrevOk(p) && Before(m, PushRec(r, delta, p, schemas, w))
    ensures NextBegin(delta, p, m) == Got(Show(r), m') && Before(m', w) && m'.Keys == m.Keys
  {
    hide EncU, EncKey, EncRef, Push, Before, NextU, NextKey;
    var w4 := Push(PARENT, EncU(r.parent), w);
    var w3 := Push(TIME, EncKey(delta, p.time, r.start), w4);
    var w2 := Push(ID, EncKey(delta, p.id, r.id), w3);
    var w1 := Push(KIND, EncU(r.kind), w2);
    var m1 := NextUReads(m, STREAM, r.stream, w1);
    var m2 := NextUReads(m1, KIND, r.kind, w2);
    var m3 := NextKeyReads(m2, ID, delta, p.id, r.id, w3);
    var m4 := NextKeyReads(m3, TIME, delta, p.time, r.start, w4);
    m' := NextUReads(m4, PARENT, r.parent, w);
  }

  lemma BlobRoundTrip(notes: seq<TypedAttr>, t: bytes)
    requires NotesOk(notes) && |EncNotes(notes)| < WORD
    ensures DecBlob(EncBlob(notes) + t) == Ok(Untyped(notes), t)
  {
    hide EncU, DecU, EncNotes, DecNotes;
    var blob := EncNotes(notes);
    assert EncBlob(notes) + t == EncU(|blob|) + (blob + t);
    URoundTrip(|blob|, blob + t);
    SliceRoundTrip(blob, t);
    NotesRoundTrip(notes, []);
    assert blob + [] == blob;
  }

  /** A blob's length must fit its length prefix. */
  predicate BlobOk(r: Written) {
    r.Note? && NotesOk(r.notes) ==> |EncNotes(r.notes)| < WORD
  }

  lemma NoteReads(r: Written, delta: bool, p: Prev, schemas: Schemas, m: Columns, w: Columns) returns (m': Columns)
    requires r.Note? && RecOk(r, schemas) && BlobOk(r) && PrevOk(p) && Before(m, PushRec(r, delta, p, schemas, w))
    ensures NextNote(delta, p, m) == Got(Show(r), m') && Before(m', w) && m'.Keys == m.Keys
  {
    hide EncKey, EncBlob, DecBlob, Push, Before, NextKey;
    var w1 := Push(ATTR_DATA, EncBlob(r.notes), w);
    var m1 := NextKeyReads(m, ID, delta, p.id, r.id, w1);
    BlobRoundTrip(r.notes, Col(w, ATTR_DATA));
    NextReads(m1, ATTR_DATA, s => DecBlob(s), EncBlob(r.notes), Untyped(r.notes), w);
    m' := m1[ATTR_DATA := Col(w, ATTR_DATA)];
  }

  lemma EndReads(r: Written, delta: bool, p: Prev, schemas: Schemas, m: Columns, w: Columns) returns (m': Columns)
    requires r.End? && RecOk(r, schemas) && PrevOk(p) && Before(m, PushRec(r, delta, p, schemas, w))
    ensures NextEnd(delta, p, m) == Got(Show(r), m') && Before(m', w) && m'.Keys == m.Keys
  {
    hide EncKey, Push, Before, NextKey;
    var w1 := Push(TIME, EncKey(delta, p.time, r.end), w);
    var m1 := NextKeyReads(m, ID, delta, p.id, r.id, w1);
    m' := NextKeyReads(m1, TIME, delta, p.time, r.end, w);
  }

  lemma LinkReads(r: Written, delta: bool, p: Prev, schemas: Schemas, m: Columns, w: Columns) returns (m': Columns)
    requires r.Link? && RecOk(r, schemas) && PrevOk(p) && Before(m, PushRec(r, delta, p, schemas, w))
    ensures NextLink(delta, p, m) == Got(Show(r), m') && Before(m', w) && m'.Keys == m.Keys
  {
    hide EncU, EncKey, Push, Before, NextU, NextKey;
    var w3 := Push(LINK_CAPTION, EncU(r.caption), w);
    var w2 := Push(LINK_TARGET, EncU(r.target), w3);
    var w1 := Push(ID, EncKey(delta, p.id, r.id), w2);
    NextReads(m, LINK_TYPE, s => DecByte(s), [r.link], r.link, w1);
    var m1 := m[LINK_TYPE := Col(w1, LINK_TYPE)];
    var m2 := NextKeyReads(m1, ID, delta, p.id, r.id, w2);
    var m3 := NextUReads(m2, LINK_TARGET, r.target, w3);
    m' := NextUReads(m3, LINK_CAPTION, r.caption, w);
  }

  lemma MetaReads(r: Written, delta: bool, p: Prev, schemas: Schemas, m: Columns, w: Columns) returns (m': Columns)
    requires r.Meta? && RecOk(r, schemas) && PrevOk(p) && Before(m, PushRec(r, delta, p, schemas, w))
    ensures NextMeta(delta, p, m) == Got(Show(r), m') && Before(m', w) && m'.Keys == m.Keys
  {
    hide EncU, EncKey, Push, Before, NextU, NextKey;
    var w2 := Push(META_VAL, EncU(r.val), w);
    var w1 := Push(META_KEY, EncU(r.key), w2);
    var m1 := NextKeyReads(m, ID, delta, p.id, r.id, w1);
    var m2 := NextUReads(m1, META_KEY, r.key, w2);
    m' := NextUReads(m2, META_VAL, r.val, w);
  }

  /** One record comes back from the columns as it was written, and every cursor moves past exactly
      its bytes. */
  lemma RecReads(r: Written, delta: bool, p: Prev, schemas: Schemas, m: Columns, w: Columns) returns (m': Columns)
    requires ColumnOk(r, schemas, m.Keys) && BlobOk(r) && PrevOk(p) && Before(m, PushRec(r, delta, p, schemas, w))
    ensures NextRec(Tag(r), delta, p, schemas, m) == Got(Show(r), m') && Before(m', w) && m'.Keys == m.Keys
  {
    hide PushRec, Before, NextFull, NextBegin, NextNote, NextEnd, NextLink, NextMeta;
    match r
    case Full(_, _, _, _, _, _, _) => m' := FullReads(r, delta, p, schemas, m, w);
    case Begin(_, _, _, _, _) => m' := BeginReads(r, delta, p, schemas, m, w);
    case Note(_, _) => m' := NoteReads(r, delta, p, schemas, m, w);
    case End(_, _) => m' := EndReads(r, delta, p, schemas, m, w);
    case Link(_, _, _, _) => m' := LinkReads(r, delta, p, schemas, m, w);
    case Meta(_, _, _) => m' := MetaReads(r, delta, p, schemas, m, w);
  }

  // ---- What any columns can give ----

  lemma {:induction false} AttrsCarried(schema: seq<FieldType>, i: nat, m: Columns)
    requires i <= |schema|
    ensures var r := NextAttrs(schema, i, m);
            r.Got? ==> r.cols.Keys == m.Keys && Indices(r.value) == FieldsIn(m.Keys, schema, i)
    decreases |schema| - i
  {
    hide DecField;
    if i < |schema| {
      if ATTR_BASE + i !in m {
        AttrsCarried(schema, i + 1, m);
      } else {
        var r := Next(m, ATTR_BASE + i, s => DecField(schema[i], s));
        if r.Got? {
          assert r.cols.Keys == m.Keys;
          AttrsCarried(schema, i + 1, r.cols);
        }
      }
    }
  }

  lemma FullCarries(delta: bool, p: Prev, schemas: Schemas, m: Columns)
    ensures var r := NextFull(delta, p, schemas, m);
            r.Got? ==> r.cols.Keys == m.Keys && Carries(r.value, schemas, m.Keys)
  {
    hide DecU, DecKey, DecRef, NextAttrs, FieldsIn, Indices;
    var r := NextFull(delta, p, schemas, m);
    if r.Got? {
      var m1 := NextU(m, STREAM).cols;
      var m2 := NextU(m1, KIND).cols;
      var m3 := NextKey(m2, ID, delta, p.id).cols;
      var m4 := NextKey(m3, TIME, delta, p.time).cols;
      var m5 := NextRef(m4, DURATION, delta).cols;
      var m6 := NextU(m5, PARENT).cols;
      assert m6.Keys == m.Keys;
      AttrsCarried(Schema(schemas, r.value.kind), 0, m6);
    }
  }

  /** Whatever record is read, no column comes or goes, and a full record carries exactly the fields
      that have a column. */
  lemma ReadCarries(tag: byte, delta: bool, p: Prev, schemas: Schemas, m: Columns)
    ensures var r := NextRec(tag, delta, p, schemas, m);
            r.Got? ==> r.cols.Keys == m.Keys && Carries(r.value, schemas, m.Keys)
  {
    hide DecU, DecKey, DecBlob, NextFull, FieldsIn, Indices;
    if tag == 1 {
      FullCarries(delta, p, schemas, m);
    }
  }
}
