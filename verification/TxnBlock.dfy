/** Transaction blocks: `TxnDataBlock` of `python/src/trlog/_txn_data.py`.  A block is written row
    by row or column by column, with or without delta coding, compressed or not, and reads back as
    the same records whichever was chosen. */
module TxnBlock {
  import opened Bytes
  import opened Bits
  import opened Varint
  import opened Fields
  import opened Lists
  import opened TxnRecords
  import opened TxnColumns

  /** What a decoded payload holds. */
  datatype Contents = Contents(start: nat, end: nat, recs: seq<Seen>)

  ghost predicate RecsOk(rs: seq<Written>, schemas: Schemas) {
    |rs| < WORD && forall i :: 0 <= i < |rs| ==> RecOk(rs[i], schemas)
  }

  // ---- Row layout ----

  ghost function EncRows(rs: seq<Written>, delta: bool, p: Prev, schemas: Schemas): bytes
    requires forall i :: 0 <= i < |rs| ==> RecOk(rs[i], schemas)
  {
    if rs == [] then []
    else assert RecOk(rs[0], schemas);
         EncRec(rs[0], delta, p, schemas) + EncRows(rs[1..], delta, Step(rs[0], delta, p), schemas)
  }

  /** `n` records; a record with an unknown tag is dropped and leaves the state alone. */
  ghost function DecRows(n: nat, s: bytes, delta: bool, p: Prev, schemas: Schemas): Parse<seq<Seen>> {
    if n == 0 then Ok([], s)
    else
      var (rec, s1) :- DecRec(s, delta, p, schemas);
      match rec
      case None => DecRows(n - 1, s1, delta, p, schemas)
      case Some(r) =>
        var (more, rest) :- DecRows(n - 1, s1, delta, Step(r, delta, p), schemas);
        Ok([r] + more, rest)
  }

  ghost function RowPayload(start: nat, end: nat, rs: seq<Written>, delta: bool, schemas: Schemas): bytes
    requires RecsOk(rs, schemas)
  {
    EncLe(8, start) + EncLe(8, end) + EncU(|rs|) + EncRows(rs, delta, Prev(0, start), schemas)
  }

  ghost function DecRowPayload(data: bytes, delta: bool, schemas: Schemas): Parse<Contents> {
    var (start, s1) :- DecLe(8, data);
    var (end, s2) :- DecLe(8, s1);
    var (n, s3) :- DecU(s2);
    var (recs, rest) :- DecRows(n, s3, delta, Prev(0, start), schemas);
    Ok(Contents(start, end, recs), rest)
  }

  lemma {:induction false} RowsRoundTrip(rs: seq<Written>, delta: bool, p: Prev, schemas: Schemas, t: bytes)
    requires PrevOk(p) && forall i :: 0 <= i < |rs| ==> RecOk(rs[i], schemas)
    ensures DecRows(|rs|, EncRows(rs, delta, p, schemas) + t, delta, p, schemas) == Ok(ShowAll(rs), t)
  {
    hide EncRec, DecRec, RecOk, Show, Step;
    if rs != [] {
      assert RecOk(rs[0], schemas);
      var p1 := Step(rs[0], delta, p);
      var tail := EncRows(rs[1..], delta, p1, schemas) + t;
      assert EncRows(rs, delta, p, schemas) + t == EncRec(rs[0], delta, p, schemas) + tail;
      RecRoundTrip(rs[0], delta, p, schemas, tail);
      AdvanceAgrees(rs[0], schemas, delta, p);
      RowsRoundTrip(rs[1..], delta, p1, schemas, t);
    }
  }

  lemma RowPayloadRoundTrip(start: nat, end: nat, rs: seq<Written>, delta: bool, schemas: Schemas)
    requires start < HALF && end < WORD && RecsOk(rs, schemas)
    ensures DecRowPayload(RowPayload(start, end, rs, delta, schemas), delta, schemas)
         == Ok(Contents(start, end, ShowAll(rs)), [])
  {
    hide EncU, DecU, EncLe, DecLe, EncRows, DecRows, Pow2, RecOk;
    Pow2Values();
    var rows := EncRows(rs, delta, Prev(0, start), schemas);
    var s2 := EncU(|rs|) + rows;
    var s1 := EncLe(8, end) + s2;
    assert RowPayload(start, end, rs, delta, schemas) == EncLe(8, start) + s1;
    LeReads(8, start, s1);
    LeReads(8, end, s2);
    URoundTrip(|rs|, rows);
    RowsRoundTrip(rs, delta, Prev(0, start), schemas, []);
    assert rows + [] == rows;
  }

  // ---- Column layout ----

  /** The columns in the order they are written out: the fixed ones, then the attribute columns. */
  const FIXED: seq<nat> := [TAG, ID, STREAM, KIND, TIME, DURATION, PARENT, LINK_TYPE, LINK_TARGET,
                            LINK_CAPTION, META_KEY, META_VAL, ATTR_DATA]

  function AttrKeys(cols: Columns): seq<nat> {
    Ascending(set c | c in cols && c >= ATTR_BASE)
  }

  /** The columns among `keys` that are there, with their ids. */
  function Listing(cols: Columns, keys: seq<nat>): seq<(nat, bytes)> {
    if keys == [] then []
    else if keys[0] in cols then [(keys[0], cols[keys[0]])] + Listing(cols, keys[1..])
    else Listing(cols, keys[1..])
  }

  function EncTable(l: seq<(nat, bytes)>): bytes {
    if l == [] then [] else EncU(l[0].0) + EncU(|l[0].1|) + l[0].1 + EncTable(l[1..])
  }

  function DecTable(n: nat, s: bytes, acc: Columns): Parse<Columns> {
    if n == 0 then Ok(acc, s)
    else
      var (id, s1) :- DecU(s);
      var (size, s2) :- DecU(s1);
      var (data, s3) :- DecSlice(size, s2);
      DecTable(n - 1, s3, acc[id := data])
  }

  ghost function AllColumns(rs: seq<Written>, delta: bool, start: nat, schemas: Schemas): Columns
    requires RecsOk(rs, schemas)
  {
    EncColumns(rs, delta, Prev(0, start), schemas)[TAG := Tags(rs)]
  }

  ghost function TableOf(rs: seq<Written>, delta: bool, start: nat, schemas: Schemas): seq<(nat, bytes)>
    requires RecsOk(rs, schemas)
  {
    var cols := AllColumns(rs, delta, start, schemas);
    Listing(cols, FIXED + AttrKeys(cols))
  }

  ghost function ColumnPayload(start: nat, end: nat, rs: seq<Written>, delta: bool, schemas: Schemas): bytes
    requires RecsOk(rs, schemas)
  {
    var l := TableOf(rs, delta, start, schemas);
    EncLe(8, start) + EncLe(8, end) + EncU(|rs|) + EncU(|l|) + EncTable(l)
  }

  /** The records, one per tag. */
  ghost function DecByTags(tags: bytes, cols: Columns, delta: bool, p: Prev, schemas: Schemas): Option<seq<Seen>> {
    if tags == [] then Some([])
    else match NextRec(tags[0], delta, p, schemas, cols)
      case Lost(_) => None
      case Got(r, cols') =>
        match DecByTags(tags[1..], cols', delta, Step(r, delta, p), schemas)
        case None => None
        case Some(more) => Some([r] + more)
  }

  ghost function DecColumnPayload(data: bytes, delta: bool, schemas: Schemas): Parse<Contents> {
    var (start, s1) :- DecLe(8, data);
    var (end, s2) :- DecLe(8, s1);
    var (n, s3) :- DecU(s2);
    var (k, s4) :- DecU(s3);
    var (cols, rest) :- DecTable(k, s4, map[]);
    if n == 0 then Ok(Contents(start, end, []), rest)
    else match DecByTags(Col(cols, TAG), cols - {TAG}, delta, Prev(0, start), schemas)
      case None => Fail(Corrupt)
      case Some(recs) => Ok(Contents(start, end, recs), rest)
  }

  /** Every length in the column layout fits its prefix. */
  ghost predicate ColumnsFit(rs: seq<Written>, delta: bool, start: nat, schemas: Schemas) {
    && RecsOk(rs, schemas)
    && (forall i :: 0 <= i < |rs| ==> BlobOk(rs[i]))
    && var l := TableOf(rs, delta, start, schemas);
       |l| < WORD && forall i :: 0 <= i < |l| ==> |l[i].1| < WORD
  }

  function ColumnsOf(attrs: seq<Attr>): set<nat> {
    set a | a in attrs :: ATTR_BASE + a.idx
  }

  /** The attribute columns that some full record of the block puts a value in. */
  function AttrColumns(rs: seq<Written>): set<nat> {
    if rs == [] then {}
    else (if rs[0].Full? then ColumnsOf(rs[0].attrs) else {}) + AttrColumns(rs[1..])
  }

  /** Every full record carries exactly those fields of its schema that some full record of the block
      carries, each once and in index order. */
  predicate Uniform(rs: seq<Written>, schemas: Schemas) {
    forall i :: 0 <= i < |rs| ==> Carries(rs[i], schemas, AttrColumns(rs))
  }

  ghost predicate SameAttrs(a: set<nat>, b: set<nat>) {
    forall c :: c >= ATTR_BASE ==> (c in a <==> c in b)
  }

  lemma {:induction false} FieldsAgree(a: set<nat>, b: set<nat>, schema: seq<FieldType>, i: nat)
    requires i <= |schema| && SameAttrs(a, b)
    ensures FieldsIn(a, schema, i) == FieldsIn(b, schema, i)
    decreases |schema| - i
  {
    if i < |schema| {
      FieldsAgree(a, b, schema, i + 1);
    }
  }

  lemma CarriesAgree<A>(r: Rec<A>, schemas: Schemas, a: set<nat>, b: set<nat>)
    requires SameAttrs(a, b)
    ensures Carries(r, schemas, a) == Carries(r, schemas, b)
  {
    if r.Full? {
      FieldsAgree(a, b, Schema(schemas, r.kind), 0);
    }
  }

  lemma {:induction false} AttrsPushed(schema: seq<FieldType>, attrs: seq<Attr>, i: nat, m: Columns)
    requires i <= |attrs| && AttrsOk(schema, attrs)
    ensures PushAttrs(schema, attrs, i, m).Keys == m.Keys + ColumnsOf(attrs[i..])
    decreases |attrs| - i
  {
    hide EncField, Fits, ColumnsOf;
    if i < |attrs| {
      assert AttrOk(schema, attrs[i]);
      AttrsPushed(schema, attrs, i + 1, m);
      assert attrs[i..] == [attrs[i]] + attrs[i + 1..];
      ColumnsOfMore(attrs[i], attrs[i + 1..]);
    } else {
      assert ColumnsOf(attrs[i..]) == {} by {
        NoColumns(attrs[i..]);
      }
    }
  }

  lemma NoColumns(attrs: seq<Attr>)
    requires attrs == []
    ensures ColumnsOf(attrs) == {}
  {
  }

  lemma ColumnsOfMore(a: Attr, rest: seq<Attr>)
    ensures ColumnsOf([a] + rest) == {ATTR_BASE + a.idx} + ColumnsOf(rest)
  {
    assert a in [a] + rest;
    assert forall b :: b in rest ==> b in [a] + rest;
  }

  lemma {:induction false} AttrsInColumns(rs: seq<Written>, delta: bool, p: Prev, schemas: Schemas)
    requires forall i :: 0 <= i < |rs| ==> RecOk(rs[i], schemas)
    ensures SameAttrs(EncColumns(rs, delta, p, schemas).Keys, AttrColumns(rs))
  {
    hide RecOk, Step, EncU, EncKey, EncRef, EncBlob, PushAttrs, AttrsOk, NotesOk, Schema, ColumnsOf;
    if rs != [] {
      var r := rs[0];
      assert RecOk(r, schemas);
      var p1 := Step(r, delta, p);
      AttrsInColumns(rs[1..], delta, p1, schemas);
      RecPushed(r, delta, p, schemas, EncColumns(rs[1..], delta, p1, schemas));
    }
  }

  lemma RecPushed(r: Written, delta: bool, p: Prev, schemas: Schemas, m: Columns)
    requires RecOk(r, schemas)
    ensures SameAttrs(PushRec(r, delta, p, schemas, m).Keys,
                      m.Keys + if r.Full? then ColumnsOf(r.attrs) else {})
  {
    hide EncU, EncKey, EncRef, EncBlob, PushAttrs, AttrsOk, NotesOk, ColumnsOf;
    if r.Full? {
      AttrsPushed(Schema(schemas, r.kind), r.attrs, 0, m);
      assert r.attrs[0..] == r.attrs;
    }
  }

  lemma {:induction false} ShownAt(rs: seq<Written>, i: nat)
    requires i < |rs|
    ensures ShowAll(rs)[i] == Show(rs[i])
  {
    if i > 0 {
      ShownAt(rs[1..], i - 1);
    }
  }

  /** Whatever columns are read, every full record read carries exactly the fields with a column. */
  lemma {:induction false} TagsCarry(tags: bytes, m: Columns, delta: bool, p: Prev, schemas: Schemas)
    ensures var r := DecByTags(tags, m, delta, p, schemas);
            r.Some? ==> forall i :: 0 <= i < |r.value| ==> Carries(r.value[i], schemas, m.Keys)
  {
    hide NextRec, Step, Carries;
    if tags != [] {
      var r := NextRec(tags[0], delta, p, schemas, m);
      ReadCarries(tags[0], delta, p, schemas, m);
      if r.Got? {
        var p1 := Step(r.value, delta, p);
        TagsCarry(tags[1..], r.cols, delta, p1, schemas);
        var whole := DecByTags(tags, m, delta, p, schemas);
        if whole.Some? {
          assert whole.value == [r.value] + DecByTags(tags[1..], r.cols, delta, p1, schemas).value;
        }
      }
    }
  }

  lemma {:induction false} TagsReads(rs: seq<Written>, delta: bool, p: Prev, schemas: Schemas, m: Columns)
    requires PrevOk(p) && forall i :: 0 <= i < |rs| ==> ColumnOk(rs[i], schemas, m.Keys) && BlobOk(rs[i])
    requires forall i :: 0 <= i < |rs| ==> RecOk(rs[i], schemas)
    requires Before(m, EncColumns(rs, delta, p, schemas))
    ensures DecByTags(Tags(rs), m, delta, p, schemas) == Some(ShowAll(rs))
  {
    hide RecOk, ColumnOk, BlobOk, Before, PushRec, NextRec, Show, Step, Tag;
    if rs != [] {
      assert ColumnOk(rs[0], schemas, m.Keys) && BlobOk(rs[0]) && RecOk(rs[0], schemas);
      var p1 := Step(rs[0], delta, p);
      var m' := RecReads(rs[0], delta, p, schemas, m, EncColumns(rs[1..], delta, p1, schemas));
      AdvanceAgrees(rs[0], schemas, delta, p);
      TagsReads(rs[1..], delta, p1, schemas, m');
      assert Tags(rs)[1..] == Tags(rs[1..]);
    }
  }

  ghost function Fill(acc: Columns, l: seq<(nat, bytes)>): Columns
    decreases |l|
  {
    if l == [] then acc else Fill(acc[l[0].0 := l[0].1], l[1..])
  }

  lemma {:induction false} TableRoundTrip(l: seq<(nat, bytes)>, acc: Columns, t: bytes)
    requires forall i :: 0 <= i < |l| ==> l[i].0 < LIMIT && |l[i].1| < WORD
    ensures DecTable(|l|, EncTable(l) + t, acc) == Ok(Fill(acc, l), t)
  {
    hide EncU, DecU;
    if l != [] {
      var tail := EncTable(l[1..]) + t;
      var data := l[0].1;
      assert EncTable(l) + t == EncU(l[0].0) + (EncU(|data|) + (data + tail));
      URoundTrip(l[0].0, EncU(|data|) + (data + tail));
      URoundTrip(|data|, data + tail);
      SliceRoundTrip(data, tail);
      TableRoundTrip(l[1..], acc[l[0].0 := data], t);
    }
  }

  ghost function Overlay(acc: Columns, cols: Columns, keys: seq<nat>): Columns {
    acc + (map c | c in keys && c in cols :: cols[c])
  }

  lemma OverlayCons(acc: Columns, cols: Columns, k: nat, rest: seq<nat>)
    ensures Overlay(if k in cols then acc[k := cols[k]] else acc, cols, rest) == Overlay(acc, cols, [k] + rest)
  {
    assert forall c :: c in [k] + rest <==> c == k || c in rest;
  }

  /** Listing some keys and filling in again restores those columns. */
  lemma {:induction false} FillListing(acc: Columns, cols: Columns, keys: seq<nat>)
    ensures Fill(acc, Listing(cols, keys)) == Overlay(acc, cols, keys)
    decreases |keys|
  {
    if keys != [] {
      var k, rest := keys[0], keys[1..];
      assert keys == [k] + rest;
      OverlayCons(acc, cols, k, rest);
      hide Overlay;
      FillListing(if k in cols then acc[k := cols[k]] else acc, cols, rest);
    }
  }

  lemma {:induction false} ListingKeys(cols: Columns, keys: seq<nat>, bound: nat)
    requires forall c :: c in cols ==> c < bound
    ensures forall i :: 0 <= i < |Listing(cols, keys)| ==> Listing(cols, keys)[i].0 < bound
  {
    if keys != [] {
      ListingKeys(cols, keys[1..], bound);
    }
  }

  /** The columns a block can have. */
  ghost predicate Known(cols: Columns) {
    forall c :: c in cols ==> 0 < c <= ATTR_DATA || ATTR_BASE <= c < ATTR_BASE + WORD
  }

  lemma {:induction false} AttrsKnown(schema: seq<FieldType>, attrs: seq<Attr>, i: nat, m: Columns)
    requires i <= |attrs| && AttrsOk(schema, attrs) && Known(m)
    ensures Known(PushAttrs(schema, attrs, i, m))
    decreases |attrs| - i
  {
    hide EncField, Fits;
    if i < |attrs| {
      assert AttrOk(schema, attrs[i]);
      AttrsKnown(schema, attrs, i + 1, m);
    }
  }

  lemma RecKnown(r: Written, delta: bool, p: Prev, schemas: Schemas, m: Columns)
    requires RecOk(r, schemas) && Known(m)
    ensures Known(PushRec(r, delta, p, schemas, m))
  {
    hide EncU, EncKey, EncRef, EncBlob, PushAttrs, AttrsOk, NotesOk;
    if r.Full? {
      AttrsKnown(Schema(schemas, r.kind), r.attrs, 0, m);
    }
  }

  lemma {:induction false} ColumnsKnown(rs: seq<Written>, delta: bool, p: Prev, schemas: Schemas)
    requires forall i :: 0 <= i < |rs| ==> RecOk(rs[i], schemas)
    ensures Known(EncColumns(rs, delta, p, schemas))
  {
    hide PushRec, Known, RecOk, Step;
    if rs != [] {
      assert RecOk(rs[0], schemas);
      var p1 := Step(rs[0], delta, p);
      ColumnsKnown(rs[1..], delta, p1, schemas);
      RecKnown(rs[0], delta, p, schemas, EncColumns(rs[1..], delta, p1, schemas));
    } else {
      NothingKnown();
    }
  }

  lemma NothingKnown()
    ensures Known(map[])
  {
  }

  /** The table lists every column there is. */
  lemma TableFills(cols: Columns)
    requires Known(cols - {TAG})
    ensures Fill(map[], Listing(cols, FIXED + AttrKeys(cols))) == cols
  {
    var keys := FIXED + AttrKeys(cols);
    FillListing(map[], cols, keys);
    forall c | c in cols
      ensures c in keys
    {
      if c <= ATTR_DATA {
        FixedHas(c);
        assert c in FIXED;
      } else {
        assert c in cols - {TAG};
        assert c in AttrKeys(cols);
      }
    }
    assert (map c | c in keys && c in cols :: cols[c]) == cols;
    assert map[] + cols == cols;
  }

  lemma FixedHas(c: nat)
    requires c <= ATTR_DATA
    ensures c in FIXED
  {
    var at := [0, 2, 3, 1, 4, 5, 6, 7, 8, 9, 10, 11, 12];
    assert FIXED[at[c]] == c;
  }

  lemma TableReads(rs: seq<Written>, delta: bool, start: nat, schemas: Schemas, t: bytes)
    requires start < HALF && ColumnsFit(rs, delta, start, schemas)
    ensures var l := TableOf(rs, delta, start, schemas);
            DecTable(|l|, EncTable(l) + t, map[]) == Ok(AllColumns(rs, delta, start, schemas), t)
  {
    hide EncTable, DecTable, Listing, EncColumns, RecOk, BlobOk;
    var cols := AllColumns(rs, delta, start, schemas);
    var plain := EncColumns(rs, delta, Prev(0, start), schemas);
    ColumnsKnown(rs, delta, Prev(0, start), schemas);
    assert (cols - {TAG}).Keys <= plain.Keys;
    TableFills(cols);
    ListingKeys(cols, FIXED + AttrKeys(cols), ATTR_BASE + WORD);
    TableRoundTrip(TableOf(rs, delta, start, schemas), map[], t);
  }

  /** By tags and columns the records come back exactly if they are uniform. */
  lemma ColumnsRoundTrip(rs: seq<Written>, delta: bool, start: nat, schemas: Schemas)
    requires start < HALF && ColumnsFit(rs, delta, start, schemas)
    ensures DecByTags(Tags(rs), AllColumns(rs, delta, start, schemas) - {TAG}, delta, Prev(0, start), schemas)
         == Some(ShowAll(rs))
       <==> Uniform(rs, schemas)
  {
    hide EncColumns, DecByTags, RecOk, BlobOk, Carries, TableOf, Tags, AttrColumns, Show, SameAttrs, ShowAll;
    var cols := AllColumns(rs, delta, start, schemas) - {TAG};
    CursorsStart(rs, delta, start, schemas);
    AttrsInColumns(rs, delta, Prev(0, start), schemas);
    SameCursors(rs, delta, start, schemas);
    TagsCarry(Tags(rs), cols, delta, Prev(0, start), schemas);
    forall i | 0 <= i < |rs|
      ensures ShowAll(rs)[i] == Show(rs[i])
      ensures Carries(rs[i], schemas, cols.Keys) == Carries(rs[i], schemas, AttrColumns(rs))
      ensures Carries(Show(rs[i]), schemas, cols.Keys) == Carries(rs[i], schemas, cols.Keys)
    {
      ShownAt(rs, i);
      ShownCarries(rs[i], schemas, cols.Keys);
      CarriesAgree(rs[i], schemas, cols.Keys, AttrColumns(rs));
    }
    if Uniform(rs, schemas) {
      assert forall i :: 0 <= i < |rs| ==> ColumnOk(rs[i], schemas, cols.Keys);
      TagsReads(rs, delta, Prev(0, start), schemas, cols);
    }
  }

  lemma ShownCarries(r: Written, schemas: Schemas, cols: set<nat>)
    ensures Carries(Show(r), schemas, cols) == Carries(r, schemas, cols)
  {
  }

  lemma SameCursors(rs: seq<Written>, delta: bool, start: nat, schemas: Schemas)
    requires RecsOk(rs, schemas) && SameAttrs(EncColumns(rs, delta, Prev(0, start), schemas).Keys, AttrColumns(rs))
    ensures SameAttrs((AllColumns(rs, delta, start, schemas) - {TAG}).Keys, AttrColumns(rs))
  {
    hide EncColumns, RecOk, AttrColumns, Tags;
  }

  /** Column layout gives the same records back exactly if every full record carries the same fields
      of its schema as the others; with that the cursors of all columns stay in step. */
  lemma ColumnPayloadRoundTrip(start: nat, end: nat, rs: seq<Written>, delta: bool, schemas: Schemas)
    requires start < HALF && end < WORD && ColumnsFit(rs, delta, start, schemas)
    ensures DecColumnPayload(ColumnPayload(start, end, rs, delta, schemas), delta, schemas)
         == Ok(Contents(start, end, ShowAll(rs)), [])
       <==> Uniform(rs, schemas)
  {
    hide EncU, DecU, EncLe, DecLe, EncTable, DecTable, Listing, EncColumns, DecByTags, Pow2, RecOk, BlobOk, Carries,
      AttrColumns;
    Pow2Values();
    var l := TableOf(rs, delta, start, schemas);
    var s3 := EncU(|l|) + EncTable(l);
    var s2 := EncU(|rs|) + s3;
    var s1 := EncLe(8, end) + s2;
    assert ColumnPayload(start, end, rs, delta, schemas) == EncLe(8, start) + s1;
    LeReads(8, start, s1);
    LeReads(8, end, s2);
    URoundTrip(|rs|, s3);
    URoundTrip(|l|, EncTable(l));
    TableReads(rs, delta, start, schemas, []);
    assert EncTable(l) + [] == EncTable(l);
    CursorsStart(rs, delta, start, schemas);
    ColumnsRoundTrip(rs, delta, start, schemas);
  }

  /** Full records with all the fields of their schemas are uniform. */
  lemma CompleteIsUniform(rs: seq<Written>, schemas: Schemas)
    requires forall i :: 0 <= i < |rs| && rs[i].Full? ==> Complete(Schema(schemas, rs[i].kind), rs[i].attrs)
    ensures Uniform(rs, schemas)
  {
    hide AttrColumns;
    forall i | 0 <= i < |rs|
      ensures Carries(rs[i], schemas, AttrColumns(rs))
    {
      if rs[i].Full? {
        var schema, attrs := Schema(schemas, rs[i].kind), rs[i].attrs;
        HasColumns(rs, i);
        forall k | 0 <= k < |schema|
          ensures Present(AttrColumns(rs), k)
        {
          assert attrs[k] in attrs;
        }
        EveryField(AttrColumns(rs), schema, attrs, 0);
        assert attrs[0..] == attrs;
      }
    }
  }

  predicate Present(cols: set<nat>, field: nat) {
    ATTR_BASE + field in cols
  }

  predicate Complete(schema: seq<FieldType>, attrs: seq<Attr>) {
    |attrs| == |schema| && forall i :: 0 <= i < |attrs| ==> attrs[i].idx == i
  }

  lemma {:induction false} HasColumns(rs: seq<Written>, i: nat)
    requires i < |rs| && rs[i].Full?
    ensures forall a :: a in rs[i].attrs ==> ATTR_BASE + a.idx in AttrColumns(rs)
  {
    if i > 0 {
      HasColumns(rs[1..], i - 1);
    }
  }

  lemma {:induction false} EveryField(cols: set<nat>, schema: seq<FieldType>, attrs: seq<Attr>, i: nat)
    requires Complete(schema, attrs) && i <= |schema|
    requires forall k :: 0 <= k < |schema| ==> Present(cols, k)
    ensures Indices(attrs[i..]) == FieldsIn(cols, schema, i)
    decreases |schema| - i
  {
    if i < |schema| {
      assert Present(cols, i);
      EveryField(cols, schema, attrs, i + 1);
      assert attrs[i..][1..] == attrs[i + 1..];
    }
  }

  lemma CursorsStart(rs: seq<Written>, delta: bool, start: nat, schemas: Schemas)
    requires RecsOk(rs, schemas)
    ensures var cols := AllColumns(rs, delta, start, schemas);
            Col(cols, TAG) == Tags(rs) &&
            Before(cols - {TAG}, EncColumns(rs, delta, Prev(0, start), schemas))
  {
    hide EncColumns, Tags, RecOk;
    ColumnsKnown(rs, delta, Prev(0, start), schemas);
  }

  // ---- Blocks ----

  datatype Layout = Row | Column | Auto | Adaptive

  /** The flag bits a transaction block carries. */
  datatype Flags = Flags(compressed: bool, alternate: bool, delta: bool, column: bool)

  datatype Codecs = Codecs(zlib: Compressor, zstd: Compressor)

  ghost function Plain(column: bool, start: nat, end: nat, rs: seq<Written>, delta: bool, schemas: Schemas): bytes
    requires RecsOk(rs, schemas)
  {
    if column then ColumnPayload(start, end, rs, delta, schemas) else RowPayload(start, end, rs, delta, schemas)
  }

  ghost function DecPlain(data: bytes, flags: Flags, schemas: Schemas): Parse<Contents> {
    if flags.column then DecColumnPayload(data, flags.delta, schemas) else DecRowPayload(data, flags.delta, schemas)
  }

  /** `read_block`, apart from the fields it sets. */
  ghost function DecBlock(payload: bytes, flags: Flags, schemas: Schemas, codecs: Codecs): Parse<Contents> {
    if !flags.compressed then DecPlain(payload, flags, schemas)
    else match (if flags.alternate then codecs.zstd else codecs.zlib).unpack(payload)
      case None => Fail(Corrupt)
      case Some(data) => DecPlain(data, flags, schemas)
  }

  /** The block that a choice of layout and compression gives. */
  ghost predicate Encodes(flags: Flags, payload: bytes, start: nat, end: nat, rs: seq<Written>, schemas: Schemas,
                          codecs: Codecs)
    requires RecsOk(rs, schemas)
  {
    var data := Plain(flags.column, start, end, rs, flags.delta, schemas);
    payload == if !flags.compressed then data
               else (if flags.alternate then codecs.zstd else codecs.zlib).pack(data)
  }

  /** Whatever layout, coding and compression the writer picks, the reader gets the same records; in
      column layout, exactly if they are uniform. */
  lemma LayoutIndependence(flags: Flags, payload: bytes, start: nat, end: nat, rs: seq<Written>, schemas: Schemas,
                           codecs: Codecs)
    requires start < HALF && end < WORD && RecsOk(rs, schemas) && Lossless(codecs.zlib) && Lossless(codecs.zstd)
    requires flags.column ==> ColumnsFit(rs, flags.delta, start, schemas)
    requires Encodes(flags, payload, start, end, rs, schemas, codecs)
    ensures DecBlock(payload, flags, schemas, codecs) == Ok(Contents(start, end, ShowAll(rs)), [])
       <==> (flags.column ==> Uniform(rs, schemas))
  {
    hide ColumnPayload, RowPayload, DecColumnPayload, DecRowPayload, RecsOk, ColumnsFit, Uniform;
    if flags.column {
      ColumnPayloadRoundTrip(start, end, rs, flags.delta, schemas);
    } else {
      RowPayloadRoundTrip(start, end, rs, flags.delta, schemas);
    }
  }

  /** What goes wrong otherwise: a TR_FULL without a field adds nothing to that field's column, but its
      reader takes the next record's value out of it. */
  lemma IncompleteFullMixesUp(schema: seq<FieldType>, b: byte, later: bytes)
    requires schema == [U8]
    ensures var m := map[ATTR_BASE := [b] + later];
            PushAttrs(schema, [], 0, m) == m &&
            NextAttrs(schema, 0, m) == Got([Attr(0, IntV(b))], map[ATTR_BASE := later])
  {
    var m: Columns := map[ATTR_BASE := [b] + later];
    assert Pow2(8) == 256 && EncLe(1, b) == [b];
    LeReads(1, b, later);
    assert DecField(schema[0], m[ATTR_BASE]) == Ok(IntV(b), later);
    assert m[ATTR_BASE := later] == map[ATTR_BASE := later];
    assert Next(m, ATTR_BASE + 0, s => DecField(schema[0], s)) == Got(IntV(b), m[ATTR_BASE := later]);
    assert NextAttrs(schema, 1, m[ATTR_BASE := later]) == Got([], m[ATTR_BASE := later]);
    assert [Attr(0, IntV(b))] + [] == [Attr(0, IntV(b))];
  }

  // ---- The block object ----

  function FixedWidth(ft: FieldType): bool {
    ft !in {Str, BitVec, Blob}
  }

  /** The schema test behind the automatic layout choice: enough records, and no full or begun
      transaction whose schema has a field of varying width. */
  predicate PrefersColumns(rs: seq<Written>, schemas: Schemas) {
    |rs| >= 32 && forall i :: 0 <= i < |rs| ==> RecPrefersColumns(rs[i], schemas)
  }

  predicate RecPrefersColumns(r: Written, schemas: Schemas) {
    r.Full? || r.Begin? ==> forall ft :: ft in Schema(schemas, r.kind) ==> FixedWidth(ft)
  }

  class TxnDataBlock {
    var start: nat
    var end: nat
    var records: seq<Written>
    var schemas: Schemas
    const layout: Layout
    const compress: bool
    const useZstd: bool
    var delta: bool

    constructor (start: nat, compress: bool, useZstd: bool, layout: Layout)
      ensures this.start == start && end == start && records == [] && schemas == map[] && delta
      ensures this.layout == layout && this.compress == compress && this.useZstd == useZstd
    {
      this.start, end, records, schemas, delta := start, start, [], map[], true;
      this.layout, this.compress, this.useZstd := layout, compress, useZstd;
    }

    method SetSchema(kind: nat, fields: seq<FieldType>)
      modifies `schemas
      ensures schemas == old(schemas)[kind := fields]
    {
      schemas := schemas[kind := fields];
    }

    /** The six builder calls append one record each; full and ended transactions also move the end
        of the block. */
    method Write(r: Written)
      modifies `records, `end
      ensures records == old(records) + [r]
      ensures end == if (r.Full? || r.End?) && r.end > old(end) then r.end else old(end)
    {
      if (r.Full? || r.End?) && r.end > end {
        end := r.end;
      }
      records := records + [r];
    }

    method EncodePayload() returns (out: bytes)
      requires RecsOk(records, schemas)
      ensures out == RowPayload(start, end, records, delta, schemas)
    {
      hide EncRec, RecOk, Step, EncU, EncLe;
      out := EncLe(8, start) + EncLe(8, end) + EncU(|records|);
      ghost var head := out;
      var p := Prev(0, start);
      ghost var p0 := p;
      assert records[0..] == records;
      for i := 0 to |records|
        invariant head + EncRows(records, delta, p0, schemas) == out + EncRows(records[i..], delta, p, schemas)
      {
        assert RecOk(records[i], schemas);
        assert records[i..][0] == records[i] && records[i..][1..] == records[i + 1..];
        var row := EncRec(records[i], delta, p, schemas);
        ghost var before := out;
        out := out + row;
        p := Step(records[i], delta, p);
        assert before + (row + EncRows(records[i + 1..], delta, p, schemas))
            == out + EncRows(records[i + 1..], delta, p, schemas);
      }
      assert out + [] == out;
    }

    /** One record's fields, each appended to its column; `w` stands for the columns of the records
        still to come. */
    method AppendRec(cols: Columns, r: Written, p: Prev, ghost w: Columns) returns (out: Columns)
      requires RecOk(r, schemas)
      ensures Join(out, w) == Join(cols, PushRec(r, delta, p, schemas, w))
    {
      hide EncU, EncKey, EncRef, EncBlob, Push, Append, Join, RecOk, Schema;
      KeysOk(r, schemas);
      var key := EncKey(delta, p.id, r.id);
      match r
      case Full(stream, kind, id, start, end, parent, attrs) =>
        assert RecOk(r, schemas);
        assert AttrsOk(Schema(schemas, kind), attrs) && start <= end by {
          FullOk(r, schemas);
        }
        ghost var w6 := PushAttrs(Schema(schemas, kind), attrs, 0, w);
        ghost var w5 := Push(PARENT, EncU(parent), w6);
        ghost var w4 := Push(DURATION, EncRef(delta, end - start), w5);
        out := AppendHead(cols, stream, kind, key, EncKey(delta, p.time, start), w4);
        out := AppendField(out, DURATION, EncRef(delta, end - start), w5);
        out := AppendField(out, PARENT, EncU(parent), w6);
        out := AppendAttrs(out, Schema(schemas, kind), attrs, w);
      case Begin(stream, kind, id, start, parent) =>
        out := AppendHead(cols, stream, kind, key, EncKey(delta, p.time, start), Push(PARENT, EncU(parent), w));
        out := AppendField(out, PARENT, EncU(parent), w);
      case Note(id, notes) =>
        assert NotesOk(notes) by {
          NoteOk(r, schemas);
        }
        out := AppendField(cols, ID, key, Push(ATTR_DATA, EncBlob(notes), w));
        out := AppendField(out, ATTR_DATA, EncBlob(notes), w);
      case End(id, end) =>
        out := AppendField(cols, ID, key, Push(TIME, EncKey(delta, p.time, end), w));
        out := AppendField(out, TIME, EncKey(delta, p.time, end), w);
      case Link(link, id, target, caption) =>
        assert link < 256 by {
          LinkInByte(r, schemas);
        }
        ghost var w3 := Push(LINK_CAPTION, EncU(caption), w);
        ghost var w2 := Push(LINK_TARGET, EncU(target), w3);
        out := AppendField(cols, LINK_TYPE, [link], Push(ID, key, w2));
        out := AppendField(out, ID, key, w2);
        out := AppendField(out, LINK_TARGET, EncU(target), w3);
        out := AppendField(out, LINK_CAPTION, EncU(caption), w);
      case Meta(id, k, v) =>
        ghost var w2 := Push(META_VAL, EncU(v), w);
        out := AppendField(cols, ID, key, Push(META_KEY, EncU(k), w2));
        out := AppendField(out, META_KEY, EncU(k), w2);
        out := AppendField(out, META_VAL, EncU(v), w);
    }

    static method AppendField(cols: Columns, c: nat, b: bytes, ghost w: Columns) returns (out: Columns)
      ensures Join(out, w) == Join(cols, Push(c, b, w))
    {
      JoinAppend(cols, c, b, w);
      out := Append(cols, c, b);
    }

    /** The four fields that full and begun transactions share. */
    static method AppendHead(cols: Columns, stream: nat, kind: nat, id: bytes, time: bytes, ghost w: Columns)
      returns (out: Columns)
      ensures Join(out, w) == Join(cols, Push(STREAM, EncU(stream), Push(KIND, EncU(kind), Push(ID, id, Push(TIME, time, w)))))
    {
      hide Push, Append, Join, EncU;
      ghost var w3 := Push(TIME, time, w);
      ghost var w2 := Push(ID, id, w3);
      out := AppendField(cols, STREAM, EncU(stream), Push(KIND, EncU(kind), w2));
      out := AppendField(out, KIND, EncU(kind), w2);
      out := AppendField(out, ID, id, w3);
      out := AppendField(out, TIME, time, w);
    }

    static method AppendAttrs(cols: Columns, schema: seq<FieldType>, attrs: seq<Attr>, ghost w: Columns)
      returns (out: Columns)
      requires AttrsOk(schema, attrs)
      ensures Join(out, w) == Join(cols, PushAttrs(schema, attrs, 0, w))
    {
      hide EncField, Fits, Push, Append, Join;
      out := cols;
      for i := 0 to |attrs|
        invariant Join(out, PushAttrs(schema, attrs, i, w)) == Join(cols, PushAttrs(schema, attrs, 0, w))
      {
        assert AttrOk(schema, attrs[i]);
        out := AppendField(out, ATTR_BASE + attrs[i].idx, EncField(FieldTypeAt(schema, attrs[i].idx), attrs[i].value),
                           PushAttrs(schema, attrs, i + 1, w));
      }
    }

    method EncodePayloadColumn() returns (out: bytes)
      requires RecsOk(records, schemas)
      ensures out == ColumnPayload(start, end, records, delta, schemas)
    {
      hide PushRec, RecOk, Step, Tag, Join, EncU, EncLe, Listing, AttrKeys;
      var cols: Columns, tags: bytes, p := map[], [], Prev(0, start);
      ghost var p0 := p;
      ghost var whole := EncColumns(records, delta, p0, schemas);
      assert records[0..] == records;
      NothingJoins(whole);
      for i := 0 to |records|
        invariant tags + Tags(records[i..]) == Tags(records)
        invariant Join(cols, EncColumns(records[i..], delta, p, schemas)) == whole
      {
        assert RecOk(records[i], schemas);
        assert records[i..][0] == records[i] && records[i..][1..] == records[i + 1..];
        ghost var before := tags;
        tags := tags + [Tag(records[i])];
        assert before + ([Tag(records[i])] + Tags(records[i + 1..])) == tags + Tags(records[i + 1..]);
        ghost var w := EncColumns(records[i + 1..], delta, Step(records[i], delta, p), schemas);
        cols := AppendRec(cols, records[i], p, w);
        p := Step(records[i], delta, p);
      }
      NothingJoins(cols);
      assert tags + [] == tags;
      var all := cols[TAG := tags];
      var l := Listing(all, FIXED + AttrKeys(all));
      out := EncLe(8, start) + EncLe(8, end) + EncU(|records|) + EncU(|l|);
      ghost var head := out;
      assert l[0..] == l;
      for i := 0 to |l|
        invariant out + EncTable(l[i..]) == head + EncTable(l)
      {
        out := AppendColumn(out, l, i);
      }
      assert out + [] == out;
    }

    static method AppendColumn(buf: bytes, l: seq<(nat, bytes)>, i: nat) returns (out: bytes)
      requires i < |l|
      ensures out + EncTable(l[i + 1..]) == buf + EncTable(l[i..])
    {
      hide EncU;
      var tail := EncTable(l[i + 1..]);
      assert l[i..][0] == l[i] && l[i..][1..] == l[i + 1..];
      var item := EncU(l[i].0) + EncU(|l[i].1|) + l[i].1;
      out := buf + item;
      assert out + tail == buf + (item + tail);
    }

    static lemma KeysOk(r: Written, schemas: Schemas)
      requires RecOk(r, schemas)
      ensures r.id >= 0 && (r.Full? || r.Begin? ==> r.start >= 0) && (r.Full? || r.End? ==> r.end >= 0)
    {
    }

    static lemma FullOk(r: Written, schemas: Schemas)
      requires r.Full? && RecOk(r, schemas)
      ensures AttrsOk(Schema(schemas, r.kind), r.attrs) && r.start <= r.end
    {
    }

    static lemma NoteOk(r: Written, schemas: Schemas)
      requires r.Note? && RecOk(r, schemas)
      ensures NotesOk(r.notes)
    {
    }

    static lemma LinkInByte(r: Written, schemas: Schemas)
      requires r.Link? && RecOk(r, schemas)
      ensures r.link < 256
    {
    }

    static lemma NothingJoins(m: Columns)
      ensures Join(map[], m) == m && Join(m, map[]) == m
    {
      assert forall c :: c in m ==> [] + m[c] == m[c] && m[c] + [] == m[c];
    }

    method ShouldUseColumn() returns (yes: bool)
      ensures yes == PrefersColumns(records, schemas)
    {
      if |records| < 32 {
        return false;
      }
      for i := 0 to |records|
        invariant forall j :: 0 <= j < i ==> RecPrefersColumns(records[j], schemas)
      {
        var r := records[i];
        if r.Full? || r.Begin? {
          var schema := Schema(schemas, r.kind);
          for k := 0 to |schema|
            invariant forall j :: 0 <= j < k ==> FixedWidth(schema[j])
          {
            if !FixedWidth(schema[k]) {
              assert schema[k] in schema && !RecPrefersColumns(records[i], schemas);
              return false;
            }
          }
        }
      }
      return true;
    }

    /** Lays the block out, and packs it if asked to.  "adaptive" tries both layouts and keeps the one
        that packs smaller. */
    method EncodeBlock(codecs: Codecs) returns (flags: Flags, payload: bytes)
      requires RecsOk(records, schemas)
      ensures Encodes(flags, payload, start, end, records, schemas, codecs)
      ensures flags.delta == delta && flags.compressed == compress && flags.alternate == (compress && useZstd)
      ensures layout.Row? ==> !flags.column
      ensures layout.Column? ==> flags.column
      ensures layout.Auto? ==> flags.column == PrefersColumns(records, schemas)
    {
      hide RowPayload, ColumnPayload, PrefersColumns, RecsOk;
      var codec := if useZstd then codecs.zstd else codecs.zlib;
      var column := layout.Column?;
      if layout.Adaptive? {
        var rows := EncodePayload();
        var columns := EncodePayloadColumn();
        column := |codec.pack(columns)| < |codec.pack(rows)|;
        payload := if column then columns else rows;
      } else {
        if layout.Auto? {
          column := ShouldUseColumn();
        }
        if column {
          payload := EncodePayloadColumn();
        } else {
          payload := EncodePayload();
        }
      }
      if compress {
        payload := codec.pack(payload);
      }
      flags := Flags(compress, compress && useZstd, delta, column);
    }

    method DecodePayload(data: bytes, delta: bool) returns (r: Parse<Contents>)
      modifies `start, `end
      ensures r == DecRowPayload(data, delta, schemas)
      ensures r.Ok? ==> start == r.value.start && end == r.value.end
    {
      hide DecRec, DecLe, DecU, Step;
      var first := DecLe(8, data);
      if first.Fail? {
        return Fail(first.fault);
      }
      var second := DecLe(8, first.rest);
      if second.Fail? {
        return Fail(second.fault);
      }
      start, end := first.value, second.value;
      var count := DecU(second.rest);
      if count.Fail? {
        return Fail(count.fault);
      }
      var rest, recs: seq<Seen>, p := count.rest, [], Prev(0, start);
      ghost var p0 := p;
      AfterNone(DecRows(count.value, rest, delta, p, schemas));
      for i := 0 to count.value
        invariant DecRows(count.value, count.rest, delta, p0, schemas)
               == After(recs, DecRows(count.value - i, rest, delta, p, schemas))
        invariant start == first.value && end == second.value
      {
        var next := DecRec(rest, delta, p, schemas);
        if next.Fail? {
          return Fail(next.fault);
        }
        rest := next.rest;
        if next.value.Some? {
          var rec := next.value.value;
          AfterOne(recs, rec, DecRows(count.value - i - 1, rest, delta, Step(rec, delta, p), schemas));
          recs := recs + [rec];
          p := Step(rec, delta, p);
        }
      }
      assert recs + [] == recs;
      r := Ok(Contents(start, end, recs), rest);
    }

    /** Records already read, in front of the outcome for the rest. */
    static ghost function After(recs: seq<Seen>, r: Parse<seq<Seen>>): Parse<seq<Seen>> {
      match r
      case Ok(more, rest) => Ok(recs + more, rest)
      case Fail(f) => Fail(f)
    }

    static lemma AfterNone(r: Parse<seq<Seen>>)
      ensures After([], r) == r
    {
      if r.Ok? {
        assert [] + r.value == r.value;
      }
    }

    static lemma AfterOne(recs: seq<Seen>, rec: Seen, r: Parse<seq<Seen>>)
      ensures r.Ok? ==> After(recs, Ok([rec] + r.value, r.rest)) == After(recs + [rec], r)
    {
      if r.Ok? {
        assert recs + ([rec] + r.value) == (recs + [rec]) + r.value;
      }
    }

    method DecodePayloadColumn(data: bytes, delta: bool) returns (r: Parse<Contents>)
      modifies `start, `end
      ensures r == DecColumnPayload(data, delta, schemas)
      ensures r.Ok? ==> start == r.value.start && end == r.value.end
    {
      hide NextRec, DecLe, DecU, DecTable, DecByTags, Step;
      var first := DecLe(8, data);
      if first.Fail? {
        return Fail(first.fault);
      }
      var second := DecLe(8, first.rest);
      if second.Fail? {
        return Fail(second.fault);
      }
      start, end := first.value, second.value;
      var count := DecU(second.rest);
      if count.Fail? {
        return Fail(count.fault);
      }
      var width := DecU(count.rest);
      if width.Fail? {
        return Fail(width.fault);
      }
      var table := DecTable(width.value, width.rest, map[]);
      if table.Fail? {
        return Fail(table.fault);
      }
      if count.value == 0 {
        return Ok(Contents(start, end, []), table.rest);
      }
      var recs := ReadTags(Col(table.value, TAG), table.value - {TAG}, delta, Prev(0, start));
      if recs.None? {
        return Fail(Corrupt);
      }
      r := Ok(Contents(start, end, recs.value), table.rest);
    }

    method ReadTags(tags: bytes, columns: Columns, delta: bool, first: Prev) returns (r: Option<seq<Seen>>)
      ensures r == DecByTags(tags, columns, delta, first, schemas)
    {
      hide NextRec, Step;
      var recs: seq<Seen>, cols, p := [], columns, first;
      ghost var whole := DecByTags(tags, columns, delta, first, schemas);
      assert tags[0..] == tags && (whole.Some? ==> [] + whole.value == whole.value);
      for i := 0 to |tags|
        invariant match DecByTags(tags[i..], cols, delta, p, schemas)
                  case None => whole == None
                  case Some(more) => whole == Some(recs + more)
      {
        assert tags[i..][0] == tags[i] && tags[i..][1..] == tags[i + 1..];
        var next := NextRec(tags[i], delta, p, schemas, cols);
        if next.Lost? {
          return None;
        }
        ghost var later := DecByTags(tags[i + 1..], next.cols, delta, Step(next.value, delta, p), schemas);
        assert DecByTags(tags[i..], cols, delta, p, schemas)
            == if later.None? then None else Some([next.value] + later.value);
        if later.Some? {
          assert recs + ([next.value] + later.value) == (recs + [next.value]) + later.value;
        }
        recs, cols, p := recs + [next.value], next.cols, Step(next.value, delta, p);
      }
      assert recs + [] == recs;
      r := Some(recs);
    }

    /** `read_block`: whatever the flags say was done is undone. */
    method ReadBlock(payload: bytes, flags: Flags, schemas': Schemas, codecs: Codecs) returns (r: Parse<Contents>)
      modifies `start, `end, `schemas
      ensures schemas == schemas'
      ensures r == DecBlock(payload, flags, schemas', codecs)
    {
      hide DecRowPayload, DecColumnPayload;
      schemas := schemas';
      var data := payload;
      if flags.compressed {
        var unpacked := (if flags.alternate then codecs.zstd else codecs.zlib).unpack(payload);
        if unpacked.None? {
          return Fail(Corrupt);
        }
        data := unpacked.value;
      }
      if flags.column {
        r := DecodePayloadColumn(data, flags.delta);
      } else {
        r := DecodePayload(data, flags.delta);
      }
    }
  }
}
