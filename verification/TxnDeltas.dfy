/** What delta coding is relative to: the running state of encoders and readers, told by the list of records
    before, and the documented bytes of a row. */
module TxnDeltas {
  import opened Bytes
  import opened Varint
  import opened Fields
  import opened Lists
  import opened TxnRecords
  import opened TxnColumns
  import opened TxnBlock

  /** The time a record leaves behind: its end, or its start if it has only begun. */
  function LeftAt<A>(r: Rec<A>): Option<int> {
    match r
    case Full(_, _, _, _, end, _, _) => Some(end)
    case Begin(_, _, _, start, _) => Some(start)
    case End(_, end) => Some(end)
    case _ => None
  }

  /** The time of the latest record that has one; at first the start of the block. */
  function LastTime<A>(past: seq<Rec<A>>, start: int): int {
    if past == [] then start
    else match LeftAt(past[|past| - 1])
      case Some(t) => t
      case None => LastTime(past[..|past| - 1], start)
  }

  /** The id of the record before, 0 at first. */
  function LastId<A>(past: seq<Rec<A>>): int {
    if past == [] then 0 else past[|past| - 1].id
  }

  function StateAfter<A>(past: seq<Rec<A>>, start: int, delta: bool): Prev {
    if delta then Prev(LastId(past), LastTime(past, start)) else Prev(0, start)
  }

  lemma OneMore<A>(past: seq<Rec<A>>, r: Rec<A>, start: int, delta: bool)
    ensures Step(r, delta, StateAfter(past, start, delta)) == StateAfter(past + [r], start, delta)
  {
    var all := past + [r];
    assert all[..|all| - 1] == past && all[|all| - 1] == r;
  }

  lemma Reslice<A>(rs: seq<A>, i: nat)
    requires i < |rs|
    ensures rs[..i] + [rs[i]] == rs[..i + 1] && rs[i..][0] == rs[i] && rs[i..][1..] == rs[i + 1..]
  {
  }

  // ---- Rows ----

  /** An id or a time: relative to what came before, or eight bytes. */
  function Relative(delta: bool, last: int, n: nat): bytes {
    if delta then EncS(n - last) else EncLe(8, n)
  }

  /** A number that is never relative: a varint in delta coding, else eight bytes. */
  function Plain(delta: bool, n: nat): bytes {
    if delta then EncU(n) else EncLe(8, n)
  }

  /** A row as the format description lists it: in delta coding ids and times are relative to what came
      before and an end is a duration. */
  function DocumentedRow(r: Written, delta: bool, lastId: int, lastTime: int, schemas: Schemas): bytes
    requires RecOk(r, schemas)
  {
    match r
    case Full(stream, kind, id, start, end, parent, attrs) =>
      [0x01] + (EncU(stream) + EncU(kind) + Relative(delta, lastId, id) + Relative(delta, lastTime, start)
                + Plain(delta, if delta then end - start else end) + Plain(delta, parent) + EncAttrs(Schema(schemas, kind), attrs))
    case Begin(stream, kind, id, start, parent) =>
      [0x02] + (EncU(stream) + EncU(kind) + Relative(delta, lastId, id) + Relative(delta, lastTime, start) + Plain(delta, parent))
    case Note(id, notes) => [0x03] + (Relative(delta, lastId, id) + EncNotes(notes))
    case End(id, end) => [0x04] + (Relative(delta, lastId, id) + Relative(delta, lastTime, end))
    case Link(link, id, target, caption) => [0x05] + ([link] + Relative(delta, lastId, id) + Plain(delta, target) + EncU(caption))
    case Meta(id, key, val) => [0x06] + (Relative(delta, lastId, id) + EncU(key) + EncU(val))
  }

  /** The rows of records `i` on, each told by the records before it. */
  ghost function DocumentedRows(rs: seq<Written>, i: nat, start: nat, delta: bool, schemas: Schemas): bytes
    requires i <= |rs| && RecsOk(rs, schemas)
    decreases |rs| - i
  {
    if i == |rs| then []
    else assert RecOk(rs[i], schemas);
         DocumentedRow(rs[i], delta, LastId(rs[..i]), LastTime(rs[..i], start), schemas)
         + DocumentedRows(rs, i + 1, start, delta, schemas)
  }

  lemma RowIsDocumented(r: Written, past: seq<Written>, start: nat, delta: bool, schemas: Schemas)
    requires RecOk(r, schemas)
    ensures EncRec(r, delta, StateAfter(past, start, delta), schemas)
         == DocumentedRow(r, delta, LastId(past), LastTime(past, start), schemas)
  {
    hide EncU, EncS, EncLe, EncAttrs, EncNotes, LastId, LastTime;
  }

  /** The rows of a block are the documented ones, relative to the id of the record before and to the time of
      the latest record that has one. */
  lemma {:induction false} RowsAreDocumented(rs: seq<Written>, i: nat, start: nat, delta: bool, schemas: Schemas)
    requires i <= |rs| && RecsOk(rs, schemas)
    ensures EncRows(rs[i..], delta, StateAfter(rs[..i], start, delta), schemas) == DocumentedRows(rs, i, start, delta, schemas)
    decreases |rs| - i
  {
    hide EncRec, DocumentedRow, RecOk, StateAfter, LastId, LastTime, Step;
    if i < |rs| {
      Reslice(rs, i);
      assert RecOk(rs[i], schemas);
      RowIsDocumented(rs[i], rs[..i], start, delta, schemas);
      OneMore(rs[..i], rs[i], start, delta);
      RowsAreDocumented(rs, i + 1, start, delta, schemas);
    }
  }

  /** A whole row payload. */
  lemma PayloadIsDocumented(start: nat, end: nat, rs: seq<Written>, delta: bool, schemas: Schemas)
    requires RecsOk(rs, schemas)
    ensures RowPayload(start, end, rs, delta, schemas)
         == EncLe(8, start) + EncLe(8, end) + EncU(|rs|) + DocumentedRows(rs, 0, start, delta, schemas)
  {
    hide EncU, EncLe, EncRows, DocumentedRows, RecOk;
    assert rs[..0] == [] && rs[0..] == rs;
    RowsAreDocumented(rs, 0, start, delta, schemas);
  }

  /** The reader's rows, each read relative to the records read before it. */
  ghost function ReadDeltas(n: nat, s: bytes, past: seq<Seen>, start: int, delta: bool, schemas: Schemas): Parse<seq<Seen>> {
    if n == 0 then Ok([], s)
    else
      var (rec, s1) :- DecRec(s, delta, StateAfter(past, start, delta), schemas);
      match rec
      case None => ReadDeltas(n - 1, s1, past, start, delta, schemas)
      case Some(r) =>
        var (more, rest) :- ReadDeltas(n - 1, s1, past + [r], start, delta, schemas);
        Ok([r] + more, rest)
  }

  lemma {:induction false} RowsReadDeltas(n: nat, s: bytes, past: seq<Seen>, start: int, delta: bool, schemas: Schemas)
    ensures DecRows(n, s, delta, StateAfter(past, start, delta), schemas) == ReadDeltas(n, s, past, start, delta, schemas)
    decreases n
  {
    hide DecRec, Step, StateAfter;
    if n > 0 {
      match DecRec(s, delta, StateAfter(past, start, delta), schemas) {
        case Fail(_) =>
        case Ok(rec, s1) =>
          match rec {
            case None => RowsReadDeltas(n - 1, s1, past, start, delta, schemas);
            case Some(r) =>
              OneMore(past, r, start, delta);
              RowsReadDeltas(n - 1, s1, past + [r], start, delta, schemas);
          }
      }
    }
  }

  // ---- Columns ----

  /** An attribute, if it is of this field. */
  function FieldValue(schema: seq<FieldType>, a: Attr, idx: nat): bytes
    requires AttrOk(schema, a)
  {
    if a.idx == idx then EncField(FieldTypeAt(schema, idx), a.value) else []
  }

  /** The values of one field of a full record, from attribute `i` on. */
  function FieldValues(schema: seq<FieldType>, attrs: seq<Attr>, i: nat, idx: nat): bytes
    requires i <= |attrs| && AttrsOk(schema, attrs)
    decreases |attrs| - i
  {
    if i == |attrs| then []
    else
      assert AttrOk(schema, attrs[i]);
      FieldValue(schema, attrs[i], idx) + FieldValues(schema, attrs, i + 1, idx)
  }

  /** What a record puts into a column, by the numbers of the format description. */
  function Cell(r: Written, c: nat, delta: bool, lastId: int, lastTime: int, schemas: Schemas): bytes
    requires RecOk(r, schemas)
  {
    if c == 3 then Relative(delta, lastId, r.id)
    else
      match r
      case Full(stream, kind, _, start, end, parent, attrs) =>
        if c == 1 then EncU(stream)
        else if c == 2 then EncU(kind)
        else if c == 4 then Relative(delta, lastTime, start)
        else if c == 5 then (if delta then EncU(end - start) else EncLe(8, end - start))
        else if c == 6 then EncU(parent)
        else if c >= 128 then FieldValues(Schema(schemas, kind), attrs, 0, c - 128)
        else []
      case Begin(stream, kind, _, start, parent) =>
        if c == 1 then EncU(stream)
        else if c == 2 then EncU(kind)
        else if c == 4 then Relative(delta, lastTime, start)
        else if c == 6 then EncU(parent)
        else []
      case Note(_, notes) => if c == 12 then EncU(|EncNotes(notes)|) + EncNotes(notes) else []
      case End(_, end) => if c == 4 then Relative(delta, lastTime, end) else []
      case Link(link, _, target, caption) =>
        if c == 7 then [link] else if c == 8 then EncU(target) else if c == 9 then EncU(caption) else []
      case Meta(_, key, val) => if c == 10 then EncU(key) else if c == 11 then EncU(val) else []
  }

  /** A column from record `i` on. */
  ghost function Column(rs: seq<Written>, i: nat, c: nat, start: nat, delta: bool, schemas: Schemas): bytes
    requires i <= |rs| && RecsOk(rs, schemas)
    decreases |rs| - i
  {
    if i == |rs| then []
    else assert RecOk(rs[i], schemas);
         Cell(rs[i], c, delta, LastId(rs[..i]), LastTime(rs[..i], start), schemas) + Column(rs, i + 1, c, start, delta, schemas)
  }

  /** A push changes its own column only. */
  lemma PushCol(k: nat)
    ensures forall c: nat, b: bytes, m: Columns {:trigger Col(Push(c, b, m), k)} ::
              Col(Push(c, b, m), k) == (if k == c then b + Col(m, k) else Col(m, k))
  {
  }

  lemma PushField(schema: seq<FieldType>, a: Attr, m: Columns, c: nat)
    requires AttrOk(schema, a)
    ensures Col(Push(ATTR_BASE + a.idx, EncField(FieldTypeAt(schema, a.idx), a.value), m), c)
         == (if c >= 128 then FieldValue(schema, a, c - 128) else []) + Col(m, c)
  {
    hide EncField, Push, Col, LayoutOf;
    PushOne(ATTR_BASE + a.idx, EncField(FieldTypeAt(schema, a.idx), a.value), m, c);
  }

  lemma PushOne(c: nat, b: bytes, m: Columns, k: nat)
    ensures Col(Push(c, b, m), k) == (if k == c then b else []) + Col(m, k)
  {
  }

  lemma {:induction false} AttrColumn(schema: seq<FieldType>, attrs: seq<Attr>, i: nat, m: Columns, c: nat)
    requires i <= |attrs| && AttrsOk(schema, attrs)
    ensures Col(PushAttrs(schema, attrs, i, m), c)
         == (if c >= 128 then FieldValues(schema, attrs, i, c - 128) else []) + Col(m, c)
    decreases |attrs| - i
  {
    hide EncField, AttrOk, Push, Col, FieldTypeAt, Fits, FieldValue;
    if i < |attrs| {
      assert AttrOk(schema, attrs[i]);
      PushField(schema, attrs[i], PushAttrs(schema, attrs, i + 1, m), c);
      AttrColumn(schema, attrs, i + 1, m, c);
      if c >= 128 {
        Regroup(FieldValue(schema, attrs[i], c - 128), FieldValues(schema, attrs, i + 1, c - 128), Col(m, c));
      }
    }
    assert [] + Col(m, c) == Col(m, c) && [] + ([] + Col(m, c)) == Col(m, c);
  }

  lemma Regroup(a: bytes, b: bytes, c: bytes)
    ensures a + (b + c) == (a + b) + c
  {
  }

  lemma RecColumn(r: Written, delta: bool, p: Prev, schemas: Schemas, m: Columns, c: nat)
    requires RecOk(r, schemas) && c != 0
    ensures Col(PushRec(r, delta, p, schemas, m), c) == Cell(r, c, delta, p.id, p.time, schemas) + Col(m, c)
  {
    hide RecOk, PushRec, Cell, Col;
    match r
    case Full(_, _, _, _, _, _, _) => FullColumn(r, delta, p, schemas, m, c);
    case Begin(_, _, _, _, _) => BeginColumn(r, delta, p, schemas, m, c);
    case Note(_, _) => NoteColumn(r, delta, p, schemas, m, c);
    case End(_, _) => NoteColumn(r, delta, p, schemas, m, c);
    case Link(_, _, _, _) => LinkColumn(r, delta, p, schemas, m, c);
    case Meta(_, _, _) => MetaColumn(r, delta, p, schemas, m, c);
  }

  lemma BeginColumn(r: Written, delta: bool, p: Prev, schemas: Schemas, m: Columns, c: nat)
    requires RecOk(r, schemas) && r.Begin? && c != 0
    ensures Col(PushRec(r, delta, p, schemas, m), c) == Cell(r, c, delta, p.id, p.time, schemas) + Col(m, c)
  {
    hide EncU, EncS, EncLe, Push, Col;
    PushCol(c);
    assert [] + Col(m, c) == Col(m, c);
  }

  lemma NoteColumn(r: Written, delta: bool, p: Prev, schemas: Schemas, m: Columns, c: nat)
    requires RecOk(r, schemas) && (r.Note? || r.End?) && c != 0
    ensures Col(PushRec(r, delta, p, schemas, m), c) == Cell(r, c, delta, p.id, p.time, schemas) + Col(m, c)
  {
    hide EncU, EncS, EncLe, EncNotes, Push, Col;
    PushCol(c);
    assert [] + Col(m, c) == Col(m, c);
  }

  lemma LinkColumn(r: Written, delta: bool, p: Prev, schemas: Schemas, m: Columns, c: nat)
    requires RecOk(r, schemas) && r.Link? && c != 0
    ensures Col(PushRec(r, delta, p, schemas, m), c) == Cell(r, c, delta, p.id, p.time, schemas) + Col(m, c)
  {
    hide EncU, EncS, EncLe, Push, Col;
    PushCol(c);
    assert [] + Col(m, c) == Col(m, c);
  }

  lemma MetaColumn(r: Written, delta: bool, p: Prev, schemas: Schemas, m: Columns, c: nat)
    requires RecOk(r, schemas) && r.Meta? && c != 0
    ensures Col(PushRec(r, delta, p, schemas, m), c) == Cell(r, c, delta, p.id, p.time, schemas) + Col(m, c)
  {
    hide EncU, EncS, EncLe, Push, Col;
    PushCol(c);
    assert [] + Col(m, c) == Col(m, c);
  }

  lemma FullColumn(r: Written, delta: bool, p: Prev, schemas: Schemas, m: Columns, c: nat)
    requires RecOk(r, schemas) && r.Full? && c != 0
    ensures Col(PushRec(r, delta, p, schemas, m), c) == Cell(r, c, delta, p.id, p.time, schemas) + Col(m, c)
  {
    hide EncU, EncS, EncLe, PushAttrs, FieldValues, Push, Col;
    PushCol(c);
    assert [] + Col(m, c) == Col(m, c);
    AttrColumn(Schema(schemas, r.kind), r.attrs, 0, m, c);
  }

  /** Every column of a block but the tags is its cells one after another, each told by the records before. */
  lemma {:induction false} ColumnsAreCells(rs: seq<Written>, i: nat, c: nat, start: nat, delta: bool, schemas: Schemas)
    requires i <= |rs| && RecsOk(rs, schemas) && c != 0
    ensures Col(EncColumns(rs[i..], delta, StateAfter(rs[..i], start, delta), schemas), c) == Column(rs, i, c, start, delta, schemas)
    decreases |rs| - i
  {
    hide PushRec, RecOk, LastId, LastTime, Step, Cell;
    if i < |rs| {
      var p := StateAfter(rs[..i], start, delta);
      Reslice(rs, i);
      assert RecOk(rs[i], schemas);
      OneMore(rs[..i], rs[i], start, delta);
      RecColumn(rs[i], delta, p, schemas, EncColumns(rs[i + 1..], delta, Step(rs[i], delta, p), schemas), c);
      ColumnsAreCells(rs, i + 1, c, start, delta, schemas);
      Absolute(rs[i], c, rs[..i], start, delta, schemas);
    }
  }

  /** Without delta coding nothing depends on the state. */
  lemma Absolute(r: Written, c: nat, past: seq<Written>, start: nat, delta: bool, schemas: Schemas)
    requires RecOk(r, schemas)
    ensures var p := StateAfter(past, start, delta);
            Cell(r, c, delta, p.id, p.time, schemas) == Cell(r, c, delta, LastId(past), LastTime(past, start), schemas)
  {
    hide EncS, EncLe, LastId, LastTime, RecOk, FieldValues;
  }

  function DocumentedTag<A>(r: Rec<A>): byte {
    if r.Full? then 0x01 else if r.Begin? then 0x02 else if r.Note? then 0x03
    else if r.End? then 0x04 else if r.Link? then 0x05 else 0x06
  }

  /** The tag column. */
  lemma {:induction false} TagColumn(rs: seq<Written>)
    ensures forall i :: 0 <= i < |rs| ==> Tags(rs)[i] == DocumentedTag(rs[i])
  {
    if rs != [] {
      TagColumn(rs[1..]);
    }
  }

  /** The columns are written in a fixed order, those that are there, and then the fields' by rising number. */
  lemma ColumnOrder(cols: Columns)
    ensures FIXED == [0, 3, 1, 2, 4, 5, 6, 7, 8, 9, 10, 11, 12]
    ensures Rising(AttrKeys(cols)) && forall c :: c in AttrKeys(cols) <==> c in cols && c >= 128
  {
  }

  /** The column reader's records, each read relative to the records read before it. */
  ghost function ReadTagged(tags: bytes, cols: Columns, past: seq<Seen>, start: int, delta: bool, schemas: Schemas): Option<seq<Seen>> {
    if tags == [] then Some([])
    else match NextRec(tags[0], delta, StateAfter(past, start, delta), schemas, cols)
      case Lost(_) => None
      case Got(r, cols') =>
        match ReadTagged(tags[1..], cols', past + [r], start, delta, schemas)
        case None => None
        case Some(more) => Some([r] + more)
  }

  lemma {:induction false} TagsReadDeltas(tags: bytes, cols: Columns, past: seq<Seen>, start: int, delta: bool, schemas: Schemas)
    ensures DecByTags(tags, cols, delta, StateAfter(past, start, delta), schemas)
         == ReadTagged(tags, cols, past, start, delta, schemas)
    decreases |tags|
  {
    hide NextRec, Step, StateAfter;
    if tags != [] {
      match NextRec(tags[0], delta, StateAfter(past, start, delta), schemas, cols) {
        case Lost(_) =>
        case Got(r, cols') =>
          OneMore(past, r, start, delta);
          TagsReadDeltas(tags[1..], cols', past + [r], start, delta, schemas);
      }
    }
  }
}
