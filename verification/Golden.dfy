/** The library's golden files, byte by byte: what the encoders make of the contents described in
    `tests/golden/corpus.py` is what the files there hold. */
module Golden {
  import opened Bytes
  import opened Varint
  import Bits
  import F = Fields
  import R = TxnRecords
  import B = TxnBlock
  import D = Derived
  import St = StringTables
  import H = Hierarchy
  import HB = HierarchyBlocks
  import A = TypedAttrs

  lemma SmallSigned(n: int)
    requires 0 <= n < 64
    ensures EncS(n) == [2 * n]
  {
    ZigzagCases(n);
  }

  lemma Le8(n: nat)
    requires n < 256
    ensures EncLe(8, n) == [n, 0, 0, 0, 0, 0, 0, 0]
  {
    assert EncLe(1, 0) == [0] + EncLe(0, 0);
    assert EncLe(2, 0) == [0] + EncLe(1, 0);
    assert EncLe(3, 0) == [0] + EncLe(2, 0);
    assert EncLe(4, 0) == [0] + EncLe(3, 0);
    assert EncLe(5, 0) == [0] + EncLe(4, 0);
    assert EncLe(6, 0) == [0] + EncLe(5, 0);
    assert EncLe(7, 0) == [0] + EncLe(6, 0);
  }

  // ---- Transactions: the raw call of callreturn.trl ----

  const RAW_ATTRS: bytes := [1, 0, 42, 0, 0, 0, 0, 0, 0, 0]
  const RAW_ROW: bytes := [0x01] + ([1] + [99] + [0] + [0x3C] + [10] + [0] + RAW_ATTRS)
  const RAW_CALL: bytes := [0, 0, 0, 0, 0, 0, 0, 0] + ([40, 0, 0, 0, 0, 0, 0, 0] + ([1] + RAW_ROW))

  lemma RawRow()
    ensures var r: R.Written := R.Full(1, 99, 0, 30, 40, 0, [R.Attr(0, F.IntV(42))]);
            R.RecOk(r, map[]) && R.EncRec(r, true, R.Prev(0, 0), map[]) == RAW_ROW
  {
    hide EncU, EncS, R.EncAttrs, R.RecOk, F.Fits;
    RawFits();
    RawAttr();
    SmallUnsigned(1);
    SmallUnsigned(99);
    SmallUnsigned(10);
    SmallUnsigned(0);
    SmallSigned(0);
    SmallSigned(30);
  }

  lemma RawCall()
    ensures var rs: seq<R.Written> := [R.Full(1, 99, 0, 30, 40, 0, [R.Attr(0, F.IntV(42))])];
            B.RecsOk(rs, map[]) && B.RowPayload(0, 40, rs, true, map[]) == RAW_CALL
  {
    hide EncU, EncLe, R.EncRec, R.RecOk, F.Fits, B.EncRows, B.RecsOk;
    RawRow();
    Le8(0);
    Le8(40);
    SmallUnsigned(1);
    var rs: seq<R.Written> := [R.Full(1, 99, 0, 30, 40, 0, [R.Attr(0, F.IntV(42))])];
    OneRow(rs[0]);
    assert EncLe(8, 0) + EncLe(8, 40) + EncU(1) + RAW_ROW == EncLe(8, 0) + (EncLe(8, 40) + (EncU(1) + RAW_ROW));
  }

  lemma OneRow(r: R.Written)
    requires R.RecOk(r, map[])
    ensures B.RecsOk([r], map[]) && B.EncRows([r], true, R.Prev(0, 0), map[]) == R.EncRec(r, true, R.Prev(0, 0), map[])
  {
    hide R.EncRec, R.RecOk;
    assert [r][1..] == [] && R.EncRec(r, true, R.Prev(0, 0), map[]) + [] == R.EncRec(r, true, R.Prev(0, 0), map[]);
  }

  lemma SmallUnsigned(n: nat)
    requires n < 128
    ensures EncU(n) == [n]
  {
  }

  /** Varints below 128. */
  lemma Varints()
    ensures forall n: nat {:trigger EncU(n)} :: n < 128 ==> EncU(n) == [n]
  {
  }

  lemma RawFits()
    ensures F.Fits(F.U64, F.IntV(42)) && R.RecOk(R.Full(1, 99, 0, 30, 40, 0, [R.Attr(0, F.IntV(42))]), map[])
  {
    hide Bits.Pow2;
    Bits.Pow2Values();
  }

  lemma RawAttr()
    ensures F.Fits(F.U64, F.IntV(42)) && R.AttrsOk([], [R.Attr(0, F.IntV(42))])
    ensures R.EncAttrs([], [R.Attr(0, F.IntV(42))]) == RAW_ATTRS
  {
    hide EncLe, Bits.Pow2;
    Bits.Pow2Values();
    Le8(42);
    assert [R.Attr(0, F.IntV(42))][1..] == [];
  }

  // ---- Derived signals: the definitions of derived.trl ----

  lemma AndGate()
    ensures D.EncDefinition(D.Definition(1, [1, 2], D.Code(D.BinOp(D.And, D.Input(0), D.Input(1))), 0))
         == [0, 1, 2, 1, 2, 5, 0x01, 0, 0x01, 1, 0x04]
    ensures D.EncDefinition(D.Definition(1, [1], D.Code(D.Input(0)), 0)) == [0, 1, 1, 1, 2, 0x01, 0]
  {
  }

  // ---- Strings: the table of hierarchy.trl ----

  const DESIGN: bytes := [0x64, 0x65, 0x73, 0x69, 0x67, 0x6E]
  const TOP: bytes := [0x74, 0x6F, 0x70]
  const CLK: bytes := [0x63, 0x6C, 0x6B]

  lemma Strings()
    ensures St.EncPayload([DESIGN, TOP, [], CLK])
         == [4, 6, 0x64, 0x65, 0x73, 0x69, 0x67, 0x6E, 3, 0x74, 0x6F, 0x70, 0, 3, 0x63, 0x6C, 0x6B]
  {
    var t := [DESIGN, TOP, [], CLK];
    assert t[1..] == [TOP, [], CLK] && t[1..][1..] == [[], CLK] && t[1..][1..][1..] == [CLK];
    assert [CLK][1..] == [];
    assert St.EncEntries([CLK]) == [3] + CLK;
    assert St.EncEntries([[], CLK]) == [0] + St.EncEntries([CLK]);
    assert St.EncEntries([TOP, [], CLK]) == [3] + TOP + St.EncEntries([[], CLK]);
  }

  // ---- Hierarchies: that of hierarchy.trl ----

  function Var(id: nat, name: nat, sigType: nat): H.Node {
    H.Node(H.Var(id, name, sigType, 1, 0, 0, 0), [], [], [])
  }

  const SUB: H.Node := H.Node(H.Scope(0, 5, 3, 0, 0), [], [], [Var(2, 6, 1), Var(3, 7, 2)])
  const TREE: H.Node := H.Node(H.Scope(0, 2, 3, 0, 0), [], [], [Var(1, 4, 1), SUB])

  const SUB_BYTES: bytes :=
    [0x01, 0, 5, 3, 0, 0] + ([0x03, 2, 6, 1, 1, 0, 0, 0] + [0x03, 3, 7, 2, 1, 0, 0, 0] + [0x02])

  lemma Tree()
    ensures HB.EncInner(HB.Header(1, 0, 1), [TREE]) ==
            [1] + ([0] + ([1] + ([0x01, 0, 2, 3, 0, 0] + (([0x03, 1, 4, 1, 1, 0, 0, 0] + SUB_BYTES) + [0x02]))))
  {
    hide EncU, H.EncNode, H.EncNodes;
    SmallUnsigned(1);
    VarBytes(1, 4, 1);
    VarBytes(2, 6, 1);
    VarBytes(3, 7, 2);
    TwoNodes(Var(2, 6, 1), Var(3, 7, 2));
    TwoNodes(Var(1, 4, 1), SUB);
    OneNode(TREE);
    ScopeBytes(5, SUB.children);
    ScopeBytes(2, TREE.children);
  }

  lemma VarBytes(id: byte, name: byte, sigType: byte)
    requires id < 128 && name < 128 && sigType < 128
    ensures H.EncNode(Var(id, name, sigType)) == [0x03, id, name, sigType, 1, 0, 0, 0]
  {
    hide EncU;
    Varints();
  }

  lemma ScopeBytes(name: byte, children: seq<H.Node>)
    requires name < 128
    ensures H.EncNode(H.Node(H.Scope(0, name, 3, 0, 0), [], [], children)) == [0x01, 0, name, 3, 0, 0] + (H.EncNodes(children) + [0x02])
  {
    hide EncU, H.EncNodes;
    Varints();
  }

  lemma OneNode(n: H.Node)
    ensures H.EncNodes([n]) == H.EncNode(n)
  {
    hide H.EncNode;
    assert [n][1..] == [];
  }

  lemma TwoNodes(m: H.Node, n: H.Node)
    ensures H.EncNodes([m, n]) == H.EncNode(m) + H.EncNode(n)
  {
    hide H.EncNode;
    OneNode(n);
    assert [m, n][1..] == [n];
  }

  // ---- Typed attributes: those of transparent_meta.trl ----

  lemma Typed()
    ensures A.EncTyped(A.TypedAttr(2, A.One(A.StrId(3)))) == [2] + ([4] + [3])
    ensures A.EncTyped(A.TypedAttr(4, A.One(A.U64(4)))) == [4] + ([2] + [4])
    ensures A.EncTyped(A.TypedAttr(6, A.One(A.Flag(true)))) == [6] + ([0] + [1])
    ensures A.EncTyped(A.TypedAttr(7, A.Many(4, [A.StrId(8), A.StrId(9)]))) == [7] + ([0x44] + ([2] + ([8] + ([9] + []))))
    ensures forall raw: bytes :: |raw| == 8 ==> A.EncTyped(A.TypedAttr(5, A.One(A.F64(raw)))) == [5] + ([3] + raw)
  {
    hide EncU;
    Varints();
    TwoIds();
  }

  lemma TwoIds()
    ensures A.EncScalars([A.StrId(8), A.StrId(9)]) == [8] + ([9] + [])
  {
    hide EncU;
    SmallUnsigned(8);
    SmallUnsigned(9);
    assert [A.StrId(8), A.StrId(9)][1..] == [A.StrId(9)] && [A.StrId(9)][1..] == [];
    assert A.EncScalars([A.StrId(9)]) == [9] + [];
  }

  // ---- Enumerations ----

  /** The codes that parsers accept are the members of the library's enumerations; any other byte raises. */
  lemma Enumerations(b: byte, more: bytes)
    ensures !H.ScopeKind(b) ==> H.ParseTag(0x01, [b] + more, H.FRESH) == H.Raise(BadTag)
    ensures H.ScopeKind(b) <==> b in {0x00, 0x01, 0x02, 0x03, 0x04, 0x05, 0x06, 0x07, 0x08, 0x09, 0x0A, 0x0B, 0x0C, 0xFF}
    ensures H.VarDir(b) <==> b in {0x00, 0x01, 0x02, 0x03, 0x04}
    ensures HB.HierKind(b) <==> b in {0x00, 0x01, 0x02, 0xFF}
    ensures R.LinkOk(b) <==> b in {0x00, 0x01, 0x02, 0xFF}
  {
  }
}
