/** One variable of a byte-plane block, byte by byte: 0x0102 at time 5 and 0x0304 at time 7 in two planes. */
module GoldenPlanes {
  import opened Bits
  import opened Bytes
  import opened Varint
  import opened VcValues
  import opened VcWave
  import opened ByteSplit
  import opened BytesplitBlocks
  import opened Golden

  const WIDE: Sig := Sig(TwoState, 16)
  const TWO: seq<Change> := [Change(5, Int(0x0102)), Change(7, Int(0x0304))]
  const CELLS: bytes := [0x02, 0x01, 0x04, 0x03]
  const PLANES: bytes := [0x02, 0x04, 0x01, 0x03]

  lemma Le2(n: nat)
    requires n < 0x1_0000
    ensures EncLe(2, n) == [n % 256, n / 256]
  {
    assert EncLe(1, n / 256) == [n / 256 % 256] + EncLe(0, n / 256 / 256);
  }

  lemma TwoFit()
    ensures VarFits(WIDE, 1, TWO)
  {
    hide Pow2;
    assert Pow2(16) == 0x1_0000 by {
      SixteenBits();
    }
    assert TWO[1..] == [Change(7, Int(0x0304))] && TWO[1..][1..] == [];
  }

  lemma SixteenBits()
    ensures Pow2(16) == 0x1_0000
  {
    assert Pow2(8) == 256;
    Pow2Add(8, 8);
  }

  lemma TwoCells()
    ensures CellsOk(WIDE, TWO) && EncCells(WIDE, TWO) == CELLS
  {
    hide CellOk;
    TwoFit();
    Le2(0x0102);
    Le2(0x0304);
    var later := [Change(7, Int(0x0304))];
    assert TWO[1..] == later && later[1..] == [];
    assert CellOk(WIDE, TWO[0].value) && CellOk(WIDE, TWO[1].value);
    assert EncCells(WIDE, later) == EncLe(2, 0x0304) + [];
  }

  lemma TwoAt(p: nat, i: nat)
    requires p < 2 && i < 2
    ensures Split(CELLS, 2).Some? && |Split(CELLS, 2).value| == 4 && Split(CELLS, 2).value[2 * p + i] == CELLS[2 * i + p]
  {
    hide Split;
    SplitInverts(CELLS, 2);
    SplitPlaces(CELLS, 2, p, i);
    assert |CELLS| / 2 == 2;
    assert p * 2 + i == 2 * p + i && i * 2 + p == 2 * i + p;
  }

  lemma TwoPlanes()
    ensures Split(CELLS, 2) == Some(PLANES)
  {
    hide Split;
    TwoAt(0, 0);
    TwoAt(0, 1);
    TwoAt(1, 0);
    TwoAt(1, 1);
    var r := Split(CELLS, 2).value;
    assert r[0] == 0x02 && r[1] == 0x04 && r[2] == 0x01 && r[3] == 0x03;
    assert r == PLANES;
  }

  /** Id, kind, width, count, time deltas, and then the low bytes of both values before the high ones. */
  lemma TwoValues()
    ensures VarFits(WIDE, 1, TWO)
    ensures EncVar(WIDE, 1, TWO) == [1] + ([0] + ([2] + ([2] + (([5] + ([2] + [])) + PLANES))))
  {
    hide EncU, EncCells, Split, CellsOk, VarFits, EncDeltas;
    TwoFit();
    TwoCells();
    TwoPlanes();
    SmallUnsigned(1);
    SmallUnsigned(2);
    TwoDeltas();
  }

  lemma TwoDeltas()
    ensures Flows(TWO, 0) && EncDeltas(TWO, 0) == [5] + ([2] + [])
  {
    hide EncU;
    SmallUnsigned(5);
    SmallUnsigned(2);
    var later := [Change(7, Int(0x0304))];
    assert TWO[1..] == later && later[1..] == [];
    assert Flows(later, 5) && EncDeltas(later, 5) == [2] + [];
  }
}
