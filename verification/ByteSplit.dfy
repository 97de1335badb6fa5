/** The byte-plane split and the value-change block built on it: `python/src/trlog/_bytesplit.py`. */
module ByteSplit {
  import opened Bits
  import opened Bytes
  import opened Varint
  import opened Lists
  import opened VcValues
  import opened VcWave
  import opened VcBlock

  // ---- The transform ----

  /** `s` taken as rows of `b` bytes, read out column by column; there are `a` rows. */
  function Transposed(s: bytes, a: nat, b: nat): (r: bytes)
    requires a * b == |s|
    ensures |r| == |s| && forall k :: 0 <= k < |s| ==> Source(k, a, b) < |s| && r[k] == s[Source(k, a, b)]
  {
    SourceInside(|s|, a, b);
    seq(|s|, k requires 0 <= k < |s| => s[Source(k, a, b)])
  }

  /** Where the k-th byte of the transposed string comes from. */
  function Source(k: nat, a: nat, b: nat): nat {
    if a == 0 then 0 else Cell(k % a, b, k / a)
  }

  function Cell(row: nat, width: nat, column: nat): nat {
    row * width + column
  }

  lemma SourceInside(size: nat, a: nat, b: nat)
    requires a * b == size
    ensures forall k :: 0 <= k < size ==> Source(k, a, b) < size
  {
    forall k | 0 <= k < size
      ensures Source(k, a, b) < size
    {
      PlaceParts(k, a, b);
      CellInside(k % a, k / a, a, b);
    }
  }

  /** Quotient and remainder of a place within `a * b`. */
  lemma PlaceParts(k: nat, a: nat, b: nat)
    requires k < a * b
    ensures a > 0 && b > 0 && k % a < a && k / a < b && k == Cell(k / a, a, k % a)
  {
    assert a == 0 ==> a * b == 0;
    if a > 0 {
      assert k == a * (k / a) + k % a;
      if k / a >= b {
        MulMono(a, b, k / a);
      }
    }
  }

  lemma MulMono(a: nat, b: nat, c: nat)
    requires b <= c
    ensures a * b <= a * c
  {
    assert a * c == a * b + a * (c - b);
  }

  lemma CellInside(row: nat, column: nat, rows: nat, width: nat)
    requires row < rows && column < width
    ensures Cell(row, width, column) < rows * width
  {
    MulMono(width, row + 1, rows);
    assert (row + 1) * width == row * width + width;
  }

  lemma CellParts(row: nat, width: nat, column: nat)
    requires column < width
    ensures Cell(row, width, column) / width == row && Cell(row, width, column) % width == column
  {
    DivUnique(Cell(row, width, column), width, row, column);
  }

  lemma SourceTwice(k: nat, a: nat, b: nat)
    requires k < a * b
    ensures Source(k, a, b) < a * b && Source(Source(k, a, b), b, a) == k
  {
    hide Cell;
    PlaceParts(k, a, b);
    CellInside(k % a, k / a, a, b);
    CellParts(k % a, b, k / a);
  }

  /** Transposing back gives the original. */
  lemma TransposeTwice(s: bytes, a: nat, b: nat)
    requires a * b == |s|
    ensures b * a == |s| && Transposed(Transposed(s, a, b), b, a) == s
  {
    hide Source;
    assert b * a == a * b;
    var r := Transposed(s, a, b);
    var back := Transposed(r, b, a);
    forall k | 0 <= k < |s|
      ensures back[k] == s[k]
    {
      SourceTwice(k, b, a);
    }
  }

  /** Byte planes: `n` values of `width` bytes become `width` planes of `n` bytes.  A length that is not
      whole values raises. */
  function Split(raw: bytes, width: nat): Option<bytes> {
    if width <= 1 then Some(raw)
    else if |raw| % width != 0 then None
    else assert (|raw| / width) * width == |raw|; Some(Transposed(raw, |raw| / width, width))
  }

  function Unsplit(data: bytes, width: nat): Option<bytes> {
    if width <= 1 then Some(data)
    else if |data| % width != 0 then None
    else assert width * (|data| / width) == |data|; Some(Transposed(data, width, |data| / width))
  }

  /** The two undo each other, in both orders. */
  lemma SplitInverts(raw: bytes, width: nat)
    ensures Split(raw, width).Some? <==> (width <= 1 || |raw| % width == 0)
    ensures Split(raw, width).Some? ==> Unsplit(Split(raw, width).value, width) == Some(raw)
    ensures Unsplit(raw, width).Some? ==> Split(Unsplit(raw, width).value, width) == Some(raw)
  {
    if width > 1 && |raw| % width == 0 {
      var n := |raw| / width;
      assert n * width == |raw| && width * n == |raw|;
      TransposeTwice(raw, n, width);
      TransposeTwice(raw, width, n);
    }
  }

  /** Byte p of value i goes to place p * n + i. */
  lemma SplitPlaces(raw: bytes, width: nat, p: nat, i: nat)
    requires width > 1 && |raw| % width == 0 && p < width && i < |raw| / width
    ensures var n := |raw| / width;
            p * n + i < |raw| && i * width + p < |raw| && Split(raw, width).value[p * n + i] == raw[i * width + p]
  {
    var n := |raw| / width;
    assert n * width == |raw|;
    CellInside(p, i, width, n);
    CellInside(i, p, n, width);
    CellParts(p, n, i);
  }

  ghost predicate Reorders(f: seq<nat>) {
    && (forall k :: 0 <= k < |f| ==> f[k] < |f|)
    && (forall i, j :: 0 <= i < j < |f| ==> f[i] != f[j])
    && (forall m :: 0 <= m < |f| ==> m in f)
  }

  lemma DropLargest(f: seq<nat>, k: nat)
    requires Reorders(f) && k < |f| && f[k] == |f| - 1
    ensures Reorders(f[..k] + f[k + 1..])
  {
    var g := f[..k] + f[k + 1..];
    assert forall x :: 0 <= x < |g| ==> g[x] == f[if x < k then x else x + 1];
    forall m | 0 <= m < |g|
      ensures m in g
    {
      assert m in f;
      var y :| 0 <= y < |f| && f[y] == m;
      assert g[if y < k then y else y - 1] == m;
    }
    forall x | 0 <= x < |g|
      ensures g[x] < |g|
    {
      var y := if x < k then x else x + 1;
      assert g[x] == f[y] && f[y] != f[k];
    }
  }

  lemma DropPlace(s: bytes, t: bytes, f: seq<nat>, k: nat)
    requires |s| == |t| == |f| && Reorders(f) && (forall x :: 0 <= x < |f| ==> t[x] == s[f[x]]) && k < |f| && f[k] == |f| - 1
    ensures var t', f' := t[..k] + t[k + 1..], f[..k] + f[k + 1..];
            Reorders(f') && forall x :: 0 <= x < |f'| ==> t'[x] == s[..|s| - 1][f'[x]]
  {
    var t', f' := t[..k] + t[k + 1..], f[..k] + f[k + 1..];
    DropLargest(f, k);
    forall x | 0 <= x < |f'|
      ensures t'[x] == s[..|s| - 1][f'[x]]
    {
      var y := if x < k then x else x + 1;
      assert f'[x] == f[y] && t'[x] == t[y];
    }
  }

  /** A list re-read in another order of all its places has the same elements. */
  lemma {:induction false} Reordered(s: bytes, t: bytes, f: seq<nat>)
    requires |s| == |t| == |f| && Reorders(f) && forall k :: 0 <= k < |f| ==> t[k] == s[f[k]]
    ensures multiset(t) == multiset(s)
    decreases |s|
  {
    if s != [] {
      var m := |s| - 1;
      assert m in f;
      var k :| 0 <= k < |f| && f[k] == m;
      DropLargest(f, k);
      hide Reorders;
      DropPlace(s, t, f, k);
      Reordered(s[..m], t[..k] + t[k + 1..], f[..k] + f[k + 1..]);
      MultisetWithout(t, k);
      assert s == s[..m] + [s[m]];
    }
  }

  lemma MultisetWithout(t: bytes, k: nat)
    requires k < |t|
    ensures multiset(t) == multiset(t[..k] + t[k + 1..]) + multiset{t[k]}
  {
    assert t == t[..k] + [t[k]] + t[k + 1..];
  }

  lemma TransposeKeeps(s: bytes, a: nat, b: nat)
    requires a * b == |s|
    ensures multiset(Transposed(s, a, b)) == multiset(s)
  {
    hide Source;
    var f := seq(|s|, k requires 0 <= k < |s| => Source(k, a, b));
    SourceInside(|s|, a, b);
    assert b * a == |s|;
    forall i, j | 0 <= i < j < |f|
      ensures f[i] != f[j]
    {
      SourceTwice(i, a, b);
      SourceTwice(j, a, b);
    }
    forall m | 0 <= m < |s|
      ensures m in f
    {
      SourceTwice(m, b, a);
      assert f[Source(m, b, a)] == m;
    }
    Reordered(s, Transposed(s, a, b), f);
  }

  /** Splitting moves bytes and does nothing else. */
  lemma SplitKeepsBytes(raw: bytes, width: nat)
    ensures Split(raw, width).Some? ==> multiset(Split(raw, width).value) == multiset(raw)
  {
    if width > 1 && |raw| % width == 0 {
      assert (|raw| / width) * width == |raw|;
      TransposeKeeps(raw, |raw| / width, width);
    }
  }

  // ---- The loops ----

  lemma PlaneFits(n: nat, width: nat, plane: nat)
    requires plane < width
    ensures (plane + 1) * n == plane * n + n <= n * width
  {
    MulMono(n, plane + 1, width);
  }

  /** `byte_split`: plane after plane, each filled front to back. */
  method SplitPlanes(raw: bytes, width: nat) returns (r: Option<bytes>)
    ensures r == Split(raw, width)
  {
    hide Transposed;
    if width <= 1 {
      return Some(raw);
    }
    if |raw| % width != 0 {
      return None;
    }
    var n := |raw| / width;
    assert n * width == |raw|;
    ghost var goal := Transposed(raw, n, width);
    var out := new byte[|raw|](_ => 0);
    ghost var base: nat := 0;
    for plane := 0 to width
      invariant base == plane * n <= |raw| && out[..base] == goal[..base]
    {
      PlaneFits(n, width, plane);
      FillPlane(raw, width, n, plane, out, goal);
      base := base + n;
    }
    assert width * n == |raw|;
    assert out[..] == out[..base] == goal[..base] == goal;
    r := Some(out[..]);
  }

  method FillPlane(raw: bytes, width: nat, n: nat, plane: nat, out: array<byte>, ghost goal: bytes)
    requires width > 1 && n * width == |raw| && plane < width && out.Length == |raw|
    requires goal == Transposed(raw, n, width)
    requires plane * n + n <= |raw| && out[..plane * n] == goal[..plane * n]
    modifies out
    ensures out[..plane * n + n] == goal[..plane * n + n]
  {
    hide Source, Transposed;
    var base := plane * n;
    var src := plane;
    for i := 0 to n
      invariant out[..base + i] == goal[..base + i]
      invariant src == i * width + plane
    {
      SourceOf(raw, width, n, plane, i);
      out[base + i] := raw[src];
      assert (i + 1) * width == i * width + width;
      src := src + width;
    }
  }

  lemma SourceOf(raw: bytes, width: nat, n: nat, plane: nat, i: nat)
    requires width > 1 && n * width == |raw| && plane < width && i < n
    ensures i * width + plane < |raw| && plane * n + i < |raw|
    ensures Transposed(raw, n, width)[plane * n + i] == raw[i * width + plane]
  {
    CellInside(i, plane, n, width);
    CellInside(plane, i, width, n);
    CellParts(plane, n, i);
  }

  /** `byte_unsplit`: a plane's bytes go out at every `width`-th place. */
  method UnsplitPlanes(data: bytes, width: nat) returns (r: Option<bytes>)
    ensures r == Unsplit(data, width)
  {
    hide Transposed;
    if width <= 1 {
      return Some(data);
    }
    if |data| % width != 0 {
      return None;
    }
    var n := |data| / width;
    assert width * n == |data|;
    ghost var goal := Transposed(data, width, n);
    var out := new byte[|data|](_ => 0);
    for plane := 0 to width
      invariant forall k :: 0 <= k < |data| && Filled(k, width, plane, 0) ==> out[k] == goal[k]
    {
      SpreadPlane(data, width, n, plane, out, goal);
    }
    AllFilled(|data|, width);
    assert out[..] == goal;
    r := Some(out[..]);
  }

  /** The places already filled: those of earlier planes, and this plane's first `i`. */
  ghost predicate Filled(k: nat, width: nat, plane: nat, i: nat) {
    width > 0 && (k % width < plane || (k % width == plane && k / width < i))
  }

  lemma FilledNext(size: nat, width: nat, n: nat, plane: nat, i: nat)
    requires width > 0 && width * n == size && plane < width && i < n
    ensures forall k :: 0 <= k < size ==> (Filled(k, width, plane, i + 1) <==> Filled(k, width, plane, i) || k == i * width + plane)
  {
    forall k | 0 <= k < size
      ensures Filled(k, width, plane, i + 1) <==> Filled(k, width, plane, i) || k == i * width + plane
    {
      CellParts(i, width, plane);
      assert k == width * (k / width) + k % width;
      assert width * i == i * width;
    }
  }

  lemma FilledPlane(size: nat, width: nat, n: nat, plane: nat)
    requires width > 0 && width * n == size && plane < width
    ensures forall k :: 0 <= k < size ==> (Filled(k, width, plane, n) <==> Filled(k, width, plane + 1, 0))
  {
    forall k | 0 <= k < size
      ensures Filled(k, width, plane, n) <==> Filled(k, width, plane + 1, 0)
    {
      PlaceParts(k, width, n);
    }
  }

  lemma AllFilled(size: nat, width: nat)
    requires width > 0
    ensures forall k :: 0 <= k < size ==> Filled(k, width, width, 0)
  {
  }

  method SpreadPlane(data: bytes, width: nat, n: nat, plane: nat, out: array<byte>, ghost goal: bytes)
    requires width > 1 && width * n == |data| && plane < width && out.Length == |data|
    requires goal == Transposed(data, width, n)
    requires forall k :: 0 <= k < |data| && Filled(k, width, plane, 0) ==> out[k] == goal[k]
    modifies out
    ensures forall k :: 0 <= k < |data| && Filled(k, width, plane + 1, 0) ==> out[k] == goal[k]
  {
    hide Transposed, Source, Filled;
    var base := plane * n;
    var dst := plane;
    for i := 0 to n
      invariant forall k :: 0 <= k < |data| && Filled(k, width, plane, i) ==> out[k] == goal[k]
      invariant dst == i * width + plane
    {
      TargetOf(data, width, n, plane, i);
      FilledNext(|data|, width, n, plane, i);
      out[dst] := data[base + i];
      assert (i + 1) * width == i * width + width;
      dst := dst + width;
    }
    FilledPlane(|data|, width, n, plane);
  }

  lemma TargetOf(data: bytes, width: nat, n: nat, plane: nat, i: nat)
    requires width > 1 && width * n == |data| && plane < width && i < n
    ensures plane * n + i < |data| && i * width + plane < |data|
    ensures Transposed(data, width, n)[i * width + plane] == data[plane * n + i]
  {
    hide Transposed, Source, Cell;
    assert n * width == |data|;
    CellInside(plane, i, width, n);
    CellInside(i, plane, n, width);
    SourceOfCell(i, width, plane, n);
    CellIs(plane, n, i);
    CellIs(i, width, plane);
    assert Transposed(data, width, n)[Cell(i, width, plane)] == data[Source(Cell(i, width, plane), width, n)];
  }

  lemma CellIs(row: nat, width: nat, column: nat)
    ensures Cell(row, width, column) == row * width + column
  {
  }

  lemma SourceOfCell(i: nat, width: nat, plane: nat, n: nat)
    requires plane < width
    ensures Source(Cell(i, width, plane), width, n) == Cell(plane, n, i)
  {
    CellParts(i, width, plane);
    hide Cell;
  }
}
