/** Sorting as the codecs use it: sets in ascending order. */
module Lists {

  ghost predicate Rising(s: seq<nat>) {
    forall i, j :: 0 <= i < j < |s| ==> s[i] < s[j]
  }

  ghost predicate IsLeast(m: nat, s: set<nat>) {
    m in s && forall x :: x in s ==> m <= x
  }

  lemma {:induction false} LeastExists(s: set<nat>) returns (m: nat)
    requires s != {}
    ensures IsLeast(m, s)
    decreases |s|
  {
    m :| m in s;
    if s != {m} {
      var k := LeastExists(s - {m});
      assert forall x :: x in s ==> x == m || x in s - {m};
      m := if m < k then m else k;
    }
  }

  lemma HasLeast(s: set<nat>)
    requires s != {}
    ensures exists m :: m in s && forall x :: x in s ==> m <= x
  {
    var m := LeastExists(s);
    assert m in s && forall x :: x in s ==> m <= x;
  }

  function Least(s: set<nat>): (m: nat)
    requires s != {}
    ensures IsLeast(m, s)
  {
    HasLeast(s);
    var m :| m in s && forall x :: x in s ==> m <= x;
    m
  }

  ghost predicate Lists(r: seq<nat>, s: set<nat>) {
    Rising(r) && |r| == |s| && forall x :: x in r <==> x in s
  }

  lemma ConsLists(m: nat, r: seq<nat>, s: set<nat>)
    requires IsLeast(m, s) && Lists(r, s - {m})
    ensures Lists([m] + r, s)
  {
    var q := [m] + r;
    forall i, j | 0 <= i < j < |q|
      ensures q[i] < q[j]
    {
      assert q[j] == r[j - 1] && r[j - 1] in r;
      if i > 0 {
        assert q[i] == r[i - 1];
      }
    }
  }

  /** `sorted(set)`. */
  function Ascending(s: set<nat>): (r: seq<nat>)
    ensures Lists(r, s)
    decreases |s|
  {
    if s == {} then []
    else
      var m := Least(s);
      var r := Ascending(s - {m});
      ConsLists(m, r, s);
      [m] + r
  }

  /** There is one ascending order. */
  lemma {:induction false} AscendingUnique(a: seq<nat>, b: seq<nat>)
    requires Rising(a) && Rising(b) && forall x :: x in a <==> x in b
    ensures a == b
  {
    if a != [] {
      assert a[0] in b;
    }
    if b != [] {
      assert b[0] in a;
    }
    if a != [] && b != [] {
      var x, y := a[1..], b[1..];
      forall v
        ensures v in x <==> v in y
      {
        assert v in a <==> v == a[0] || v in x;
        assert v in b <==> v == b[0] || v in y;
      }
      AscendingUnique(x, y);
      assert a == [a[0]] + x && b == [b[0]] + y;
    }
  }

  /** The i-th of distinct naturals in ascending order is at least i. */
  lemma {:induction false} RisingBound(s: seq<nat>, i: nat)
    requires Rising(s) && i < |s|
    ensures s[i] >= i
  {
    if i > 0 {
      RisingBound(s, i - 1);
      assert s[i - 1] < s[i];
    }
  }

  /** How many there can be below a bound. */
  lemma RisingCount(s: seq<nat>, bound: nat)
    requires Rising(s) && forall x :: x in s ==> x < bound
    ensures |s| <= bound
  {
    if s != [] {
      RisingBound(s, |s| - 1);
      assert s[|s| - 1] in s;
    }
  }

  lemma {:induction false} SubsetSize<T>(a: set<T>, b: set<T>)
    requires a <= b
    ensures |a| <= |b|
    decreases a
  {
    if a != {} {
      var x :| x in a;
      SubsetSize(a - {x}, b - {x});
    }
  }

  /** What a loop at position `i` still has before it. */
  lemma Tail<T>(s: seq<T>, i: nat)
    requires i < |s|
    ensures s[i..] != [] && s[i..][0] == s[i] && s[i..][1..] == s[i + 1..]
  {
  }
}
