/** A stable sort by insertion, for Python's `sorted` and `list.sort`. */
module Sorting {

  ghost predicate Total<T(!new)>(le: (T, T) -> bool) {
    && (forall a, b :: le(a, b) || le(b, a))
    && (forall a, b, c :: le(a, b) && le(b, c) ==> le(a, c))
  }

  ghost predicate SortedBy<T>(s: seq<T>, le: (T, T) -> bool) {
    forall i, j :: 0 <= i < j < |s| ==> le(s[i], s[j])
  }

  /** Behind everything it does not precede. */
  function Insert<T>(s: seq<T>, x: T, le: (T, T) -> bool): (r: seq<T>)
    ensures |r| == |s| + 1
  {
    if s == [] then [x]
    else if le(s[|s| - 1], x) then s + [x]
    else Insert(s[..|s| - 1], x, le) + [s[|s| - 1]]
  }

  function Sort<T>(s: seq<T>, le: (T, T) -> bool): (r: seq<T>)
    ensures |r| == |s|
  {
    if s == [] then [] else Insert(Sort(s[..|s| - 1], le), s[|s| - 1], le)
  }

  lemma {:induction false} InsertKeeps<T>(s: seq<T>, x: T, le: (T, T) -> bool)
    ensures multiset(Insert(s, x, le)) == multiset(s) + multiset{x}
  {
    if s != [] && !le(s[|s| - 1], x) {
      var init := s[..|s| - 1];
      InsertKeeps(init, x, le);
      LastApart(s);
    }
  }

  /** Sorting moves elements and does nothing else. */
  lemma {:induction false} SortKeeps<T>(s: seq<T>, le: (T, T) -> bool)
    ensures multiset(Sort(s, le)) == multiset(s)
  {
    hide Insert;
    if s != [] {
      var init := s[..|s| - 1];
      SortKeeps(init, le);
      InsertKeeps(Sort(init, le), s[|s| - 1], le);
      LastApart(s);
    }
  }

  lemma LastApart<T>(s: seq<T>)
    requires s != []
    ensures multiset(s) == multiset(s[..|s| - 1]) + multiset{s[|s| - 1]}
  {
    assert s == s[..|s| - 1] + [s[|s| - 1]];
  }

  lemma SameMembers<T>(s: seq<T>, le: (T, T) -> bool)
    ensures forall x :: x in Sort(s, le) <==> x in s
  {
    SortKeeps(s, le);
    assert forall x :: x in multiset(s) <==> x in s;
    assert forall x :: x in multiset(Sort(s, le)) <==> x in Sort(s, le);
  }

  lemma {:induction false} InsertSorts<T(!new)>(s: seq<T>, x: T, le: (T, T) -> bool)
    requires Total(le) && SortedBy(s, le)
    ensures SortedBy(Insert(s, x, le), le)
  {
    if s != [] && !le(s[|s| - 1], x) {
      var init, last := s[..|s| - 1], s[|s| - 1];
      InsertSorts(init, x, le);
      var r := Insert(init, x, le);
      InsertKeeps(init, x, le);
      forall i | 0 <= i < |r|
        ensures le(r[i], last)
      {
        assert r[i] in multiset(r);
        assert r[i] in init || r[i] == x;
      }
    }
  }

  lemma {:induction false} SortSorts<T(!new)>(s: seq<T>, le: (T, T) -> bool)
    requires Total(le)
    ensures SortedBy(Sort(s, le), le)
  {
    if s != [] {
      SortSorts(s[..|s| - 1], le);
      InsertSorts(Sort(s[..|s| - 1], le), s[|s| - 1], le);
    }
  }

  /** Nothing twice stays nothing twice. */
  lemma SortDistinct<T>(s: seq<T>, le: (T, T) -> bool)
    requires forall i, j :: 0 <= i < j < |s| ==> s[i] != s[j]
    ensures forall i, j :: 0 <= i < j < |s| ==> Sort(s, le)[i] != Sort(s, le)[j]
  {
    SortKeeps(s, le);
    OnceEach(s);
    var r := Sort(s, le);
    forall i, j | 0 <= i < j < |r|
      ensures r[i] != r[j]
    {
      if r[i] == r[j] {
        Twice(r, i, j);
      }
    }
  }

  lemma {:induction false} OnceEach<T>(s: seq<T>)
    requires forall i, j :: 0 <= i < j < |s| ==> s[i] != s[j]
    ensures forall x :: multiset(s)[x] <= 1
  {
    if s != [] {
      var init, last := s[..|s| - 1], s[|s| - 1];
      OnceEach(init);
      assert s == init + [last];
      assert last !in init;
    }
  }

  lemma Twice<T>(s: seq<T>, i: nat, j: nat)
    requires i < j < |s| && s[i] == s[j]
    ensures multiset(s)[s[i]] >= 2
  {
    assert s == s[..j] + [s[j]] + s[j + 1..];
    assert s[..j][i] == s[i];
    assert s[i] in multiset(s[..j]);
  }

  /** A strictly ordered list is determined by its members. */
  lemma {:induction false} StrictUnique<T(!new)>(a: seq<T>, b: seq<T>, le: (T, T) -> bool)
    requires forall i, j :: 0 <= i < j < |a| ==> le(a[i], a[j]) && !le(a[j], a[i])
    requires forall i, j :: 0 <= i < j < |b| ==> le(b[i], b[j]) && !le(b[j], b[i])
    requires forall x :: x in a <==> x in b
    ensures a == b
    decreases |a|
  {
    if a != [] {
      assert a[0] in b;
    }
    if b != [] {
      assert b[0] in a;
    }
    if a != [] && b != [] {
      var x, y := a[1..], b[1..];
      FirstTogether(a, b, le);
      forall v
        ensures v in x <==> v in y
      {
        assert v in a <==> v == a[0] || v in x;
        assert v in b <==> v == b[0] || v in y;
      }
      StrictUnique(x, y, le);
      assert a == [a[0]] + x && b == [b[0]] + y;
    }
  }

  lemma FirstTogether<T(!new)>(a: seq<T>, b: seq<T>, le: (T, T) -> bool)
    requires forall i, j :: 0 <= i < j < |a| ==> le(a[i], a[j]) && !le(a[j], a[i])
    requires forall i, j :: 0 <= i < j < |b| ==> le(b[i], b[j]) && !le(b[j], b[i])
    requires a != [] && b != [] && a[0] in b && b[0] in a
    ensures a[0] == b[0] && a[0] !in a[1..] && b[0] !in b[1..]
  {
    assert forall k :: 0 < k < |b| ==> le(b[0], b[k]) && b[k] != b[0];
    assert forall k :: 0 < k < |a| ==> !le(a[k], a[0]) && a[k] != a[0];
    var i :| 0 <= i < |b| && b[i] == a[0];
    var j :| 0 <= j < |a| && a[j] == b[0];
  }
}
