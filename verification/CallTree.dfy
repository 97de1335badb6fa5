/** From flat events to nested calls: `events` and `call_tree` of
    `python/src/trlog/ext/callreturn.py`. */
module CallTree {
  import opened Bytes
  import opened CallReturn

  /** `end` stays absent while a call has not returned. */
  datatype Call = Call(func: nat, name: bytes, args: seq<Arg>, start: int, end: Option<int>, ret: Option<int>,
                       children: seq<Call>)

  /** An event with its nesting depth. */
  datatype Deep = Deep(event: Shown, depth: nat)

  // ---- Depth ----

  function Enters(e: Shown): bool {
    e.Entered?
  }

  /** The depth after an event; an exit at depth 0 stays there. */
  function DepthAfter(e: Shown, d: nat): nat {
    if Enters(e) then d + 1 else if d == 0 then 0 else d - 1
  }

  /** `events`: an entry carries the depth before it, an exit the depth after it. */
  function Annotate(es: seq<Shown>, d: nat): seq<Deep> {
    if es == [] then []
    else [Deep(es[0], if Enters(es[0]) then d else DepthAfter(es[0], d))] + Annotate(es[1..], DepthAfter(es[0], d))
  }

  /** The events without the exits that close nothing. */
  function NoStrays(es: seq<Shown>, d: nat): seq<Shown> {
    if es == [] then []
    else if !Enters(es[0]) && d == 0 then NoStrays(es[1..], 0)
    else [es[0]] + NoStrays(es[1..], DepthAfter(es[0], d))
  }

  /** No exit comes without an open call. */
  predicate Matched(es: seq<Shown>, d: nat) {
    es == [] || ((Enters(es[0]) || d > 0) && Matched(es[1..], DepthAfter(es[0], d)))
  }

  lemma {:induction false} MatchedHasNoStrays(es: seq<Shown>, d: nat)
    requires Matched(es, d)
    ensures NoStrays(es, d) == es
  {
    if es != [] {
      MatchedHasNoStrays(es[1..], DepthAfter(es[0], d));
      assert [es[0]] + es[1..] == es;
    }
  }

  lemma {:induction false} NoStraysMatched(es: seq<Shown>, d: nat)
    ensures Matched(NoStrays(es, d), d)
  {
    if es != [] {
      NoStraysMatched(es[1..], DepthAfter(es[0], d));
      if Enters(es[0]) || d > 0 {
        assert NoStrays(es, d)[1..] == NoStrays(es[1..], DepthAfter(es[0], d));
      }
    }
  }

  // ---- Trees ----

  function Entry(c: Call): Shown {
    Entered(c.start, c.func, c.name, c.args)
  }

  /** A call's events in order: its entry, its children, and its exit if it has returned. */
  function Flatten(c: Call, d: nat): seq<Deep>
    decreases c, 0
  {
    [Deep(Entry(c), d)] + FlattenAll(c.children, d + 1)
    + (if c.end.Some? then [Deep(Left(c.end.value, c.ret), d)] else [])
  }

  function FlattenAll(cs: seq<Call>, d: nat): seq<Deep>
    decreases cs, 1
  {
    if cs == [] then [] else FlattenAll(cs[..|cs| - 1], d) + Flatten(cs[|cs| - 1], d)
  }

  /** Every call of the forest has returned. */
  predicate AllClosed(cs: seq<Call>) {
    forall c :: c in cs ==> c.end.Some? && AllClosed(c.children)
  }

  /** Only the last spine may still be open: a last call, its last child, and so on. */
  predicate OpenOnLastSpine(cs: seq<Call>)
    decreases cs
  {
    cs == [] ||
    (AllClosed(cs[..|cs| - 1]) &&
     var c := cs[|cs| - 1];
     if c.end.Some? then AllClosed(c.children) else OpenOnLastSpine(c.children))
  }

  /** The builder's stack.  The source links a call to its parent when it is entered and fills in its
      end later; here an open call waits on the stack, with the children it has so far, and joins its
      parent's children when it is closed. */
  datatype Builder = Builder(roots: seq<Call>, open: seq<Call>)

  /** The forest as it would be if nothing more came: open calls hang unfinished from each other. */
  function Forest(b: Builder): seq<Call>
    decreases |b.open|
  {
    if b.open == [] then b.roots
    else Forest(Hang(b, b.open[|b.open| - 1]))
  }

  /** Takes the innermost open call off the stack and gives it, as `c`, to its parent. */
  function Hang(b: Builder, c: Call): Builder
    requires b.open != []
  {
    var n := |b.open| - 1;
    if n == 0 then Builder(b.roots + [c], [])
    else
      var parent := b.open[n - 1];
      Builder(b.roots, b.open[..n - 1] + [parent.(children := parent.children + [c])])
  }

  function Build(e: Shown, b: Builder): Builder {
    match e
    case Entered(time, func, name, args) => b.(open := b.open + [Call(func, name, args, time, None, None, [])])
    case Left(time, ret) =>
      if b.open == [] then b else Hang(b, b.open[|b.open| - 1].(end := Some(time), ret := ret))
  }

  /** `call_tree`. */
  function Tree(es: seq<Shown>, b: Builder): seq<Call> {
    if es == [] then Forest(b) else Tree(es[1..], Build(es[0], b))
  }

  const EMPTY := Builder([], [])

  // ---- The events so far ----

  /** The events a builder has taken in: closed roots, then each open call's entry and children. */
  function SoFar(b: Builder): seq<Deep>
    decreases |b.open|
  {
    if b.open == [] then FlattenAll(b.roots, 0)
    else
      var n := |b.open| - 1;
      SoFar(Builder(b.roots, b.open[..n])) + [Deep(Entry(b.open[n]), n)] + FlattenAll(b.open[n].children, n + 1)
  }

  ghost predicate BuilderOk(b: Builder) {
    AllClosed(b.roots) && forall i :: 0 <= i < |b.open| ==> b.open[i].end.None? && AllClosed(b.open[i].children)
  }

  lemma FlattenSnoc(cs: seq<Call>, c: Call, d: nat)
    ensures FlattenAll(cs + [c], d) == FlattenAll(cs, d) + Flatten(c, d)
  {
    var all := cs + [c];
    assert all[..|all| - 1] == cs && all[|all| - 1] == c;
  }

  /** The exit a hung call brings along, if it has returned. */
  function ExitOf(c: Call, d: nat): seq<Deep> {
    if c.end.Some? then [Deep(Left(c.end.value, c.ret), d)] else []
  }

  lemma HangRoot(b: Builder, c: Call)
    requires |b.open| == 1 && c.children == b.open[0].children && Entry(c) == Entry(b.open[0])
    ensures SoFar(Hang(b, c)) == SoFar(b) + ExitOf(c, 0)
  {
    hide FlattenAll;
    FlattenSnoc(b.roots, c, 0);
    var entry, kids := [Deep(Entry(c), 0)], FlattenAll(c.children, 1);
    var roots := FlattenAll(b.roots, 0);
    assert b.open[..0] == [];
    assert SoFar(b) == roots + entry + kids;
    assert roots + (entry + kids + ExitOf(c, 0)) == roots + entry + kids + ExitOf(c, 0);
  }

  /** What a builder took in below its innermost open call. */
  function Below(b: Builder): seq<Deep>
    requires b.open != []
  {
    SoFar(Builder(b.roots, b.open[..|b.open| - 1])) + [Deep(Entry(b.open[|b.open| - 1]), |b.open| - 1)]
  }

  lemma HangInner(b: Builder, c: Call)
    requires |b.open| > 1
    requires var top := b.open[|b.open| - 1]; c.children == top.children && Entry(c) == Entry(top)
    ensures SoFar(Hang(b, c)) == SoFar(b) + ExitOf(c, |b.open| - 1)
  {
    hide FlattenAll, Entry;
    var n := |b.open| - 1;
    var parent, h := b.open[n - 1], Hang(b, c);
    var lower := Builder(b.roots, b.open[..n]);
    assert h.open[..n - 1] == b.open[..n - 1] == lower.open[..n - 1];
    SameEntry(parent, parent.children + [c]);
    FlattenSnoc(parent.children, c, n);
    var base, older := Below(lower), FlattenAll(parent.children, n);
    var entry, kids, exit := [Deep(Entry(c), n)], FlattenAll(c.children, n + 1), ExitOf(c, n);
    assert Flatten(c, n) == entry + kids + exit;
    assert SoFar(h) == base + (older + (entry + kids + exit));
    assert SoFar(b) == (base + older) + entry + kids;
    assert base + (older + (entry + kids + exit)) == (base + older) + entry + kids + exit;
  }

  lemma SameEntry(c: Call, kids: seq<Call>)
    ensures Entry(c.(children := kids)) == Entry(c)
  {
  }

  /** Hanging a call on its parent adds its exit, if it has one, and nothing else. */
  lemma HangAdds(b: Builder, c: Call)
    requires b.open != []
    requires var top := b.open[|b.open| - 1]; c.children == top.children && Entry(c) == Entry(top)
    ensures SoFar(Hang(b, c)) == SoFar(b) + ExitOf(c, |b.open| - 1)
  {
    hide SoFar, Hang;
    if |b.open| == 1 {
      HangRoot(b, c);
    } else {
      HangInner(b, c);
    }
  }

  lemma HangOk(b: Builder, c: Call)
    requires BuilderOk(b) && b.open != [] && c.end.Some? && AllClosed(c.children)
    ensures BuilderOk(Hang(b, c)) && |Hang(b, c).open| == |b.open| - 1
  {
    var n := |b.open| - 1;
    if n == 0 {
      assert forall x :: x in b.roots + [c] ==> x in b.roots || x == c;
    } else {
      var kids := b.open[n - 1].children;
      assert forall x :: x in kids + [c] ==> x in kids || x == c;
    }
  }

  /** One event: a stray exit changes nothing, any other adds exactly itself at its depth. */
  lemma BuildAdds(e: Shown, b: Builder)
    requires BuilderOk(b)
    ensures var d := |b.open|;
            BuilderOk(Build(e, b)) && |Build(e, b).open| == DepthAfter(e, d) &&
            SoFar(Build(e, b)) ==
              if !Enters(e) && d == 0 then SoFar(b)
              else SoFar(b) + [Deep(e, if Enters(e) then d else DepthAfter(e, d))]
  {
    hide FlattenAll, AllClosed, BuilderOk, Hang;
    var d := |b.open|;
    if e.Entered? {
      var c := Call(e.func, e.name, e.args, e.time, None, None, []);
      var b' := Build(e, b);
      assert b'.open[..d] == b.open && Builder(b.roots, b.open) == b;
      assert FlattenAll([], d + 1) == [] && AllClosed([]) by {
        NothingFlat(d + 1);
      }
      EnterOk(b, c);
      assert SoFar(b) + [Deep(e, d)] + [] == SoFar(b) + [Deep(e, d)];
    } else if d > 0 {
      var c := b.open[d - 1].(end := Some(e.time), ret := e.ret);
      TopClosed(b);
      HangAdds(b, c);
      HangOk(b, c);
    }
  }

  lemma NothingFlat(d: nat)
    ensures FlattenAll([], d) == [] && AllClosed([])
  {
  }

  lemma EnterOk(b: Builder, c: Call)
    requires BuilderOk(b) && c.end.None? && c.children == []
    ensures BuilderOk(b.(open := b.open + [c]))
  {
  }

  lemma TopClosed(b: Builder)
    requires BuilderOk(b) && b.open != []
    ensures AllClosed(b.open[|b.open| - 1].children)
  {
  }

  /** Hanging the open calls from each other loses nothing. */
  lemma {:induction false} ForestIsSoFar(b: Builder)
    requires forall i :: 0 <= i < |b.open| ==> b.open[i].end.None?
    ensures FlattenAll(Forest(b), 0) == SoFar(b)
    decreases |b.open|
  {
    if b.open != [] {
      var top := b.open[|b.open| - 1];
      HangAdds(b, top);
      assert SoFar(b) + [] == SoFar(b);
      ForestIsSoFar(Hang(b, top));
    }
  }

  lemma {:induction false} ForestSpine(b: Builder)
    requires AllClosed(b.roots) || (b.open == [] && OpenOnLastSpine(b.roots))
    requires forall i :: 0 <= i < |b.open| ==> b.open[i].end.None?
    requires forall i :: 0 <= i < |b.open| - 1 ==> AllClosed(b.open[i].children)
    requires b.open != [] ==> OpenOnLastSpine(b.open[|b.open| - 1].children)
    ensures OpenOnLastSpine(Forest(b))
    decreases |b.open|
  {
    if b.open != [] {
      var top := b.open[|b.open| - 1];
      SpineSnoc(if |b.open| == 1 then b.roots else b.open[|b.open| - 2].children, top);
      ForestSpine(Hang(b, top));
    } else if AllClosed(b.roots) {
      ClosedIsSpine(b.roots);
    }
  }

  lemma SpineSnoc(cs: seq<Call>, c: Call)
    requires AllClosed(cs) && c.end.None? && OpenOnLastSpine(c.children)
    ensures OpenOnLastSpine(cs + [c])
  {
    var all := cs + [c];
    assert all[..|all| - 1] == cs && all[|all| - 1] == c;
  }

  lemma ClosedIsSpine(cs: seq<Call>)
    requires AllClosed(cs)
    ensures OpenOnLastSpine(cs)
  {
    if cs != [] {
      var c := cs[|cs| - 1];
      assert c in cs && forall x :: x in cs[..|cs| - 1] ==> x in cs;
    }
  }

  // ---- Faithfulness ----

  lemma {:induction false} TreeFrom(es: seq<Shown>, b: Builder)
    requires BuilderOk(b)
    ensures FlattenAll(Tree(es, b), 0) == SoFar(b) + Annotate(NoStrays(es, |b.open|), |b.open|)
    ensures OpenOnLastSpine(Tree(es, b))
    ensures Tree(NoStrays(es, |b.open|), b) == Tree(es, b)
  {
    hide SoFar, Build, Forest, FlattenAll, OpenOnLastSpine, BuilderOk;
    var d := |b.open|;
    if es == [] {
      BuilderSpine(b);
      ForestIsSoFar(b);
      ForestSpine(b);
      assert SoFar(b) + [] == SoFar(b);
    } else {
      var e := es[0];
      BuildAdds(e, b);
      TreeFrom(es[1..], Build(e, b));
      var d' := DepthAfter(e, d);
      if Enters(e) || d > 0 {
        var kept := NoStrays(es, d);
        assert kept[0] == e && kept[1..] == NoStrays(es[1..], d');
        var one := [Deep(e, if Enters(e) then d else d')];
        assert (SoFar(b) + one) + Annotate(kept[1..], d') == SoFar(b) + (one + Annotate(kept[1..], d'));
      } else {
        StrayBuild(e, b);
      }
    }
  }

  lemma StrayBuild(e: Shown, b: Builder)
    requires !Enters(e) && b.open == []
    ensures Build(e, b) == b
  {
  }

  lemma BuilderSpine(b: Builder)
    requires BuilderOk(b)
    ensures AllClosed(b.roots) && forall i :: 0 <= i < |b.open| ==> b.open[i].end.None? && AllClosed(b.open[i].children)
    ensures b.open != [] ==> OpenOnLastSpine(b.open[|b.open| - 1].children)
  {
    if b.open != [] {
      ClosedIsSpine(b.open[|b.open| - 1].children);
    }
  }

  /** Flattening the tree gives back the events, every node at the depth `events` gives it.  Stray
      exits do not matter, and only calls on the last spine are unfinished. */
  lemma TreeFaithful(es: seq<Shown>)
    ensures FlattenAll(Tree(es, EMPTY), 0) == Annotate(NoStrays(es, 0), 0)
    ensures Matched(es, 0) ==> FlattenAll(Tree(es, EMPTY), 0) == Annotate(es, 0)
    ensures Tree(NoStrays(es, 0), EMPTY) == Tree(es, EMPTY) && Matched(NoStrays(es, 0), 0)
    ensures OpenOnLastSpine(Tree(es, EMPTY))
  {
    TreeFrom(es, EMPTY);
    NoStraysMatched(es, 0);
    var kept := Annotate(NoStrays(es, 0), 0);
    assert [] + kept == kept;
    if Matched(es, 0) {
      MatchedHasNoStrays(es, 0);
    }
  }

  /** The annotation adds depths and leaves the events alone. */
  lemma {:induction false} AnnotateKeeps(es: seq<Shown>, d: nat)
    ensures |Annotate(es, d)| == |es| && forall i :: 0 <= i < |es| ==> Annotate(es, d)[i].event == es[i]
  {
    if es != [] {
      AnnotateKeeps(es[1..], DepthAfter(es[0], d));
      forall i | 0 <= i < |es|
        ensures Annotate(es, d)[i].event == es[i]
      {
        if i > 0 {
          assert es[i] == es[1..][i - 1] && Annotate(es, d)[i] == Annotate(es[1..], DepthAfter(es[0], d))[i - 1];
        }
      }
    }
  }

  // ---- The reader's loops ----

  method Events(es: seq<Shown>) returns (out: seq<Deep>)
    ensures out == Annotate(es, 0)
  {
    var depth: nat := 0;
    out := [];
    assert es[0..] == es && [] + Annotate(es, 0) == Annotate(es, 0);
    for i := 0 to |es|
      invariant Annotate(es, 0) == out + Annotate(es[i..], depth)
    {
      assert es[i..][0] == es[i] && es[i..][1..] == es[i + 1..];
      var e := es[i];
      var note: Deep;
      if e.Entered? {
        note := Deep(e, depth);
        depth := depth + 1;
      } else {
        depth := if depth == 0 then 0 else depth - 1;
        note := Deep(e, depth);
      }
      assert out + ([note] + Annotate(es[i + 1..], depth)) == (out + [note]) + Annotate(es[i + 1..], depth);
      out := out + [note];
    }
    assert out + [] == out;
  }

  method CallForest(es: seq<Shown>) returns (calls: seq<Call>)
    ensures calls == Tree(es, EMPTY)
  {
    hide Forest, Hang;
    var roots: seq<Call>, stack: seq<Call> := [], [];
    assert es[0..] == es;
    for i := 0 to |es|
      invariant Tree(es, EMPTY) == Tree(es[i..], Builder(roots, stack))
    {
      assert es[i..][0] == es[i] && es[i..][1..] == es[i + 1..];
      match es[i] {
        case Entered(time, func, name, args) =>
          stack := stack + [Call(func, name, args, time, None, None, [])];
        case Left(time, ret) =>
          if stack != [] {
            var c := stack[|stack| - 1].(end := Some(time), ret := ret);
            var b := Hang(Builder(roots, stack), c);
            roots, stack := b.roots, b.open;
          }
      }
    }
    calls := Forest(Builder(roots, stack));
  }
}
