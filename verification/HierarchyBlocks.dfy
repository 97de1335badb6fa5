/** `HierarchyBlock` of `python/src/trlog/_hierarchy.py`: building a hierarchy call by call, and whole
    blocks with their header and compression. */
module HierarchyBlocks {
  import opened Bits
  import opened Bytes
  import L = Lists
  import opened Varint
  import opened TypedAttrs
  import opened Hierarchy

  // ---- Unfinished forests ----

  /** The forest as it hangs together: open scopes are their parents' last children. */
  function Whole(p: Partial): seq<Node>
    decreases |p.open|
  {
    if p.open == [] then p.root else Whole(Close(p))
  }

  /** The nodes of a kind in document order, read off the parts of an unfinished forest. */
  function ListParts(p: Partial, kind: Kind): seq<Node> {
    ListIn(p.root, kind) + ListOpen(p.open, kind)
  }

  function ListOpen(open: seq<Node>, kind: Kind): seq<Node> {
    if open == [] then [] else ListIn(open[0].children, kind) + ListOpen(open[1..], kind)
  }

  lemma {:induction false} ListAppend(a: seq<Node>, b: seq<Node>, kind: Kind)
    ensures ListIn(a + b, kind) == ListIn(a, kind) + ListIn(b, kind)
    decreases |a|
  {
    hide ListOf;
    if a == [] {
      assert a + b == b;
    } else {
      assert (a + b)[1..] == a[1..] + b;
      ListAppend(a[1..], b, kind);
    }
  }

  lemma {:induction false} OpenAppend(a: seq<Node>, b: seq<Node>, kind: Kind)
    ensures ListOpen(a + b, kind) == ListOpen(a, kind) + ListOpen(b, kind)
    decreases |a|
  {
    if a == [] {
      assert a + b == b;
    } else {
      assert (a + b)[1..] == a[1..] + b;
      OpenAppend(a[1..], b, kind);
    }
  }

  lemma OpenOne(n: Node, kind: Kind)
    ensures ListOpen([n], kind) == ListIn(n.children, kind) && ListIn([n], kind) == ListOf(n, kind)
  {
    assert ListIn(n.children, kind) + [] == ListIn(n.children, kind) && ListOf(n, kind) + [] == ListOf(n, kind);
  }

  /** The innermost open scope, apart from the others. */
  lemma SplitOpen(open: seq<Node>, kind: Kind)
    requires open != []
    ensures ListOpen(open, kind) == ListOpen(open[..|open| - 1], kind) + ListIn(open[|open| - 1].children, kind)
  {
    var init, last := open[..|open| - 1], open[|open| - 1];
    assert open == init + [last];
    OpenAppend(init, [last], kind);
    OpenOne(last, kind);
  }

  /** New nodes come last in document order. */
  lemma ListBehind(p: Partial, ns: seq<Node>, kind: Kind)
    ensures ListParts(Behind(p, ns), kind) == ListParts(p, kind) + ListIn(ns, kind)
  {
    hide ListIn, ListOpen;
    var q := Behind(p, ns);
    if p.open == [] {
      ListAppend(p.root, ns, kind);
      NoneOpen(kind);
      assert q.open == [];
    } else {
      var k := |p.open| - 1;
      assert q.open[..k] == p.open[..k] && q.open[k].children == p.open[k].children + ns;
      ListAppend(p.open[k].children, ns, kind);
      SplitOpen(p.open, kind);
      SplitOpen(q.open, kind);
      assert ListIn(p.root, kind) + (ListOpen(p.open[..k], kind) + (ListIn(p.open[k].children, kind) + ListIn(ns, kind)))
          == (ListIn(p.root, kind) + (ListOpen(p.open[..k], kind) + ListIn(p.open[k].children, kind))) + ListIn(ns, kind);
    }
  }

  lemma NoneOpen(kind: Kind)
    ensures ListOpen([], kind) == [] && ListIn([], kind) == []
  {
  }

  lemma ListOpened(p: Partial, n: Node, kind: Kind)
    requires n.children == []
    ensures ListParts(Opened(p, n), kind) == ListParts(p, kind)
  {
    OpenAppend(p.open, [n], kind);
    OpenOne(n, kind);
  }

  lemma ListClosed(p: Partial, kind: Kind)
    requires p.open != [] && p.open[|p.open| - 1].head.Scope?
    ensures ListParts(Close(p), kind) == ListParts(p, kind)
  {
    hide ListIn, ListOpen;
    var k := |p.open| - 1;
    var last := p.open[k];
    var outer := p.(open := p.open[..k]);
    ListBehind(outer, [last], kind);
    OpenOne(last, kind);
    ScopeList(last, kind);
    SplitOpen(p.open, kind);
    assert ListIn(p.root, kind) + (ListOpen(p.open[..k], kind) + ListIn(last.children, kind))
        == (ListIn(p.root, kind) + ListOpen(p.open[..k], kind)) + ListIn(last.children, kind);
  }

  lemma ScopeList(n: Node, kind: Kind)
    requires n.head.Scope?
    ensures ListOf(n, kind) == ListIn(n.children, kind)
  {
  }

  ghost predicate ScopesOpen(p: Partial) {
    forall i :: 0 <= i < |p.open| ==> p.open[i].head.Scope?
  }

  lemma CloseKeepsScopes(p: Partial)
    requires ScopesOpen(p) && p.open != []
    ensures ScopesOpen(Close(p)) && |Close(p).open| == |p.open| - 1
  {
  }

  lemma {:induction false} WholeLists(p: Partial, kind: Kind)
    requires ScopesOpen(p)
    ensures ListIn(Whole(p), kind) == ListParts(p, kind)
    decreases |p.open|
  {
    hide ListIn, ListOpen, Close, ScopesOpen;
    if p.open == [] {
      NoneOpen(kind);
    } else {
      CloseKeepsScopes(p);
      InnermostIsScope(p);
      ListClosed(p, kind);
      WholeLists(Close(p), kind);
    }
  }

  lemma InnermostIsScope(p: Partial)
    requires ScopesOpen(p) && p.open != []
    ensures p.open[|p.open| - 1].head.Scope?
  {
  }

  // ---- Flat maps from lists ----

  function FromList(ns: seq<Node>): map<nat, Node> {
    if ns == [] then map[]
    else
      var init, last := FromList(ns[..|ns| - 1]), ns[|ns| - 1];
      if last.head.Scope? then init else init[last.head.id := last]
  }

  lemma {:induction false} FromAppend(a: seq<Node>, b: seq<Node>)
    ensures FromList(a + b) == FromList(a) + FromList(b)
    decreases |b|
  {
    if b == [] {
      assert a + b == a && FromList(a) + map[] == FromList(a);
    } else {
      var init, last := b[..|b| - 1], b[|b| - 1];
      assert (a + b)[..|a + b| - 1] == a + init && (a + b)[|a + b| - 1] == last;
      FromAppend(a, init);
    }
  }

  lemma {:induction false} FlatIsList(ns: seq<Node>, kind: Kind)
    ensures FlatIn(ns, kind) == FromList(ListIn(ns, kind))
    decreases ns, 1
  {
    hide FromList;
    if ns == [] {
      NoList();
    } else {
      FlatOfNode(ns[0], kind);
      FlatIsList(ns[1..], kind);
      FromAppend(ListOf(ns[0], kind), ListIn(ns[1..], kind));
    }
  }

  lemma NoList()
    ensures FromList([]) == map[]
  {
  }

  lemma {:induction false} FlatOfNode(n: Node, kind: Kind)
    ensures FlatOf(n, kind) == FromList(ListOf(n, kind))
    decreases n, 0
  {
    if n.head.Scope? {
      hide FromList;
      FlatIsList(n.children, kind);
    } else if IsKind(n.head, kind) {
      OneFrom(n);
    }
  }

  lemma OneFrom(n: Node)
    requires !n.head.Scope?
    ensures FromList([n]) == map[n.head.id := n]
  {
    assert [n][..0] == [];
  }

  // ---- Whole blocks ----

  datatype Header = Header(id: nat, kind: byte, name: nat)

  predicate HierKind(b: byte) {
    b <= 2 || b == 0xFF
  }

  predicate HeaderOk(h: Header) {
    h.id < LIMIT && HierKind(h.kind) && h.name < LIMIT
  }

  function EncInner(h: Header, ns: seq<Node>): bytes {
    EncU(h.id) + ([h.kind] + (EncU(h.name) + EncNodes(ns)))
  }

  /** The header replaces the block's own; tags add to what it holds. */
  function DecInner(s: bytes, b: Build): Parse<(Header, Build)> {
    var (id, s1) :- DecU(s);
    var (kind, s2) :- DecByte(s1);
    if !HierKind(kind) then Fail(BadTag)
    else
      var (name, s3) :- DecU(s2);
      var (b', rest) :- ParseTags(s3, b);
      Ok((Header(id, kind, name), b'), rest)
  }

  lemma InnerRoundTrip(h: Header, ns: seq<Node>)
    requires HeaderOk(h) && NodesOk(ns)
    ensures DecInner(EncInner(h, ns), FRESH) == Ok((h, Build(Partial(ns, []), FlatIn(ns, Vars), FlatIn(ns, Streams))), [])
  {
    hide EncU, DecU, EncNodes, ParseTags, FlatIn, NodesOk;
    var nodes := EncNodes(ns);
    URoundTrip(h.id, [h.kind] + (EncU(h.name) + nodes));
    assert ([h.kind] + (EncU(h.name) + nodes))[1..] == EncU(h.name) + nodes;
    URoundTrip(h.name, nodes);
    TreeRoundTrip(ns);
  }

  datatype BlockFlags = BlockFlags(compressed: bool, zstd: bool)

  /** A compressed payload starts with the length of what it holds. */
  function EncBlock(zlib: Compressor, zstd: Compressor, f: BlockFlags, h: Header, ns: seq<Node>): bytes {
    var inner := EncInner(h, ns);
    if f.compressed then EncLe(8, |inner|) + (if f.zstd then zstd else zlib).pack(inner) else inner
  }

  function DecBlock(zlib: Compressor, zstd: Compressor, f: BlockFlags, payload: bytes, b: Build): Parse<(Header, Build)> {
    if f.compressed then
      match (if f.zstd then zstd else zlib).unpack(From(payload, 8))
      case None => Fail(Corrupt)
      case Some(inner) => DecInner(inner, b)
    else DecInner(payload, b)
  }

  /** A block reads back as its header and its forest, with the forest's flat maps. */
  lemma BlockRoundTrip(zlib: Compressor, zstd: Compressor, f: BlockFlags, h: Header, ns: seq<Node>)
    requires Lossless(zlib) && Lossless(zstd) && HeaderOk(h) && NodesOk(ns)
    ensures DecBlock(zlib, zstd, f, EncBlock(zlib, zstd, f, h, ns), FRESH)
         == Ok((h, Build(Partial(ns, []), FlatIn(ns, Vars), FlatIn(ns, Streams))), [])
  {
    hide EncInner, DecInner, FlatIn, NodesOk, EncLe;
    InnerRoundTrip(h, ns);
    var inner := EncInner(h, ns);
    if f.compressed {
      var packed := (if f.zstd then zstd else zlib).pack(inner);
      assert (EncLe(8, |inner|) + packed)[8..] == packed;
    }
  }

  // ---- The printer ----

  method EncodeAttrs(attrs: seq<Attr>) returns (out: bytes)
    ensures out == EncAttrs(attrs)
  {
    hide EncAttr;
    out := [];
    assert attrs[0..] == attrs;
    for i := 0 to |attrs|
      invariant EncAttrs(attrs) == out + EncAttrs(attrs[i..])
    {
      L.Tail(attrs, i);
      ghost var more := EncAttrs(attrs[i + 1..]);
      assert (out + EncAttr(attrs[i])) + more == out + (EncAttr(attrs[i]) + more);
      out := out + EncAttr(attrs[i]);
    }
  }

  method EncodeTypedAttrs(typed: seq<TypedAttr>) returns (out: bytes)
    ensures out == EncTypedAttrs(typed)
  {
    hide EncTyped;
    out := [];
    assert typed[0..] == typed;
    for i := 0 to |typed|
      invariant EncTypedAttrs(typed) == out + EncTypedAttrs(typed[i..])
    {
      L.Tail(typed, i);
      ghost var one, more := [0x06] + EncTyped(typed[i]), EncTypedAttrs(typed[i + 1..]);
      assert (out + one) + more == out + (one + more);
      out := out + ([0x06] + EncTyped(typed[i]));
    }
  }

  method EncodeNode(n: Node) returns (out: bytes)
    ensures out == EncNode(n)
    decreases n, 0
  {
    hide EncHead, EncAttrs, EncTypedAttrs, EncNodes;
    var attrs := EncodeAttrs(n.attrs);
    var typed := EncodeTypedAttrs(n.typed);
    out := EncHead(n.head) + (attrs + typed);
    if n.head.Scope? {
      var inside := EncodeNodes(n.children);
      assert out + (inside + [0x02]) == EncHead(n.head) + (attrs + (typed + (inside + [0x02])));
      out := out + (inside + [0x02]);
    } else {
      assert typed + [] == typed;
    }
  }

  method EncodeNodes(ns: seq<Node>) returns (out: bytes)
    ensures out == EncNodes(ns)
    decreases ns, 1
  {
    hide EncNode;
    out := [];
    assert ns[0..] == ns;
    for i := 0 to |ns|
      invariant EncNodes(ns) == out + EncNodes(ns[i..])
    {
      L.Tail(ns, i);
      var one := EncodeNode(ns[i]);
      ghost var more := EncNodes(ns[i + 1..]);
      assert (out + one) + more == out + (one + more);
      out := out + one;
    }
  }

  // ---- The block object ----

  /** Where the builder hangs attributes. */
  datatype Target = NoNode | InnerScope | LastChild

  ghost predicate Tracks(p: Partial, kind: Kind, m: map<nat, Node>, next: nat) {
    m == FromList(ListParts(p, kind)) && DistinctIds(ListParts(p, kind)) &&
    forall n :: n in ListParts(p, kind) ==> 1 <= n.head.id < next
  }

  lemma TracksBehind(p: Partial, kind: Kind, m: map<nat, Node>, next: nat, n: Node)
    requires Tracks(p, kind, m, next) && IsKind(n.head, kind) && n.head.id == next >= 1
    ensures Tracks(Behind(p, [n]), kind, m[next := n], next + 1)
  {
    hide ListParts, ListIn;
    var l := ListParts(p, kind);
    ListBehind(p, [n], kind);
    OpenOne(n, kind);
    LeafList(n, kind);
    var l' := l + [n];
    assert l'[..|l'| - 1] == l;
    assert forall i :: 0 <= i < |l| ==> l[i] in l;
  }

  lemma LeafList(n: Node, kind: Kind)
    requires !n.head.Scope?
    ensures ListOf(n, kind) == if IsKind(n.head, kind) then [n] else []
  {
  }

  lemma TracksOther(p: Partial, kind: Kind, m: map<nat, Node>, next: nat, n: Node)
    requires Tracks(p, kind, m, next) && !n.head.Scope? && !IsKind(n.head, kind)
    ensures Tracks(Behind(p, [n]), kind, m, next)
  {
    hide ListParts, ListIn, FromList, DistinctIds;
    ListBehind(p, [n], kind);
    OpenOne(n, kind);
    LeafList(n, kind);
    assert ListParts(p, kind) + [] == ListParts(p, kind);
  }

  lemma TracksSame(p: Partial, q: Partial, kind: Kind, m: map<nat, Node>, next: nat)
    requires Tracks(p, kind, m, next) && ListParts(q, kind) == ListParts(p, kind)
    ensures Tracks(q, kind, m, next)
  {
  }

  /** Replacing the last child by a node with the same head. */
  lemma TracksReplaced(p: Partial, kind: Kind, m: map<nat, Node>, next: nat, n: Node)
    requires Tracks(p, kind, m, next) && Current(p) != [] && Last(p).value.head == n.head && !n.head.Scope?
    ensures Tracks(Replaced(p, n), kind, Note(m, n, kind), next)
  {
    hide ListIn, ListParts, Behind, Replaced, FromList, DistinctIds, WithoutLast, Note, ListOf;
    var q, x := WithoutLast(p), Last(p).value;
    LastBehind(p, n);
    ListBehind(q, [x], kind);
    ListBehind(q, [n], kind);
    OpenOne(x, kind);
    OpenOne(n, kind);
    LeafList(x, kind);
    LeafList(n, kind);
    SwapLast(ListParts(q, kind), x, n, kind, m, next);
  }

  function WithoutLast(p: Partial): Partial
    requires Current(p) != []
  {
    WithCurrent(p, Current(p)[..|Current(p)| - 1])
  }

  lemma LastBehind(p: Partial, n: Node)
    requires Current(p) != []
    ensures Behind(WithoutLast(p), [Last(p).value]) == p && Replaced(p, n) == Behind(WithoutLast(p), [n])
  {
    hide WithCurrent, Current;
    var cs := Current(p);
    var init, last := cs[..|cs| - 1], cs[|cs| - 1];
    assert init + [last] == cs && init + [n] == cs[|cs| - 1 := n];
    WithTwice(p, init, cs);
    WithTwice(p, init, init + [n]);
    WithSame(p);
  }

  lemma SwapLast(l: seq<Node>, x: Node, n: Node, kind: Kind, m: map<nat, Node>, next: nat)
    requires x.head == n.head && !n.head.Scope?
    requires var was := l + if IsKind(x.head, kind) then [x] else [];
             m == FromList(was) && DistinctIds(was) && forall y :: y in was ==> 1 <= y.head.id < next
    ensures var now := l + if IsKind(n.head, kind) then [n] else [];
            Note(m, n, kind) == FromList(now) && DistinctIds(now) && forall y :: y in now ==> 1 <= y.head.id < next
  {
    if IsKind(x.head, kind) {
      var was, now := l + [x], l + [n];
      assert was[..|l|] == l && now[..|l|] == l && was[|l|] == x && now[|l|] == n;
      assert x in was;
      assert forall i :: 0 <= i < |l| ==> was[i] == l[i] && now[i] == l[i] && l[i] in was;
    } else {
      assert l + [] == l;
    }
  }

  class HierarchyBlock {
    var header: Header
    var forest: Partial
    var vars: map<nat, Node>
    var streams: map<nat, Node>
    var nextVar: nat
    var nextStream: nat
    var target: Target

    constructor (h: Header)
      ensures header == h && forest == Partial([], []) && vars == map[] && streams == map[]
      ensures nextVar == 1 && nextStream == 1 && target == NoNode && Valid()
    {
      header, forest, vars, streams, nextVar, nextStream, target := h, Partial([], []), map[], map[], 1, 1, NoNode;
    }

    /** The maps list the tree's nodes, whose ids are distinct, and the attribute target exists. */
    ghost predicate Valid()
      reads this
    {
      && ScopesOpen(forest) && nextVar >= 1 && nextStream >= 1
      && Tracks(forest, Vars, vars, nextVar) && Tracks(forest, Streams, streams, nextStream)
      && (target.InnerScope? ==> forest.open != [])
      && (target.LastChild? ==> Current(forest) != [] && !Last(forest).value.head.Scope?)
    }

    method BeginScope(kind: byte, name: nat, component: nat, file: nat, line: nat)
      requires Valid()
      modifies this
      ensures Valid() && forest == Opened(old(forest), Node(Scope(kind, name, component, file, line), [], [], []))
      ensures target == InnerScope && header == old(header) && vars == old(vars) && streams == old(streams)
    {
      hide ListParts, Tracks;
      var scope := Node(Scope(kind, name, component, file, line), [], [], []);
      ListOpened(forest, scope, Vars);
      ListOpened(forest, scope, Streams);
      TracksSame(forest, Opened(forest, scope), Vars, vars, nextVar);
      TracksSame(forest, Opened(forest, scope), Streams, streams, nextStream);
      forest := Opened(forest, scope);
      target := InnerScope;
    }

    /** Raises when no scope is open. */
    method EndScope() returns (ok: bool)
      requires Valid()
      modifies this
      ensures Valid() && ok == (old(forest).open != [])
      ensures forest == (if ok then Close(old(forest)) else old(forest)) && Whole(forest) == Whole(old(forest))
      ensures target == if !ok then old(target) else if forest.open != [] then InnerScope else NoNode
      ensures header == old(header) && vars == old(vars) && streams == old(streams)
    {
      hide ListParts, Tracks, Close;
      if forest.open == [] {
        return false;
      }
      InnermostIsScope(forest);
      CloseKeepsScopes(forest);
      ListClosed(forest, Vars);
      ListClosed(forest, Streams);
      TracksSame(forest, Close(forest), Vars, vars, nextVar);
      TracksSame(forest, Close(forest), Streams, streams, nextStream);
      forest := Close(forest);
      target := if forest.open != [] then InnerScope else NoNode;
      ok := true;
    }

    method AddVar(name: nat, sigType: nat, dir: byte, alias: nat, file: nat, line: nat) returns (id: nat)
      requires Valid()
      modifies this
      ensures Valid() && id == old(nextVar) && id !in old(vars)
      ensures var n := Node(Var(id, name, sigType, dir, alias, file, line), [], [], []);
              forest == Behind(old(forest), [n]) && vars == old(vars)[id := n]
      ensures header == old(header) && streams == old(streams) && target == LastChild
    {
      hide Tracks, Behind;
      id := nextVar;
      nextVar := nextVar + 1;
      var n := Node(Var(id, name, sigType, dir, alias, file, line), [], [], []);
      TracksBehind(forest, Vars, vars, id, n);
      TracksOther(forest, Streams, streams, nextStream, n);
      IdIsNew(forest, Vars, vars, id);
      BehindKeeps(forest, n);
      vars := vars[id := n];
      forest := Behind(forest, [n]);
      target := LastChild;
    }

    method AddStream(streamType: nat, name: nat) returns (id: nat)
      requires Valid()
      modifies this
      ensures Valid() && id == old(nextStream) && id !in old(streams)
      ensures var n := Node(Stream(id, streamType, name), [], [], []);
              forest == Behind(old(forest), [n]) && streams == old(streams)[id := n]
      ensures header == old(header) && vars == old(vars) && target == LastChild
    {
      hide Tracks, Behind;
      id := nextStream;
      nextStream := nextStream + 1;
      var n := Node(Stream(id, streamType, name), [], [], []);
      TracksBehind(forest, Streams, streams, id, n);
      TracksOther(forest, Vars, vars, nextVar, n);
      IdIsNew(forest, Streams, streams, id);
      BehindKeeps(forest, n);
      streams := streams[id := n];
      forest := Behind(forest, [n]);
      target := LastChild;
    }

    static lemma IdIsNew(p: Partial, kind: Kind, m: map<nat, Node>, id: nat)
      requires Tracks(p, kind, m, id)
      ensures id !in m
    {
      var l := ListParts(p, kind);
      KeysFrom(l);
      assert forall i :: 0 <= i < |l| ==> l[i] in l && l[i].head.id < id;
    }

    static lemma {:induction false} KeysFrom(l: seq<Node>)
      requires DistinctIds(l)
      ensures forall id :: id in FromList(l) ==> exists i :: 0 <= i < |l| && l[i].head.id == id
    {
      if l != [] {
        var init := l[..|l| - 1];
        KeysFrom(init);
        forall id | id in FromList(l)
          ensures exists i :: 0 <= i < |l| && l[i].head.id == id
        {
          if id in FromList(init) {
            var i :| 0 <= i < |init| && init[i].head.id == id;
            assert l[i].head.id == id;
          } else {
            assert l[|l| - 1].head.id == id;
          }
        }
      }
    }

    static lemma BehindKeeps(p: Partial, n: Node)
      requires ScopesOpen(p) && !n.head.Scope?
      ensures ScopesOpen(Behind(p, [n])) && Current(Behind(p, [n])) != [] && Last(Behind(p, [n])).value == n
    {
    }

    /** The node the next attribute goes to. */
    function TargetNode(): Option<Node>
      requires Valid()
      reads this
    {
      match target
      case NoNode => None
      case InnerScope => Some(forest.open[|forest.open| - 1])
      case LastChild => Last(forest)
    }

    /** The target with other attributes: in the tree and in the maps. */
    method SetTarget(n: Node)
      requires Valid() && TargetNode().Some? && TargetNode().value.head == n.head && TargetNode().value.children == n.children
      modifies this`forest, this`vars, this`streams
      ensures Valid()
      ensures forest == if target.InnerScope? then old(forest).(open := old(forest).open[|old(forest).open| - 1 := n])
                        else Replaced(old(forest), n)
      ensures vars == Note(old(vars), n, Vars) && streams == Note(old(streams), n, Streams)
    {
      hide Tracks, ListParts;
      if target.InnerScope? {
        var k := |forest.open| - 1;
        var q := forest.(open := forest.open[k := n]);
        SameInside(forest, q, n, Vars);
        SameInside(forest, q, n, Streams);
        TracksSame(forest, q, Vars, vars, nextVar);
        TracksSame(forest, q, Streams, streams, nextStream);
        forest := q;
      } else {
        TracksReplaced(forest, Vars, vars, nextVar, n);
        TracksReplaced(forest, Streams, streams, nextStream, n);
        ReplacedTwice(forest, n, n);
        vars, streams := Note(vars, n, Vars), Note(streams, n, Streams);
        forest := Replaced(forest, n);
      }
    }

    static lemma SameInside(p: Partial, q: Partial, n: Node, kind: Kind)
      requires p.open != [] && q == p.(open := p.open[|p.open| - 1 := n]) && n.children == p.open[|p.open| - 1].children
      ensures ListParts(q, kind) == ListParts(p, kind)
    {
      var k := |p.open| - 1;
      assert q.open[..k] == p.open[..k];
      SplitOpen(p.open, kind);
      SplitOpen(q.open, kind);
    }

    /** Raises when nothing has been declared, or the last scope was closed at the top. */
    method AddAttr(key: nat, value: nat) returns (ok: bool)
      requires Valid()
      modifies this`forest, this`vars, this`streams
      ensures Valid() && ok == (old(target) != NoNode)
      ensures ok ==> TargetNode() == Some(old(TargetNode()).value.(attrs := old(TargetNode()).value.attrs + [Attr(key, value)]))
      ensures !ok ==> forest == old(forest) && vars == old(vars) && streams == old(streams)
    {
      hide Tracks;
      if target == NoNode {
        return false;
      }
      var n := TargetNode().value;
      SetTarget(n.(attrs := n.attrs + [Attr(key, value)]));
      ok := true;
    }

    method AddTypedAttr(a: TypedAttr) returns (ok: bool)
      requires Valid()
      modifies this`forest, this`vars, this`streams
      ensures Valid() && ok == (old(target) != NoNode)
      ensures ok ==> TargetNode() == Some(old(TargetNode()).value.(typed := old(TargetNode()).value.typed + [a]))
      ensures !ok ==> forest == old(forest) && vars == old(vars) && streams == old(streams)
    {
      hide Tracks;
      if target == NoNode {
        return false;
      }
      var n := TargetNode().value;
      SetTarget(n.(typed := n.typed + [a]));
      ok := true;
    }

    /** Scopes still open are printed with what they hold so far. */
    method EncodeBlock(zlib: Compressor, zstd: Compressor, f: BlockFlags) returns (payload: bytes)
      ensures payload == EncBlock(zlib, zstd, f, header, Whole(forest))
    {
      hide EncU, EncLe, EncNodes, Whole;
      var nodes := EncodeNodes(Whole(forest));
      var inner := EncU(header.id) + ([header.kind] + (EncU(header.name) + nodes));
      payload := if f.compressed then EncLe(8, |inner|) + (if f.zstd then zstd.pack(inner) else zlib.pack(inner)) else inner;
    }

    /** What was built reads back into a new block: the same tree, the same flat maps, nothing open. */
    lemma BuiltRoundTrip(zlib: Compressor, zstd: Compressor, f: BlockFlags)
      requires Valid() && Lossless(zlib) && Lossless(zstd) && HeaderOk(header) && NodesOk(Whole(forest))
      ensures DecBlock(zlib, zstd, f, EncBlock(zlib, zstd, f, header, Whole(forest)), FRESH)
           == Ok((header, Build(Partial(Whole(forest), []), vars, streams)), [])
    {
      hide EncBlock, DecBlock, Whole, NodesOk, ListParts, DistinctIds, FlatIn;
      BlockRoundTrip(zlib, zstd, f, header, Whole(forest));
      WholeLists(forest, Vars);
      WholeLists(forest, Streams);
      FlatIsList(Whole(forest), Vars);
      FlatIsList(Whole(forest), Streams);
    }

    /** The parser's loop; scopes the data leaves open stay in the tree. */
    method DecodeTagSequence(data: bytes) returns (r: Parse<Build>)
      requires forest.open == []
      modifies this
      ensures r == ParseTags(data, Build(old(forest), old(vars), old(streams)))
      ensures r.Ok? ==> forest == Partial(Whole(r.value.forest), []) && vars == r.value.vars && streams == r.value.streams
      ensures header == old(header)
    {
      hide ParseTag;
      var b, rest := Build(forest, vars, streams), data;
      while rest != []
        invariant ParseTags(data, Build(old(forest), old(vars), old(streams))) == ParseTags(rest, b)
        invariant header == old(header)
        decreases |rest|
      {
        match ParseTag(rest[0], rest[1..], b) {
          case Raise(fault) => return Fail(fault);
          case Stop => break;
          case Next(b', s) => b, rest := b', s;
        }
      }
      forest, vars, streams := Partial(Whole(b.forest), []), b.vars, b.streams;
      r := Ok(b, rest);
    }

    method ReadBlock(zlib: Compressor, zstd: Compressor, f: BlockFlags, payload: bytes) returns (r: Parse<(Header, Build)>)
      requires forest.open == []
      modifies this
      ensures r == DecBlock(zlib, zstd, f, payload, Build(old(forest), old(vars), old(streams)))
      ensures r.Ok? ==> header == r.value.0 && forest == Partial(Whole(r.value.1.forest), [])
      ensures r.Ok? ==> vars == r.value.1.vars && streams == r.value.1.streams
    {
      hide DecU, ParseTags, Whole;
      var inner := payload;
      if f.compressed {
        var unpacked := if f.zstd then zstd.unpack(From(payload, 8)) else zlib.unpack(From(payload, 8));
        if unpacked.None? {
          return Fail(Corrupt);
        }
        inner := unpacked.value;
      }
      var id :- DecU(inner);
      var kind :- DecByte(id.1);
      if !HierKind(kind.0) {
        return Fail(BadTag);
      }
      var name :- DecU(kind.1);
      header := Header(id.0, kind.0, name.0);
      var tags := DecodeTagSequence(name.1);
      r := match tags case Fail(fault) => Fail(fault) case Ok(b, rest) => Ok((header, b), rest);
    }
  }
}
