/** Hierarchies: the recursive printer `_encode_node` and the stack parser `_decode_tag_sequence` of
    `python/src/trlog/_hierarchy.py`. */
module Hierarchy {
  import opened Bytes
  import opened Varint
  import opened TypedAttrs

  datatype Attr = Attr(key: nat, value: nat)

  datatype Head =
    | Scope(kind: byte, name: nat, component: nat, file: nat, line: nat)
    | Var(id: nat, name: nat, sigType: nat, dir: byte, alias: nat, file: nat, line: nat)
    | Stream(id: nat, streamType: nat, name: nat)

  /** Only scopes have children. */
  datatype Node = Node(head: Head, attrs: seq<Attr>, typed: seq<TypedAttr>, children: seq<Node>)

  predicate ScopeKind(b: byte) {
    b <= 0x0C || b == 0xFF
  }

  predicate VarDir(b: byte) {
    b <= 4
  }

  // ---- Printing ----

  predicate HeadOk(h: Head) {
    match h
    case Scope(kind, name, component, file, line) =>
      ScopeKind(kind) && name < LIMIT && component < LIMIT && file < LIMIT && line < LIMIT
    case Var(id, name, sigType, dir, alias, file, line) =>
      id < LIMIT && name < LIMIT && sigType < LIMIT && VarDir(dir) && alias < LIMIT && file < LIMIT && line < LIMIT
    case Stream(id, streamType, name) => id < LIMIT && streamType < LIMIT && name < LIMIT
  }

  predicate AttrsOk(attrs: seq<Attr>) {
    forall i :: 0 <= i < |attrs| ==> attrs[i].key < LIMIT && attrs[i].value < LIMIT
  }

  predicate TypedOk(typed: seq<TypedAttr>) {
    forall i :: 0 <= i < |typed| ==> AttrOk(typed[i])
  }

  /** Numbers fit varints, enumerations hold members. */
  predicate NodeOk(n: Node)
    decreases n, 0
  {
    HeadOk(n.head) && AttrsOk(n.attrs) && TypedOk(n.typed) && (if n.head.Scope? then NodesOk(n.children) else n.children == [])
  }

  predicate NodesOk(ns: seq<Node>)
    decreases ns, 1
  {
    ns == [] || (NodeOk(ns[0]) && NodesOk(ns[1..]))
  }

  function EncAttr(a: Attr): bytes {
    [0x05] + (EncU(a.key) + EncU(a.value))
  }

  function EncAttrs(attrs: seq<Attr>): bytes {
    if attrs == [] then [] else EncAttr(attrs[0]) + EncAttrs(attrs[1..])
  }

  function EncTypedAttrs(typed: seq<TypedAttr>): bytes {
    if typed == [] then [] else ([0x06] + EncTyped(typed[0])) + EncTypedAttrs(typed[1..])
  }

  /** The tag and the numbers of a node. */
  function EncHead(h: Head): bytes {
    match h
    case Scope(kind, name, component, file, line) =>
      [0x01] + ([kind] + (EncU(name) + (EncU(component) + (EncU(file) + EncU(line)))))
    case Var(id, name, sigType, dir, alias, file, line) =>
      [0x03] + (EncU(id) + (EncU(name) + (EncU(sigType) + ([dir] + (EncU(alias) + (EncU(file) + EncU(line)))))))
    case Stream(id, streamType, name) =>
      [0x04] + (EncU(id) + (EncU(streamType) + EncU(name)))
  }

  function EncNode(n: Node): bytes
    decreases n, 0
  {
    EncHead(n.head) + (EncAttrs(n.attrs) + (EncTypedAttrs(n.typed) + if n.head.Scope? then EncNodes(n.children) + [0x02] else []))
  }

  function EncNodes(ns: seq<Node>): bytes
    decreases ns, 1
  {
    if ns == [] then [] else EncNode(ns[0]) + EncNodes(ns[1..])
  }

  // ---- The parser's state ----

  /** A forest under construction: the closed top-level nodes, and the open scopes from the outermost in,
      each with its closed children. */
  datatype Partial = Partial(root: seq<Node>, open: seq<Node>)

  /** What attributes attach to and new nodes go behind: the children of the innermost open scope. */
  function Current(p: Partial): seq<Node> {
    if p.open == [] then p.root else p.open[|p.open| - 1].children
  }

  function WithCurrent(p: Partial, children: seq<Node>): (r: Partial)
    ensures Current(r) == children && |r.open| == |p.open|
  {
    if p.open == [] then p.(root := children)
    else p.(open := p.open[|p.open| - 1 := p.open[|p.open| - 1].(children := children)])
  }

  /** The forest and the flat maps by id. */
  datatype Build = Build(forest: Partial, vars: map<nat, Node>, streams: map<nat, Node>)

  const FRESH: Build := Build(Partial([], []), map[], map[])

  datatype Kind = Vars | Streams

  predicate IsKind(h: Head, kind: Kind) {
    match kind case Vars => h.Var? case Streams => h.Stream?
  }

  function Note(m: map<nat, Node>, n: Node, kind: Kind): map<nat, Node> {
    if IsKind(n.head, kind) then m[n.head.id := n] else m
  }

  function Opened(p: Partial, n: Node): Partial {
    p.(open := p.open + [n])
  }

  function Behind(p: Partial, ns: seq<Node>): Partial {
    WithCurrent(p, Current(p) + ns)
  }

  /** A new node goes behind the current children; a scope is opened instead. */
  function Declare(b: Build, n: Node): Build {
    if n.head.Scope? then b.(forest := Opened(b.forest, n))
    else Build(Behind(b.forest, [n]), Note(b.vars, n, Vars), Note(b.streams, n, Streams))
  }

  /** The innermost scope is closed. */
  function Close(p: Partial): Partial
    requires p.open != []
  {
    Behind(p.(open := p.open[..|p.open| - 1]), [p.open[|p.open| - 1]])
  }

  /** The last child of the innermost scope, or that scope itself while it has none. */
  function Last(p: Partial): Option<Node> {
    var cs := Current(p);
    if cs != [] then Some(cs[|cs| - 1])
    else if p.open != [] then Some(p.open[|p.open| - 1])
    else None
  }

  function Replaced(p: Partial, n: Node): Partial
    requires Last(p).Some?
  {
    var cs := Current(p);
    if cs != [] then WithCurrent(p, cs[|cs| - 1 := n]) else p.(open := p.open[|p.open| - 1 := n])
  }

  /** The last node changes; the maps hold the same node. */
  function SetLast(b: Build, n: Node): Build
    requires Last(b.forest).Some?
  {
    Build(Replaced(b.forest, n), Note(b.vars, n, Vars), Note(b.streams, n, Streams))
  }

  // ---- Parsing ----

  datatype Outcome = Next(state: Build, rest: bytes) | Stop | Raise(fault: Fault)

  function ReadScope(s: bytes): (r: Parse<Head>)
    ensures r.Ok? ==> |r.rest| <= |s|
  {
    var (kind, s1) :- DecByte(s);
    if !ScopeKind(kind) then Fail(BadTag)
    else
      var (name, s2) :- DecU(s1);
      var (component, s3) :- DecU(s2);
      var (file, s4) :- DecU(s3);
      var (line, rest) :- DecU(s4);
      Ok(Scope(kind, name, component, file, line), rest)
  }

  function ReadVar(s: bytes): (r: Parse<Head>)
    ensures r.Ok? ==> |r.rest| <= |s|
  {
    var (id, s1) :- DecU(s);
    var (name, s2) :- DecU(s1);
    var (sigType, s3) :- DecU(s2);
    var (dir, s4) :- DecByte(s3);
    if !VarDir(dir) then Fail(BadTag)
    else
      var (alias, s5) :- DecU(s4);
      var (file, s6) :- DecU(s5);
      var (line, rest) :- DecU(s6);
      Ok(Var(id, name, sigType, dir, alias, file, line), rest)
  }

  function ReadStream(s: bytes): (r: Parse<Head>)
    ensures r.Ok? ==> |r.rest| <= |s|
  {
    var (id, s1) :- DecU(s);
    var (streamType, s2) :- DecU(s1);
    var (name, rest) :- DecU(s2);
    Ok(Stream(id, streamType, name), rest)
  }

  function ReadAttr(s: bytes): (r: Parse<Attr>)
    ensures r.Ok? ==> |r.rest| <= |s|
  {
    var (key, s1) :- DecU(s);
    var (value, rest) :- DecU(s1);
    Ok(Attr(key, value), rest)
  }

  function Declared(b: Build, p: Parse<Head>): Outcome {
    match p case Fail(f) => Raise(f) case Ok(h, rest) => Next(Declare(b, Node(h, [], [], [])), rest)
  }

  /** An attribute without any node to attach to raises. */
  function AttrRead(b: Build, p: Parse<Attr>): Outcome {
    match p
    case Fail(f) => Raise(f)
    case Ok(a, rest) =>
      match Last(b.forest)
      case None => Raise(Corrupt)
      case Some(n) => Next(SetLast(b, n.(attrs := n.attrs + [a])), rest)
  }

  function TypedRead(b: Build, p: Parse<TypedAttr>): Outcome {
    match p
    case Fail(f) => Raise(f)
    case Ok(a, rest) =>
      match Last(b.forest)
      case None => Raise(Corrupt)
      case Some(n) => Next(SetLast(b, n.(typed := n.typed + [a])), rest)
  }

  function Upscope(b: Build, s: bytes): Outcome {
    if b.forest.open == [] then Raise(Corrupt) else Next(b.(forest := Close(b.forest)), s)
  }

  /** One tag; an unknown one stops the parser. */
  function ParseTag(tag: byte, s: bytes, b: Build): (r: Outcome)
    ensures r.Next? ==> |r.rest| <= |s|
  {
    match tag
    case 0x01 => Declared(b, ReadScope(s))
    case 0x02 => Upscope(b, s)
    case 0x03 => Declared(b, ReadVar(s))
    case 0x04 => Declared(b, ReadStream(s))
    case 0x05 => AttrRead(b, ReadAttr(s))
    case 0x06 => TypedRead(b, DecTyped(s))
    case _ => Stop
  }

  /** The tag sequence to the end of the data. */
  function ParseTags(s: bytes, b: Build): Parse<Build>
    decreases |s|
  {
    if s == [] then Ok(b, [])
    else
      match ParseTag(s[0], s[1..], b)
      case Raise(f) => Fail(f)
      case Stop => Ok(b, s)
      case Next(b', rest) => ParseTags(rest, b')
  }

  // ---- The flat maps of a forest ----

  function FlatOf(n: Node, kind: Kind): map<nat, Node>
    decreases n, 0
  {
    if n.head.Scope? then FlatIn(n.children, kind)
    else if IsKind(n.head, kind) then map[n.head.id := n]
    else map[]
  }

  /** Of equal ids the later one in document order stays. */
  function FlatIn(ns: seq<Node>, kind: Kind): map<nat, Node>
    decreases ns, 1
  {
    if ns == [] then map[] else FlatOf(ns[0], kind) + FlatIn(ns[1..], kind)
  }

  /** A forest behind the current children, its nodes in the maps. */
  function Added(b: Build, ns: seq<Node>): Build {
    Build(Behind(b.forest, ns), b.vars + FlatIn(ns, Vars), b.streams + FlatIn(ns, Streams))
  }

  // ---- Laws of the state ----

  lemma WithTwice(p: Partial, x: seq<Node>, y: seq<Node>)
    ensures WithCurrent(WithCurrent(p, x), y) == WithCurrent(p, y)
  {
    if p.open != [] {
      var k := |p.open| - 1;
      var q := WithCurrent(p, x);
      assert q.open[k := q.open[k].(children := y)] == p.open[k := p.open[k].(children := y)];
    }
  }

  lemma WithSame(p: Partial)
    ensures WithCurrent(p, Current(p)) == p
  {
    if p.open != [] {
      var k := |p.open| - 1;
      assert p.open[k := p.open[k]] == p.open;
    }
  }

  lemma BehindTwice(p: Partial, x: seq<Node>, y: seq<Node>)
    ensures Behind(Behind(p, x), y) == Behind(p, x + y) && Behind(p, []) == p
  {
    hide WithCurrent, Current;
    assert (Current(p) + x) + y == Current(p) + (x + y);
    WithTwice(p, Current(p) + x, Current(p) + (x + y));
    assert Current(p) + [] == Current(p);
    WithSame(p);
  }

  lemma ReplacedBehind(p: Partial, m: Node, n: Node)
    ensures Last(Behind(p, [m])) == Some(m) && Replaced(Behind(p, [m]), n) == Behind(p, [n])
    ensures Current(Behind(p, [m])) != []
  {
    hide WithCurrent, Current;
    var cs := Current(p);
    assert (cs + [m])[|cs| := n] == cs + [n];
    WithTwice(p, cs + [m], cs + [n]);
  }

  lemma ReplacedOpened(p: Partial, m: Node, n: Node)
    requires m.children == []
    ensures Current(Opened(p, m)) == [] && Last(Opened(p, m)) == Some(m) && Replaced(Opened(p, m), n) == Opened(p, n)
  {
    assert (p.open + [m])[|p.open| := n] == p.open + [n];
  }

  lemma CloseFilled(p: Partial, m: Node)
    requires m.children == []
    ensures forall ns: seq<Node> :: Behind(Opened(p, m), ns).open != [] && Close(Behind(Opened(p, m), ns)) == Behind(p, [m.(children := ns)])
  {
    forall ns: seq<Node>
      ensures Behind(Opened(p, m), ns).open != [] && Close(Behind(Opened(p, m), ns)) == Behind(p, [m.(children := ns)])
    {
      assert [] + ns == ns;
      var q := Behind(Opened(p, m), ns);
      assert q.open == p.open + [m.(children := ns)];
      assert q.open[..|q.open| - 1] == p.open;
    }
  }

  lemma AddedTwice(b: Build, ns: seq<Node>)
    requires ns != []
    ensures Added(Added(b, [ns[0]]), ns[1..]) == Added(b, ns)
  {
    hide Behind, FlatOf;
    assert [ns[0]] + ns[1..] == ns;
    BehindTwice(b.forest, [ns[0]], ns[1..]);
    OneNode(ns[0]);
    assert b.vars + FlatIn(ns, Vars) == (b.vars + FlatOf(ns[0], Vars)) + FlatIn(ns[1..], Vars);
    assert b.streams + FlatIn(ns, Streams) == (b.streams + FlatOf(ns[0], Streams)) + FlatIn(ns[1..], Streams);
  }

  lemma OneNode(n: Node)
    ensures FlatIn([n], Vars) == FlatOf(n, Vars) && FlatIn([n], Streams) == FlatOf(n, Streams)
  {
    assert FlatIn([n], Vars) == FlatOf(n, Vars) + map[] && FlatIn([n], Streams) == FlatOf(n, Streams) + map[];
  }

  // ---- The parser on printed attributes ----

  /** The maps know the last node. */
  predicate Noted(b: Build, n: Node) {
    Last(b.forest) == Some(n) && Note(b.vars, n, Vars) == b.vars && Note(b.streams, n, Streams) == b.streams
  }

  /** Changing the attributes of the last node, once or twice. */
  lemma SetLastLaws(b: Build, x: Node, m: Node, n: Node)
    requires Noted(b, x) && m.head == x.head && n.head == x.head
    requires Current(b.forest) == [] ==> m.children == [] && n.children == []
    ensures Noted(SetLast(b, m), m) && SetLast(b, x) == b && SetLast(SetLast(b, m), n) == SetLast(b, n)
    ensures Current(SetLast(b, m).forest) == [] ==> Current(b.forest) == []
  {
    ReplacedTwice(b.forest, m, n);
    ReplacedSame(b.forest);
  }

  lemma ReplacedTwice(p: Partial, m: Node, n: Node)
    requires Last(p).Some? && (Current(p) == [] ==> m.children == [] && n.children == [])
    ensures Last(Replaced(p, m)) == Some(m) && Replaced(Replaced(p, m), n) == Replaced(p, n)
    ensures Current(Replaced(p, m)) == [] ==> Current(p) == []
  {
    var cs := Current(p);
    if cs != [] {
      assert cs[|cs| - 1 := m][|cs| - 1 := n] == cs[|cs| - 1 := n];
      WithTwice(p, cs[|cs| - 1 := m], cs[|cs| - 1 := n]);
    } else {
      var k := |p.open| - 1;
      assert p.open[k := m][k := n] == p.open[k := n];
    }
  }

  lemma ReplacedSame(p: Partial)
    requires Last(p).Some?
    ensures Replaced(p, Last(p).value) == p
  {
    var cs := Current(p);
    if cs != [] {
      assert cs[|cs| - 1 := cs[|cs| - 1]] == cs;
      WithSame(p);
    } else {
      assert p.open[|p.open| - 1 := p.open[|p.open| - 1]] == p.open;
    }
  }

  lemma AttrReads(a: Attr, t: bytes)
    requires a.key < LIMIT && a.value < LIMIT
    ensures EncAttr(a) + t != [] && (EncAttr(a) + t)[0] == 0x05 && ReadAttr((EncAttr(a) + t)[1..]) == Ok(a, t)
  {
    hide EncU, DecU;
    assert (EncAttr(a) + t)[1..] == EncU(a.key) + (EncU(a.value) + t);
    URoundTrip(a.key, EncU(a.value) + t);
    URoundTrip(a.value, t);
  }

  lemma AttrParses(a: Attr, t: bytes, b: Build, n: Node)
    requires a.key < LIMIT && a.value < LIMIT && Last(b.forest) == Some(n)
    ensures ParseTags(EncAttr(a) + t, b) == ParseTags(t, SetLast(b, n.(attrs := n.attrs + [a])))
  {
    hide Last, SetLast, EncAttr, ReadAttr;
    AttrReads(a, t);
  }

  lemma TypedParses(a: TypedAttr, t: bytes, b: Build, n: Node)
    requires AttrOk(a) && Last(b.forest) == Some(n)
    ensures ParseTags(([0x06] + EncTyped(a)) + t, b) == ParseTags(t, SetLast(b, n.(typed := n.typed + [a])))
  {
    hide Last, SetLast, EncTyped, DecTyped, AttrOk;
    var s := ([0x06] + EncTyped(a)) + t;
    assert s[0] == 0x06 && s[1..] == EncTyped(a) + t;
    TypedRoundTrip(a, t);
  }

  lemma {:induction false} AttrsParse(attrs: seq<Attr>, t: bytes, b: Build, n: Node)
    requires Noted(b, n) && AttrsOk(attrs) && (Current(b.forest) == [] ==> n.children == [])
    ensures ParseTags(EncAttrs(attrs) + t, b) == ParseTags(t, SetLast(b, n.(attrs := n.attrs + attrs)))
    decreases |attrs|
  {
    hide Noted, Last, SetLast, EncAttr, Current, ParseTags;
    var whole := n.(attrs := n.attrs + attrs);
    LastNoted(b, n);
    if attrs == [] {
      assert whole == n && [] + t == t;
      SetLastLaws(b, n, n, n);
    } else {
      var a, more := EncAttr(attrs[0]), EncAttrs(attrs[1..]);
      var m := n.(attrs := n.attrs + [attrs[0]]);
      assert EncAttrs(attrs) + t == a + (more + t);
      AttrParses(attrs[0], more + t, b, n);
      SetLastLaws(b, n, m, whole);
      AttrsParse(attrs[1..], t, SetLast(b, m), m);
      assert m.attrs + attrs[1..] == n.attrs + attrs;
    }
  }

  lemma LastNoted(b: Build, n: Node)
    requires Noted(b, n)
    ensures Last(b.forest) == Some(n)
  {
  }

  lemma {:induction false} TypedParse(typed: seq<TypedAttr>, t: bytes, b: Build, n: Node)
    requires Noted(b, n) && TypedOk(typed) && (Current(b.forest) == [] ==> n.children == [])
    ensures ParseTags(EncTypedAttrs(typed) + t, b) == ParseTags(t, SetLast(b, n.(typed := n.typed + typed)))
    decreases |typed|
  {
    hide Noted, Last, SetLast, EncTyped, Current, AttrOk, ParseTags;
    var whole := n.(typed := n.typed + typed);
    LastNoted(b, n);
    if typed == [] {
      assert whole == n && [] + t == t;
      SetLastLaws(b, n, n, n);
    } else {
      var a, more := [0x06] + EncTyped(typed[0]), EncTypedAttrs(typed[1..]);
      var m := n.(typed := n.typed + [typed[0]]);
      assert EncTypedAttrs(typed) + t == a + (more + t);
      TypedParses(typed[0], more + t, b, n);
      SetLastLaws(b, n, m, whole);
      TypedParse(typed[1..], t, SetLast(b, m), m);
      assert m.typed + typed[1..] == n.typed + typed;
    }
  }

  /** Both kinds of attributes, behind a node just declared. */
  lemma DecorParses(n: Node, t: bytes, b: Build, bare: Node)
    requires Noted(b, bare) && bare == Node(n.head, [], [], []) && n.children == [] && AttrsOk(n.attrs) && TypedOk(n.typed)
    ensures ParseTags(EncAttrs(n.attrs) + (EncTypedAttrs(n.typed) + t), b) == ParseTags(t, SetLast(b, n))
  {
    hide Noted, Last, SetLast, Current, ParseTags, EncAttrs, EncTypedAttrs, AttrsOk, TypedOk;
    var half := bare.(attrs := n.attrs);
    assert [] + n.attrs == n.attrs && [] + n.typed == n.typed;
    LastNoted(b, bare);
    AttrsParse(n.attrs, EncTypedAttrs(n.typed) + t, b, bare);
    SetLastLaws(b, bare, half, n);
    TypedParse(n.typed, t, SetLast(b, half), half);
  }

  // ---- The parser on printed nodes ----

  lemma ScopeReads(h: Head, t: bytes)
    requires h.Scope? && HeadOk(h)
    ensures EncHead(h) + t != [] && (EncHead(h) + t)[0] == 0x01 && ReadScope((EncHead(h) + t)[1..]) == Ok(h, t)
  {
    hide EncU, DecU;
    var a, b, c, d := EncU(h.name), EncU(h.component), EncU(h.file), EncU(h.line);
    assert (EncHead(h) + t)[1..] == [h.kind] + (a + (b + (c + (d + t))));
    URoundTrip(h.name, b + (c + (d + t)));
    URoundTrip(h.component, c + (d + t));
    URoundTrip(h.file, d + t);
    URoundTrip(h.line, t);
  }

  lemma VarReads(h: Head, t: bytes)
    requires h.Var? && HeadOk(h)
    ensures EncHead(h) + t != [] && (EncHead(h) + t)[0] == 0x03 && ReadVar((EncHead(h) + t)[1..]) == Ok(h, t)
  {
    hide EncU, DecU;
    var a, b, c, d, e, f := EncU(h.id), EncU(h.name), EncU(h.sigType), EncU(h.alias), EncU(h.file), EncU(h.line);
    assert (EncHead(h) + t)[1..] == a + (b + (c + ([h.dir] + (d + (e + (f + t))))));
    URoundTrip(h.id, b + (c + ([h.dir] + (d + (e + (f + t))))));
    URoundTrip(h.name, c + ([h.dir] + (d + (e + (f + t)))));
    URoundTrip(h.sigType, [h.dir] + (d + (e + (f + t))));
    assert ([h.dir] + (d + (e + (f + t))))[1..] == d + (e + (f + t));
    URoundTrip(h.alias, e + (f + t));
    URoundTrip(h.file, f + t);
    URoundTrip(h.line, t);
  }

  lemma StreamReads(h: Head, t: bytes)
    requires h.Stream? && HeadOk(h)
    ensures EncHead(h) + t != [] && (EncHead(h) + t)[0] == 0x04 && ReadStream((EncHead(h) + t)[1..]) == Ok(h, t)
  {
    hide EncU, DecU;
    var a, b, c := EncU(h.id), EncU(h.streamType), EncU(h.name);
    assert (EncHead(h) + t)[1..] == a + (b + (c + t));
    URoundTrip(h.id, b + (c + t));
    URoundTrip(h.streamType, c + t);
    URoundTrip(h.name, t);
  }

  lemma HeadParses(h: Head, t: bytes, b: Build)
    requires HeadOk(h)
    ensures ParseTags(EncHead(h) + t, b) == ParseTags(t, Declare(b, Node(h, [], [], [])))
  {
    hide EncHead, ReadScope, ReadVar, ReadStream, Declare, HeadOk;
    match h
    case Scope(_, _, _, _, _) => ScopeReads(h, t);
    case Var(_, _, _, _, _, _, _) => VarReads(h, t);
    case Stream(_, _, _) => StreamReads(h, t);
  }

  lemma JustDeclared(b: Build, bare: Node)
    requires bare.children == []
    ensures Noted(Declare(b, bare), bare)
  {
    hide Behind, Opened, Last;
    if bare.head.Scope? {
      ReplacedOpened(b.forest, bare, bare);
    } else {
      ReplacedBehind(b.forest, bare, bare);
    }
  }

  lemma LeafAdded(b: Build, bare: Node, n: Node)
    requires !n.head.Scope? && bare.head == n.head
    ensures Last(Declare(b, bare).forest).Some? && SetLast(Declare(b, bare), n) == Added(b, [n])
  {
    hide Behind, Replaced, Last;
    ReplacedBehind(b.forest, bare, n);
    OneNode(n);
    assert Note(Note(b.vars, bare, Vars), n, Vars) == b.vars + FlatOf(n, Vars);
    assert Note(Note(b.streams, bare, Streams), n, Streams) == b.streams + FlatOf(n, Streams);
  }

  lemma ScopeOpened(b: Build, bare: Node, n: Node)
    requires n.head.Scope? && bare.head == n.head && bare.children == []
    ensures Last(Declare(b, bare).forest).Some? && SetLast(Declare(b, bare), n) == b.(forest := Opened(b.forest, n))
  {
    hide Opened, Replaced, Last;
    ReplacedOpened(b.forest, bare, n);
  }

  /** Filled with its children and closed, a scope has been added. */
  lemma ScopeAdded(b: Build, n: Node)
    requires n.head.Scope?
    ensures var full := Added(b.(forest := Opened(b.forest, n.(children := []))), n.children);
            full.forest.open != [] && full.(forest := Close(full.forest)) == Added(b, [n])
  {
    hide Behind, Opened, Close, FlatIn;
    CloseFilled(b.forest, n.(children := []));
    OneNode(n);
    assert n.(children := []).(children := n.children) == n;
  }

  lemma UpscopeParses(t: bytes, b: Build)
    requires b.forest.open != []
    ensures ParseTags([0x02] + t, b) == ParseTags(t, b.(forest := Close(b.forest)))
  {
    hide Close;
    assert ([0x02] + t)[1..] == t;
  }

  /** The parser takes a printed node for what it was, in any state and before any continuation. */
  lemma {:induction false} NodeParses(n: Node, t: bytes, b: Build)
    requires NodeOk(n)
    ensures ParseTags(EncNode(n) + t, b) == ParseTags(t, Added(b, [n]))
    decreases n, 0
  {
    hide EncHead, EncAttrs, EncTypedAttrs, ParseTags, Declare, SetLast, Added, Last, HeadOk, AttrsOk, TypedOk, Close, Opened, Noted;
    var bare := Node(n.head, [], [], []);
    var tail := (if n.head.Scope? then EncNodes(n.children) + [0x02] else []) + t;
    assert EncNode(n) + t == EncHead(n.head) + (EncAttrs(n.attrs) + (EncTypedAttrs(n.typed) + tail));
    HeadParses(n.head, EncAttrs(n.attrs) + (EncTypedAttrs(n.typed) + tail), b);
    JustDeclared(b, bare);
    if n.head.Scope? {
      ScopeParses(n, bare, tail, t, b);
    } else {
      assert tail == t;
      DecorParses(n, t, Declare(b, bare), bare);
      LeafAdded(b, bare, n);
    }
  }

  lemma {:induction false} ScopeParses(n: Node, bare: Node, tail: bytes, t: bytes, b: Build)
    requires NodeOk(n) && n.head.Scope? && bare == Node(n.head, [], [], []) && Noted(Declare(b, bare), bare)
    requires tail == (EncNodes(n.children) + [0x02]) + t
    ensures ParseTags(EncAttrs(n.attrs) + (EncTypedAttrs(n.typed) + tail), Declare(b, bare)) == ParseTags(t, Added(b, [n]))
    decreases n, 0, 0
  {
    hide EncHead, EncAttrs, EncTypedAttrs, ParseTags, Declare, SetLast, Added, Last, HeadOk, AttrsOk, TypedOk, Close, Opened, Noted;
    var empty := n.(children := []);
    DecorParses(empty, tail, Declare(b, bare), bare);
    ScopeOpened(b, bare, empty);
    var o := b.(forest := Opened(b.forest, empty));
    assert tail == EncNodes(n.children) + ([0x02] + t);
    NodesParse(n.children, [0x02] + t, o);
    ScopeAdded(b, n);
    UpscopeParses(t, Added(o, n.children));
  }

  lemma {:induction false} NodesParse(ns: seq<Node>, t: bytes, b: Build)
    requires NodesOk(ns)
    ensures ParseTags(EncNodes(ns) + t, b) == ParseTags(t, Added(b, ns))
    decreases ns, 1
  {
    hide EncNode, ParseTags, Added, NodeOk;
    if ns == [] {
      AddedNothing(b);
      assert [] + t == t;
    } else {
      assert EncNodes(ns) + t == EncNode(ns[0]) + (EncNodes(ns[1..]) + t);
      NodeParses(ns[0], EncNodes(ns[1..]) + t, b);
      NodesParse(ns[1..], t, Added(b, [ns[0]]));
      AddedTwice(b, ns);
    }
  }

  lemma AddedNothing(b: Build)
    ensures Added(b, []) == b
  {
    hide Behind;
    BehindTwice(b.forest, [], []);
    assert b.vars + map[] == b.vars && b.streams + map[] == b.streams;
  }

  /** Parsing a printed forest gives the forest back, every attribute on its own node; the scope stack
      ends empty and the flat maps are those of the forest. */
  lemma TreeRoundTrip(ns: seq<Node>)
    requires NodesOk(ns)
    ensures ParseTags(EncNodes(ns), FRESH) == Ok(Build(Partial(ns, []), FlatIn(ns, Vars), FlatIn(ns, Streams)), [])
  {
    hide EncNodes, FlatIn, NodesOk;
    assert EncNodes(ns) + [] == EncNodes(ns);
    NodesParse(ns, [], FRESH);
    assert [] + ns == ns && map[] + FlatIn(ns, Vars) == FlatIn(ns, Vars) && map[] + FlatIn(ns, Streams) == FlatIn(ns, Streams);
  }

  // ---- What the maps list ----

  /** The variables, or the streams, of a forest in document order. */
  function ListIn(ns: seq<Node>, kind: Kind): seq<Node>
    decreases ns, 1
  {
    if ns == [] then [] else ListOf(ns[0], kind) + ListIn(ns[1..], kind)
  }

  function ListOf(n: Node, kind: Kind): seq<Node>
    decreases n, 0
  {
    if n.head.Scope? then ListIn(n.children, kind) else if IsKind(n.head, kind) then [n] else []
  }

  ghost predicate DistinctIds(ns: seq<Node>) {
    (forall i :: 0 <= i < |ns| ==> !ns[i].head.Scope?) &&
    forall i, j :: 0 <= i < j < |ns| ==> ns[i].head.id != ns[j].head.id
  }

  /** The map holds the listed nodes under their ids, and nothing else. */
  ghost predicate Lists(m: map<nat, Node>, ns: seq<Node>) {
    (forall i :: 0 <= i < |ns| ==> !ns[i].head.Scope? && ns[i].head.id in m && m[ns[i].head.id] == ns[i]) &&
    forall id :: id in m ==> m[id] in ns && !m[id].head.Scope? && m[id].head.id == id
  }

  lemma ListsJoin(a: map<nat, Node>, b: map<nat, Node>, x: seq<Node>, y: seq<Node>)
    requires Lists(a, x) && Lists(b, y) && DistinctIds(x + y)
    ensures Lists(a + b, x + y)
  {
    var all := x + y;
    assert forall i :: 0 <= i < |all| ==> all[i] == if i < |x| then x[i] else y[i - |x|];
    forall i | 0 <= i < |x|
      ensures x[i].head.id !in b
    {
      NotAmong(x[i].head.id, b, y, all, i, |x|);
    }
  }

  lemma NotAmong(id: nat, b: map<nat, Node>, y: seq<Node>, all: seq<Node>, i: nat, k: nat)
    requires Lists(b, y) && DistinctIds(all) && i < k && k + |y| == |all| && all[k..] == y && all[i].head.id == id
    ensures id !in b
  {
    assert forall m :: 0 <= m < |y| ==> y[m] == all[k + m] && y[m].head.id != id;
  }

  lemma DistinctParts(x: seq<Node>, y: seq<Node>)
    requires DistinctIds(x + y)
    ensures DistinctIds(x) && DistinctIds(y)
  {
    var all := x + y;
    assert forall i :: 0 <= i < |x| ==> all[i] == x[i];
    assert forall i :: 0 <= i < |y| ==> all[|x| + i] == y[i];
  }

  /** When no id comes twice, a flat map lists exactly the forest's nodes of its kind. */
  lemma {:induction false} MapLists(ns: seq<Node>, kind: Kind)
    requires DistinctIds(ListIn(ns, kind))
    ensures Lists(FlatIn(ns, kind), ListIn(ns, kind))
    decreases ns, 1
  {
    hide DistinctIds, Lists;
    if ns == [] {
      NothingListed();
    } else {
      DistinctParts(ListOf(ns[0], kind), ListIn(ns[1..], kind));
      NodeLists(ns[0], kind);
      MapLists(ns[1..], kind);
      ListsJoin(FlatOf(ns[0], kind), FlatIn(ns[1..], kind), ListOf(ns[0], kind), ListIn(ns[1..], kind));
    }
  }

  lemma NothingListed()
    ensures Lists(map[], [])
  {
  }

  lemma {:induction false} NodeLists(n: Node, kind: Kind)
    requires DistinctIds(ListOf(n, kind))
    ensures Lists(FlatOf(n, kind), ListOf(n, kind))
    decreases n, 0
  {
    if n.head.Scope? {
      hide DistinctIds, Lists;
      MapLists(n.children, kind);
    }
  }
}
