/**
 Sanitizing in place, as the program does it on the parser's nodes. A shape says which nodes make up a tree; reading
 it gives the tree of Yaml, and each method is proved to leave exactly the tree that the function there describes.
 */
module Sanitizer {
  import opened Models
  import opened Yaml
  import Text

  class YamlNode {
    var kind: Kind
    var tag: string
    var value: string
    var content: seq<YamlNode>

    constructor (kind: Kind, tag: string, value: string, content: seq<YamlNode>)
      ensures this.kind == kind && this.tag == tag && this.value == value && this.content == content
    {
      this.kind, this.tag, this.value, this.content := kind, tag, value, content;
    }
  }

  datatype Shape = Shape(node: YamlNode, kids: seq<Shape>)

  function Leaf(n: YamlNode): Shape { Shape(n, []) }

  function Roots(kids: seq<Shape>): (r: seq<YamlNode>)
    ensures |r| == |kids| && forall i :: 0 <= i < |kids| ==> r[i] == kids[i].node
  {
    seq(|kids|, i requires 0 <= i < |kids| => kids[i].node)
  }

  ghost function Nodes(s: Shape): set<YamlNode> {
    {s.node} + set i, n | 0 <= i < |s.kids| && n in Nodes(s.kids[i]) :: n
  }

  /** No node occurs twice. */
  ghost predicate Apart(s: Shape) {
    && (forall i :: 0 <= i < |s.kids| ==> s.node !in Nodes(s.kids[i]) && Apart(s.kids[i]))
    && (forall i, j :: 0 <= i < j < |s.kids| ==> Nodes(s.kids[i]) !! Nodes(s.kids[j]))
  }

  /** The nodes are linked as the shape says. */
  ghost predicate Laid(s: Shape)
    reads Nodes(s)
  {
    s.node.content == Roots(s.kids) && forall i :: 0 <= i < |s.kids| ==> Laid(s.kids[i])
  }

  ghost function Read(s: Shape): Tree
    reads Nodes(s)
  {
    Tree(s.node.kind, s.node.tag, s.node.value, ReadAll(s.kids))
  }

  ghost function ReadAll(kids: seq<Shape>): (r: seq<Tree>)
    reads set i, n | 0 <= i < |kids| && n in Nodes(kids[i]) :: n
    ensures |r| == |kids| && forall i :: 0 <= i < |kids| ==> r[i] == Read(kids[i])
  {
    if kids == [] then [] else
      assert forall i :: 0 <= i < |kids[1..]| ==> kids[1..][i] == kids[i + 1];
      [Read(kids[0])] + ReadAll(kids[1..])
  }

  // ----- reading

  method MappingString(n: YamlNode, ghost s: Shape, key: string) returns (r: string)
    requires s.node == n && Laid(s)
    ensures r == StringAt(Read(s), key)
  {
    if n.kind != Mapping {
      return "";
    }
    var i := 0;
    while i + 1 < |n.content|
      invariant 0 <= i
      invariant Lookup(Read(s), key, None) == Find(Read(s).kids, key, None, i)
    {
      if n.content[i].value == key {
        return Text.Trim(n.content[i + 1].value);
      }
      i := i + 2;
    }
    return "";
  }

  /** The first value of the wanted kind under a key, and where it is; null when there is none. */
  method MappingChild(n: YamlNode?, ghost s: Shape, key: string, want: Kind) returns (r: YamlNode?, ghost j: nat)
    requires n != null ==> s.node == n && Laid(s)
    ensures n == null ==> r == null
    ensures n != null ==>
      if r == null then Lookup(Read(s), key, Some(want)) == None
      else Lookup(Read(s), key, Some(want)) == Some(j) && j < |s.kids| && r == s.kids[j].node
  {
    j := 0;
    if n == null || n.kind != Mapping {
      return null, j;
    }
    var i := 0;
    while i + 1 < |n.content|
      invariant 0 <= i
      invariant Lookup(Read(s), key, Some(want)) == Find(Read(s).kids, key, Some(want), i)
    {
      if n.content[i].value == key && n.content[i + 1].kind == want {
        return n.content[i + 1], i + 1;
      }
      i := i + 2;
    }
    return null, j;
  }

  // ----- writing

  /** One child's tree is replaced; the other children have not been touched. */
  twostate lemma ChildReplaced(new s: Shape, mem: set<YamlNode>, new j: nat, new t: Shape)
    requires old(allocated(s))
    requires old(Laid(s)) && Apart(s) && j < |s.kids| && Laid(t) && Apart(t) && t.node == s.kids[j].node
    requires Nodes(s) <= mem && forall n :: n in mem && n !in Nodes(s.kids[j]) ==> unchanged(n)
    requires forall n :: n in Nodes(t) && n !in Nodes(s.kids[j]) ==> n !in Nodes(s)
    ensures var r := Shape(s.node, s.kids[j := t]);
            && Laid(r) && Apart(r) && Read(r) == old(Read(s)).(kids := old(Read(s)).kids[j := Read(t)])
            && (forall n :: n in Nodes(r) ==> n in Nodes(s) || n in Nodes(t))
  {
    var r := Shape(s.node, s.kids[j := t]);
    assert s.node in Nodes(s) && s.node !in Nodes(s.kids[j]);
    forall i | 0 <= i < |s.kids| && i != j ensures Laid(s.kids[i]) && Read(s.kids[i]) == old(Read(s.kids[i])) {
      OthersApart(s, i, j);
    }
    ChildApart(s, j, t);
    assert Read(r).kids == old(Read(s)).kids[j := Read(t)];
  }

  lemma OthersApart(s: Shape, i: nat, j: nat)
    requires Apart(s) && i < |s.kids| && j < |s.kids| && i != j
    ensures forall n :: n in Nodes(s.kids[i]) ==> n in Nodes(s) && n !in Nodes(s.kids[j])
  {}

  lemma ChildApart(s: Shape, j: nat, t: Shape)
    requires Apart(s) && j < |s.kids| && Apart(t)
    requires forall n :: n in Nodes(t) && n !in Nodes(s.kids[j]) ==> n !in Nodes(s)
    ensures var r := Shape(s.node, s.kids[j := t]); Apart(r) && forall n :: n in Nodes(r) ==> n in Nodes(s) || n in Nodes(t)
  {
    var r := Shape(s.node, s.kids[j := t]);
    forall i | 0 <= i < |r.kids| && i != j ensures Nodes(r.kids[i]) !! Nodes(t) && s.node !in Nodes(t) {
      assert forall n :: n in Nodes(s.kids[i]) ==> n in Nodes(s);
    }
  }

  lemma AppendApart(s: Shape, more: seq<Shape>)
    requires Apart(s)
    requires forall i :: 0 <= i < |more| ==> Apart(more[i]) && Nodes(more[i]) !! Nodes(s)
    requires forall i, j :: 0 <= i < j < |more| ==> Nodes(more[i]) !! Nodes(more[j])
    ensures Apart(Shape(s.node, s.kids + more))
  {
    assert s.node in Nodes(s);
    var t := Shape(s.node, s.kids + more);
    forall i, j | 0 <= i < j < |t.kids| ensures Nodes(t.kids[i]) !! Nodes(t.kids[j]) {
      if i < |s.kids| {
        assert forall n :: n in Nodes(s.kids[i]) ==> n in Nodes(s);
      }
    }
  }

  lemma {:induction false} ReadAllConcat(a: seq<Shape>, b: seq<Shape>)
    ensures ReadAll(a + b) == ReadAll(a) + ReadAll(b)
  {
    hide Read;
  }

  /** The children read as before when nothing but their parent was written. */
  twostate lemma KidsUntouched(new s: Shape, mem: set<YamlNode>)
    requires old(allocated(s))
    requires old(Laid(s)) && Apart(s) && Nodes(s) <= mem
    requires forall n :: n in mem && n != s.node ==> unchanged(n)
    ensures forall i :: 0 <= i < |s.kids| ==> Laid(s.kids[i]) && Read(s.kids[i]) == old(Read(s.kids[i]))
    ensures ReadAll(s.kids) == old(ReadAll(s.kids))
  {
    forall i | 0 <= i < |s.kids| ensures Laid(s.kids[i]) && Read(s.kids[i]) == old(Read(s.kids[i])) {
      assert forall n :: n in Nodes(s.kids[i]) ==> n in Nodes(s);
    }
    hide Read;
  }

  /** New children at the end. */
  twostate lemma KidsAppended(new s: Shape, mem: set<YamlNode>, new more: seq<Shape>, new t: Shape)
    requires old(allocated(s))
    requires t == Shape(s.node, s.kids + more)
    requires old(Laid(s)) && Apart(s) && Nodes(s) <= mem
    requires forall n :: n in mem && n != s.node ==> unchanged(n)
    requires forall i :: 0 <= i < |more| ==> Laid(more[i])
    requires s.node.content == old(s.node.content) + Roots(more)
    ensures Laid(t) && ReadAll(t.kids) == old(ReadAll(s.kids)) + ReadAll(more)
  {
    KidsUntouched(s, mem);
    ReadAllConcat(s.kids, more);
    hide Nodes, Apart, Read, ReadAll;
    RootsConcat(s.kids, more);
    hide Roots;
  }

  lemma RootsConcat(a: seq<Shape>, b: seq<Shape>)
    ensures Roots(a + b) == Roots(a) + Roots(b)
  {}

  /** The node itself was written, but not its children's list. */
  twostate lemma Relabelled(new s: Shape, mem: set<YamlNode>)
    requires old(allocated(s))
    requires old(Laid(s)) && Apart(s) && Nodes(s) <= mem
    requires forall n :: n in mem && n != s.node ==> unchanged(n)
    requires s.node.content == old(s.node.content)
    ensures Laid(s) && Read(s) == Tree(s.node.kind, s.node.tag, s.node.value, old(Read(s)).kids)
  {
    KidsUntouched(s, mem);
    hide Nodes, Apart;
  }

  lemma ChildIsApart(s: Shape, j: nat)
    requires Apart(s) && j < |s.kids|
    ensures Apart(s.kids[j]) && Nodes(s.kids[j]) <= Nodes(s) && s.node in Nodes(s) && s.node !in Nodes(s.kids[j])
    ensures s.kids[j].node in Nodes(s.kids[j])
  {}

  method SetMappingString(n: YamlNode, ghost s: Shape, ghost mem: set<YamlNode>, key: string, value: string) returns (ghost t: Shape)
    requires s.node == n && Laid(s) && Apart(s) && Nodes(s) <= mem && n.kind == Mapping
    modifies Nodes(s)
    ensures t.node == n && Laid(t) && Apart(t)
    ensures forall o :: o in Nodes(t) && o !in Nodes(s) ==> fresh(o)
    ensures Read(t) == SetString(old(Read(s)), key, value)
  {
    hide Nodes, Apart;
    var i := 0;
    while i + 1 < |n.content|
      invariant 0 <= i
      invariant Lookup(Read(s), key, None) == Find(Read(s).kids, key, None, i)
      invariant forall o :: o in mem ==> unchanged(o)
    {
      if n.content[i].value == key {
        Restring(n.content[i + 1], s, mem, i + 1, value);
        t := s;
        return;
      }
      i := i + 2;
    }
    var a := new YamlNode(Scalar, STR, key, []);
    var b := new YamlNode(Scalar, STR, value, []);
    t := AppendPair(n, s, mem, a, b);
  }

  /** Turns the j-th child into a string. */
  method Restring(v: YamlNode, ghost s: Shape, ghost mem: set<YamlNode>, j: nat, value: string)
    requires Laid(s) && Apart(s) && Nodes(s) <= mem && j < |s.kids| && s.kids[j].node == v
    modifies Nodes(s)
    ensures Laid(s) && Read(s) == old(Read(s)).(kids := old(Read(s)).kids[j := AsString(old(Read(s)).kids[j], value)])
  {
    ChildIsApart(s, j);
    ghost var kid := s.kids[j];
    v.kind, v.tag, v.value := Scalar, STR, value;
    Relabelled(kid, mem);
    assert s.kids[j := kid] == s.kids;
    ChildReplaced(s, mem, j, kid);
  }

  lemma LeafFacts(a: YamlNode)
    requires a.content == []
    ensures Nodes(Leaf(a)) == {a} && Apart(Leaf(a)) && Laid(Leaf(a)) && Read(Leaf(a)) == Tree(a.kind, a.tag, a.value, [])
  {}

  lemma PairFacts(a: YamlNode, b: YamlNode)
    requires a.content == [] && b.content == []
    ensures var more := [Leaf(a), Leaf(b)];
            && Roots(more) == [a, b]
            && ReadAll(more) == [Tree(a.kind, a.tag, a.value, []), Tree(b.kind, b.tag, b.value, [])]
  {
    LeafFacts(a);
    LeafFacts(b);
    hide Read;
  }

  lemma NodesAppended(s: Shape, more: seq<Shape>)
    ensures forall o :: o in Nodes(Shape(s.node, s.kids + more)) ==> o in Nodes(s) || exists i :: 0 <= i < |more| && o in Nodes(more[i])
  {
    var t := Shape(s.node, s.kids + more);
    forall o | o in Nodes(t) && o !in Nodes(s) ensures exists i :: 0 <= i < |more| && o in Nodes(more[i]) {
      var k :| 0 <= k < |t.kids| && o in Nodes(t.kids[k]);
      assert k >= |s.kids| && t.kids[k] == more[k - |s.kids|];
    }
  }

  lemma OwnNode(s: Shape)
    ensures s.node in Nodes(s)
  {}

  /** Appends two new nodes without children. */
  method AppendPair(n: YamlNode, ghost s: Shape, ghost mem: set<YamlNode>, a: YamlNode, b: YamlNode) returns (ghost t: Shape)
    requires s.node == n && Laid(s) && Apart(s) && Nodes(s) <= mem
    requires a !in mem && b !in mem && a != b && a.content == [] && b.content == []
    modifies Nodes(s)
    ensures t == Shape(n, s.kids + [Leaf(a), Leaf(b)]) && Laid(t) && Apart(t) && Nodes(t) <= Nodes(s) + {a, b}
    ensures Read(t) == old(Read(s)).(kids := old(Read(s)).kids + [Tree(a.kind, a.tag, a.value, []), Tree(b.kind, b.tag, b.value, [])])
  {
    hide Nodes, Apart, Laid, ReadAll, Roots;
    OwnNode(s);
    n.content := n.content + [a, b];
    ghost var more := [Leaf(a), Leaf(b)];
    t := Shape(n, s.kids + more);
    LeafFacts(a);
    LeafFacts(b);
    PairFacts(a, b);
    KidsAppended(s, mem, more, t);
    AppendApart(s, more);
    NodesAppended(s, more);
  }

  /** The list of secrets, which is added when it is missing. */
  method SecretList(spec: YamlNode, ghost s: Shape, ghost mem: set<YamlNode>)
    returns (list: YamlNode, ghost t: Shape, ghost j: nat, ghost known: set<YamlNode>)
    requires s.node == spec && Laid(s) && Apart(s) && Nodes(s) <= mem && spec.kind == Mapping
    modifies Nodes(s)
    ensures t.node == spec && Laid(t) && Apart(t) && Nodes(t) <= known
    ensures forall o :: o in Nodes(t) && o !in Nodes(s) ==> fresh(o)
    ensures Read(t) == WithSecrets(old(Read(s))) && j == SecretsAt(old(Read(s))) && j < |t.kids| && t.kids[j].node == list
  {
    hide Nodes, Apart, Roots, Find, Laid;
    var found;
    found, j := MappingChild(spec, s, SECRETS, Sequence);
    if found != null {
      return found, s, j, mem;
    }
    var a := new YamlNode(Scalar, STR, SECRETS, []);
    list := new YamlNode(Sequence, "!!seq", "", []);
    t := AppendPair(spec, s, mem, a, list);
    j := |s.kids| + 1;
    known := mem + {a, list};
  }

  method EnsureImagePullSecret(spec: YamlNode, ghost s: Shape, ghost mem: set<YamlNode>) returns (ghost t: Shape)
    requires s.node == spec && Laid(s) && Apart(s) && Nodes(s) <= mem && spec.kind == Mapping
    modifies Nodes(s)
    ensures t.node == spec && Laid(t) && Apart(t)
    ensures forall o :: o in Nodes(t) && o !in Nodes(s) ==> fresh(o)
    ensures Read(t) == EnsureSecret(old(Read(s)))
  {
    hide Nodes, Apart, Roots, HasSecret, Find, Laid, Read, WithSecrets, SecretsAt;
    var list;
    ghost var j, known;
    list, t, j, known := SecretList(spec, s, mem);
    t := AddSecret(list, t, known, j);
  }

  /** Appends the entry to the list at j unless it is there. */
  method AddSecret(list: YamlNode, ghost s: Shape, ghost mem: set<YamlNode>, ghost j: nat) returns (ghost t: Shape)
    requires Laid(s) && Apart(s) && Nodes(s) <= mem && j < |s.kids| && s.kids[j].node == list
    modifies Nodes(s)
    ensures t.node == s.node && Laid(t) && Apart(t)
    ensures forall o :: o in Nodes(t) && o !in Nodes(s) ==> fresh(o)
    ensures var w := old(Read(s));
            j < |w.kids|
            && Read(t) == if HasSecret(w.kids[j].kids) then w else w.(kids := w.kids[j := w.kids[j].(kids := w.kids[j].kids + [ENTRY])])
  {
    hide Nodes, Apart, Roots, HasSecret;
    ghost var kid := s.kids[j];
    ChildIsApart(s, j);
    var found := NamesSecret(list, kid, mem);
    if found {
      t := s;
      return;
    }
    ghost var grown := AppendEntry(list, kid, mem);
    t := Shape(s.node, s.kids[j := grown]);
    ChildReplaced(s, mem, j, grown);
  }

  lemma KidReads(s: Shape)
    requires Laid(s)
    ensures |s.node.content| == |s.kids| == |Read(s).kids|
    ensures forall i :: 0 <= i < |s.kids| ==>
              s.node.content[i] == s.kids[i].node && Laid(s.kids[i]) && Read(s).kids[i] == Read(s.kids[i])
  {}

  method NamesSecret(list: YamlNode, ghost s: Shape, ghost mem: set<YamlNode>) returns (found: bool)
    requires s.node == list && Laid(s) && Nodes(s) <= mem
    ensures found == HasSecret(Read(s).kids)
  {
    hide StringAt, Nodes, Laid, Read;
    KidReads(s);
    var i := 0;
    while i < |list.content|
      invariant 0 <= i <= |list.content| == |s.kids| == |Read(s).kids| && Laid(s)
      invariant forall k :: 0 <= k < i ==> StringAt(Read(s).kids[k], "name") != SECRET
    {
      KidReads(s);
      var name := MappingString(list.content[i], s.kids[i], "name");
      KidReads(s);
      if name == SECRET {
        return true;
      }
      i := i + 1;
    }
    return false;
  }

  lemma EntryFacts(entry: YamlNode, a: YamlNode, b: YamlNode)
    requires entry != a && entry != b && a != b && entry.content == [a, b] && a.content == [] && b.content == []
    requires (entry.kind, entry.tag, entry.value) == ENTRY.Label()
    requires (a.kind, a.tag, a.value) == Str("name").Label() && (b.kind, b.tag, b.value) == Str(SECRET).Label()
    ensures var e := Shape(entry, [Leaf(a), Leaf(b)]);
            Laid(e) && Apart(e) && Nodes(e) == {entry, a, b} && Roots([e]) == [entry] && ReadAll([e]) == [ENTRY]
  {
    var e := Shape(entry, [Leaf(a), Leaf(b)]);
    LeafFacts(a);
    LeafFacts(b);
    PairFacts(a, b);
    NodesAppended(Leaf(entry), [Leaf(a), Leaf(b)]);
    hide ReadAll;
    assert Read(e) == ENTRY;
    OneRead(e);
  }

  lemma OneRead(e: Shape)
    ensures ReadAll([e]) == [Read(e)]
  {
    hide Read;
  }

  method NewEntry() returns (entry: YamlNode, ghost e: Shape)
    ensures e.node == entry && Laid(e) && Apart(e) && (forall o :: o in Nodes(e) ==> fresh(o))
    ensures Roots([e]) == [entry] && ReadAll([e]) == [ENTRY]
  {
    hide Nodes, Apart, Laid, Read, ReadAll, Roots;
    var a := new YamlNode(Scalar, STR, "name", []);
    var b := new YamlNode(Scalar, STR, SECRET, []);
    entry := new YamlNode(Mapping, "!!map", "", [a, b]);
    e := Shape(entry, [Leaf(a), Leaf(b)]);
    EntryFacts(entry, a, b);
  }

  method AppendEntry(list: YamlNode, ghost s: Shape, ghost mem: set<YamlNode>) returns (ghost t: Shape)
    requires s.node == list && Laid(s) && Apart(s) && Nodes(s) <= mem
    modifies list
    ensures t.node == list && Laid(t) && Apart(t)
    ensures forall o :: o in Nodes(t) && o !in Nodes(s) ==> fresh(o)
    ensures Read(t) == old(Read(s)).(kids := old(Read(s)).kids + [ENTRY])
  {
    hide Nodes, Apart, Laid, ReadAll, Roots;
    var entry;
    ghost var e;
    entry, e := NewEntry();
    OwnNode(s);
    list.content := list.content + [entry];
    t := Shape(list, s.kids + [e]);
    KidsAppended(s, mem, [e], t);
    AppendApart(s, [e]);
    NodesAppended(s, [e]);
  }

  // ----- the whole manifest

  ghost predicate HasShape(s: Shape, p: Path) { p == [] || (p[0] < |s.kids| && HasShape(s.kids[p[0]], p[1..])) }

  ghost function ShapeAt(s: Shape, p: Path): Shape
    requires HasShape(s, p)
  {
    if p == [] then s else ShapeAt(s.kids[p[0]], p[1..])
  }

  ghost function PutShape(s: Shape, p: Path, t: Shape): Shape
    requires HasShape(s, p)
  {
    if p == [] then t else Shape(s.node, s.kids[p[0] := PutShape(s.kids[p[0]], p[1..], t)])
  }

  lemma {:induction false} ShapeFacts(s: Shape, p: Path)
    requires HasShape(s, p) && Laid(s) && Apart(s)
    ensures Has(Read(s), p) && Read(ShapeAt(s, p)) == At(Read(s), p)
    ensures Laid(ShapeAt(s, p)) && Apart(ShapeAt(s, p)) && Nodes(ShapeAt(s, p)) <= Nodes(s)
  {
    if p != [] {
      ShapeFacts(s.kids[p[0]], p[1..]);
      ChildIsApart(s, p[0]);
    }
  }

  /** A subtree is replaced, and nothing outside of it has been touched. */
  twostate lemma {:induction false} SubtreeReplaced(new s: Shape, mem: set<YamlNode>, new p: Path, new t: Shape)
    requires old(allocated(s))
    requires HasShape(s, p) && old(Laid(s)) && Apart(s) && Nodes(s) <= mem
    requires Laid(t) && Apart(t) && t.node == ShapeAt(s, p).node
    requires forall n :: n in mem && n !in Nodes(ShapeAt(s, p)) ==> unchanged(n)
    requires forall n :: n in Nodes(t) && n !in Nodes(ShapeAt(s, p)) ==> n !in mem
    ensures Laid(PutShape(s, p, t)) && Apart(PutShape(s, p, t)) && PutShape(s, p, t).node == s.node
    ensures Has(old(Read(s)), p) && Read(PutShape(s, p, t)) == Put(old(Read(s)), p, Read(t))
    ensures forall n :: n in Nodes(PutShape(s, p, t)) ==> n in Nodes(s) || n in Nodes(t)
    decreases p
  {
    if p != [] {
      var kid, rest := s.kids[p[0]], p[1..];
      ChildIsApart(s, p[0]);
      SubtreeReplaced(kid, mem, rest, t);
      SubtreeInside(kid, rest);
      ChildReplaced(s, mem, p[0], PutShape(kid, rest, t));
    }
  }

  lemma {:induction false} SubtreeInside(s: Shape, p: Path)
    requires HasShape(s, p)
    ensures Nodes(ShapeAt(s, p)) <= Nodes(s)
  {
    if p != [] {
      SubtreeInside(s.kids[p[0]], p[1..]);
    }
  }

  /** Where the walk along keys has arrived; null when it failed. */
  ghost predicate Arrived(t: Tree, s: Shape, keys: seq<string>, n: YamlNode?, p: Path) {
    if n == null then Follow(t, keys) == None
    else Follow(t, keys) == Some(p) && HasShape(s, p) && ShapeAt(s, p).node == n
  }

  /** One step from mapping to mapping on the way to the pod template; null stays null. */
  method Descend(n: YamlNode?, ghost s: Shape, ghost mem: set<YamlNode>, ghost p: Path, ghost keys: seq<string>, key: string)
    returns (r: YamlNode?, ghost q: Path)
    requires Laid(s) && Apart(s) && Nodes(s) <= mem && Arrived(Read(s), s, keys, n, p)
    ensures Arrived(Read(s), s, keys + [key], r, q)
  {
    hide Apart, Nodes, Laid, Read, Find, Follow;
    r, q := null, p;
    FollowExtends(Read(s), keys, key);
    if n != null {
      ShapeFacts(s, p);
      ghost var j;
      r, j := MappingChild(n, ShapeAt(s, p), key, Mapping);
      q := p + [j];
      if r != null {
        ShapeExtends(s, p, j);
      }
    }
  }

  lemma {:induction false} ShapeExtends(s: Shape, p: Path, j: nat)
    requires HasShape(s, p) && j < |ShapeAt(s, p).kids|
    ensures HasShape(s, p + [j]) && ShapeAt(s, p + [j]) == ShapeAt(s, p).kids[j]
  {
    if p != [] {
      ShapeExtends(s.kids[p[0]], p[1..], j);
      assert (p + [j])[1..] == p[1..] + [j];
    }
  }

  lemma {:induction false} FollowExtends(t: Tree, keys: seq<string>, key: string)
    ensures var p := Follow(t, keys);
            && (p.Some? ==> Has(t, p.value))
            && Follow(t, keys + [key]) ==
               if p.None? then None
               else
                 var j := Lookup(At(t, p.value), key, Some(Mapping));
                 if j.None? then None else Some(p.value + [j.value])
  {
    if keys == [] {
      assert ([] + [key])[1..] == [] && keys + [key] == [key];
      assert forall k: nat :: [k] + [] == [] + [k];
    } else {
      assert (keys + [key])[1..] == keys[1..] + [key];
      var j := Lookup(t, keys[0], Some(Mapping));
      if j.Some? {
        FollowExtends(t.kids[j.value], keys[1..], key);
        var rest := Follow(t.kids[j.value], keys[1..]);
        if rest.Some? {
          assert ([j.value] + rest.value)[1..] == rest.value;
          assert forall k: nat :: [j.value] + (rest.value + [k]) == [j.value] + rest.value + [k];
        }
      }
    }
  }

  lemma ArrivedAtStart(t: Tree, s: Shape)
    ensures Arrived(t, s, [], s.node, [])
  {}

  lemma KeysJoin(a: string, b: string, c: string, d: string, e: string)
    ensures [] + [a] == [a] && [a] + [b] == [a, b] && [a, b] + [c] == [a, b, c] && [a, b, c] + [d] == [a, b, c, d]
    ensures [a, b, c, d] + [e] == [a, b, c, d, e]
  {}

  /** The pod template, if the kind has one and the manifest too. */
  method PodSpec(root: YamlNode, ghost s: Shape, ghost mem: set<YamlNode>, kind: string) returns (r: YamlNode?, ghost p: Path)
    requires s.node == root && Laid(s) && Apart(s) && Nodes(s) <= mem
    ensures PodKeys(kind) == [] ==> r == null
    ensures PodKeys(kind) != [] ==> Arrived(Read(s), s, PodKeys(kind), r, p)
  {
    hide Apart, Nodes, Laid, Read, Follow, Arrived;
    var k := Text.Lower(kind);
    r, p := null, [];
    ArrivedAtStart(Read(s), s);
    KeysJoin("spec", "template", "spec", "", "");
    KeysJoin("spec", "jobTemplate", "spec", "template", "spec");
    if k == "pod" {
      r, p := Descend(root, s, mem, [], [], "spec");
    } else if k == "deployment" || k == "statefulset" || k == "daemonset" || k == "replicaset" || k == "job" {
      r, p := Descend(root, s, mem, [], [], "spec");
      r, p := Descend(r, s, mem, p, ["spec"], "template");
      r, p := Descend(r, s, mem, p, ["spec", "template"], "spec");
    } else if k == "cronjob" {
      r, p := Descend(root, s, mem, [], [], "spec");
      r, p := Descend(r, s, mem, p, ["spec"], "jobTemplate");
      r, p := Descend(r, s, mem, p, ["spec", "jobTemplate"], "spec");
      r, p := Descend(r, s, mem, p, ["spec", "jobTemplate", "spec"], "template");
      r, p := Descend(r, s, mem, p, ["spec", "jobTemplate", "spec", "template"], "spec");
    }
  }

  /** sanitizeDoc: everything is checked before anything is written. */
  method SanitizeDocument(root: YamlNode, ghost s: Shape, ghost mem: set<YamlNode>, ns: string)
    returns (refusal: Option<Refusal>, kind: string, name: string, ghost t: Shape)
    requires s.node == root && Laid(s) && Apart(s) && Nodes(s) <= mem
    modifies Nodes(s)
    ensures t.node == root && Laid(t) && Apart(t)
    ensures match SanitizeDoc(old(Read(s)), ns)
            case Nothing => refusal == None && kind == "" && Read(t) == old(Read(s))
            case Refused(why) => refusal == Some(why) && Read(t) == old(Read(s))
            case Sanitized(tree, k, m) => refusal == None && kind == k && name == m && Read(t) == old(Read(s)).(kids := old(Read(s)).kids[0 := tree])
  {
    hide Apart, Nodes, Follow, Find, Paired;
    refusal, kind, name, t := None, "", "", s;
    if root.kind != Document || |root.content| == 0 {
      return;
    }
    var m := root.content[0];
    ghost var kid := s.kids[0];
    ChildIsApart(s, 0);
    ghost var made: Shape;
    refusal, kind, name, made := SanitizeMapping(m, kid, mem, ns);
    t := Shape(root, s.kids[0 := made]);
    ChildReplaced(s, mem, 0, made);
  }

  method SanitizeMapping(m: YamlNode, ghost s: Shape, ghost mem: set<YamlNode>, ns: string)
    returns (refusal: Option<Refusal>, kind: string, name: string, ghost t: Shape)
    requires s.node == m && Laid(s) && Apart(s) && Nodes(s) <= mem
    modifies Nodes(s)
    ensures t.node == m && Laid(t) && Apart(t)
    ensures forall o :: o in Nodes(t) && o !in Nodes(s) ==> fresh(o)
    ensures match Sanitize(old(Read(s)), ns)
            case Refused(why) => refusal == Some(why) && Read(t) == old(Read(s))
            case Sanitized(tree, k, n) => refusal == None && kind == k && name == n && Read(t) == tree
            case Nothing => false
  {
    hide Apart, Nodes, Follow, Find, Paired, Laid, Read, WithNamespace, WithPullSecret, StringAt;
    t := s;
    refusal, kind, name := None, "", "";
    RootReads(s);
    if m.kind != Mapping {
      refusal := Some(NotMapping);
      return;
    }
    kind := MappingString(m, s, "kind");
    if kind == "" {
      refusal := Some(MissingKind);
      return;
    }
    if Text.Lower(kind) in CLUSTER_KINDS {
      refusal := Some(ClusterKind);
      return;
    }
    var meta;
    ghost var j;
    meta, j := MappingChild(m, s, "metadata", Mapping);
    if meta == null {
      refusal := Some(MissingMetadata);
      return;
    }
    KidFacts(s, j);
    name := MappingString(meta, s.kids[j], "name");
    if name == "" {
      refusal := Some(MissingName);
      return;
    }
    ghost var known;
    t, known := ForceNamespace(m, s, mem, meta, j, ns);
    t := InjectImagePullSecret(m, t, known, kind);
  }

  lemma RootReads(s: Shape)
    requires Laid(s)
    ensures Read(s).Label() == (s.node.kind, s.node.tag, s.node.value)
  {}

  lemma KidFacts(s: Shape, j: nat)
    requires Laid(s) && Apart(s) && j < |s.kids|
    ensures Laid(s.kids[j]) && Apart(s.kids[j]) && Nodes(s.kids[j]) <= Nodes(s) && s.node !in Nodes(s.kids[j])
    ensures j < |Read(s).kids| && Read(s.kids[j]) == Read(s).kids[j] && Read(s.kids[j]).kind == s.kids[j].node.kind
  {}

  method ForceNamespace(m: YamlNode, ghost s: Shape, ghost mem: set<YamlNode>, meta: YamlNode, ghost j: nat, ns: string)
    returns (ghost t: Shape, ghost known: set<YamlNode>)
    requires s.node == m && Laid(s) && Apart(s) && Nodes(s) <= mem
    requires Lookup(Read(s), "metadata", Some(Mapping)) == Some(j) && j < |s.kids| && s.kids[j].node == meta
    modifies Nodes(s)
    ensures t.node == m && Laid(t) && Apart(t) && Nodes(t) <= known
    ensures forall o :: o in known && o !in mem ==> fresh(o)
    ensures forall o :: o in Nodes(t) && o !in Nodes(s) ==> fresh(o)
    ensures Read(t) == WithNamespace(old(Read(s)), ns)
  {
    hide Apart, Nodes, Laid, Read, SetString;
    KidFacts(s, j);
    ghost var u := SetMappingString(meta, s.kids[j], mem, "namespace", ns);
    t := Shape(m, s.kids[j := u]);
    ChildReplaced(s, mem, j, u);
    known := mem + Nodes(u);
  }

  method InjectImagePullSecret(m: YamlNode, ghost s: Shape, ghost mem: set<YamlNode>, kind: string) returns (ghost t: Shape)
    requires s.node == m && Laid(s) && Apart(s) && Nodes(s) <= mem
    modifies Nodes(s)
    ensures t.node == m && Laid(t) && Apart(t)
    ensures forall o :: o in Nodes(t) && o !in Nodes(s) ==> fresh(o)
    ensures Read(t) == WithPullSecret(old(Read(s)), kind)
  {
    hide Apart, Nodes, Laid, Read, EnsureSecret, Follow, Find;
    t := s;
    FollowHas(Read(s), PodKeys(kind));
    var spec;
    ghost var p;
    spec, p := PodSpec(m, s, mem, kind);
    if spec == null {
      return;
    }
    ShapeFacts(s, p);
    RootReads(ShapeAt(s, p));
    ghost var u := EnsureImagePullSecret(spec, ShapeAt(s, p), mem);
    t := PutShape(s, p, u);
    SubtreeReplaced(s, mem, p, u);
  }
}
