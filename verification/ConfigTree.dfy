/**
 * Configuration trees: building a property tree from nodes and parsing it back, in the XML dialect
 * (with attributes) and the JSON dialect (without), and exactly when the two undo each other.
 */
module ConfigTree {
  import opened Bytes
  import opened Text

  datatype Dialect = Xml | Json

  datatype Attr = Attr(name: string, value: string)

  datatype Node = Node(name: string, value: string, attrs: seq<Attr>, children: seq<Node>)

  /** A property tree: data and an ordered list of keyed subtrees; keys may repeat. */
  datatype Ptree = Ptree(data: string, kids: seq<Entry>)

  datatype Entry = Entry(key: string, sub: Ptree)

  const ATTR_KEY := "<xmlattr>"
  const NUL := 0 as char

  // ---- the property tree's own operations ----

  /** The string a C function sees: everything before the first NUL. */
  function CStr(s: string): string {
    s[..IndexOf(s, NUL)]
  }

  /** The first component of a dotted path. */
  function Head(path: string): string {
    path[..IndexOf(path, '.')]
  }

  function FindKey(kids: seq<Entry>, key: string): (at: nat)
    ensures at <= |kids|
    ensures at < |kids| ==> kids[at].key == key
    ensures forall i :: 0 <= i < at ==> kids[i].key != key
  {
    if kids == [] || kids[0].key == key then 0 else 1 + FindKey(kids[1..], key)
  }

  /** ptree::add: follows or creates the path's leading components and appends the last one. */
  function Add(t: Ptree, path: string, leaf: Ptree): Ptree
    decreases |path|
  {
    var dot := IndexOf(path, '.');
    if dot == |path| then t.(kids := t.kids + [Entry(path, leaf)])
    else
      var at := FindKey(t.kids, path[..dot]);
      if at < |t.kids|
      then t.(kids := t.kids[at := Entry(path[..dot], Add(t.kids[at].sub, path[dot + 1..], leaf))])
      else t.(kids := t.kids + [Entry(path[..dot], Add(Ptree("", []), path[dot + 1..], leaf))])
  }

  /** ptree::get_child: the first match along the path; None stands for the bad-path exception. */
  function GetChild(t: Ptree, path: string): Option<Ptree>
    decreases |path|
  {
    if path == "" then Some(t)
    else
      var dot := IndexOf(path, '.');
      var at := FindKey(t.kids, path[..dot]);
      if at == |t.kids| then None
      else if dot == |path| then Some(t.kids[at].sub)
      else GetChild(t.kids[at].sub, path[dot + 1..])
  }

  /** Paths the library accepts for adding: its assertion rules out an empty last component. */
  predicate UsablePath(path: string) {
    path != "" && path[|path| - 1] != '.'
  }

  /** Every name in the node can be passed to add. */
  predicate Writable(n: Node) {
    UsablePath(n.name) && WritableAll(n.children)
  }

  predicate WritableAll(ns: seq<Node>) {
    ns == [] || (Writable(ns[0]) && WritableAll(ns[1..]))
  }

  // ---- nodes to tree ----

  function AttrEntries(attrs: seq<Attr>): seq<Entry> {
    if attrs == [] then []
    else [Entry(attrs[0].name, Ptree(attrs[0].value, []))] + AttrEntries(attrs[1..])
  }

  /** The tree under a node's own name, before its children are added. */
  function Trunk(d: Dialect, n: Node): Ptree {
    Ptree(if n.children == [] then n.value else "",
          if d == Xml && n.attrs != [] then [Entry(ATTR_KEY, Ptree("", AttrEntries(n.attrs)))] else [])
  }

  /** What make_ptree puts under the node's name. */
  function Build(d: Dialect, n: Node): Ptree
    decreases n, 1
  {
    AddAll(d, Trunk(d, n), n.children)
  }

  function AddAll(d: Dialect, t: Ptree, ns: seq<Node>): Ptree
    decreases ns, 0
  {
    if ns == [] then t
    else AddAll(d, Add(t, ns[0].name, Build(d, ns[0])), ns[1..])
  }

  /** make_ptree, into an existing tree. */
  function Make(d: Dialect, n: Node, tree: Ptree): Ptree {
    Add(tree, n.name, Build(d, n))
  }

  // ---- tree to nodes ----

  function AttrsIn(es: seq<Entry>): seq<Attr> {
    if es == [] then [] else [Attr(CStr(es[0].key), CStr(es[0].sub.data))] + AttrsIn(es[1..])
  }

  function AttrsOf(kids: seq<Entry>): seq<Attr> {
    if kids == [] then []
    else (if kids[0].key == ATTR_KEY then AttrsIn(kids[0].sub.kids) else []) + AttrsOf(kids[1..])
  }

  function ChildrenOf(d: Dialect, kids: seq<Entry>): seq<Node>
    decreases kids, 0
  {
    if kids == [] then []
    else ChildAt(d, kids[0]) + ChildrenOf(d, kids[1..])
  }

  /** The child an entry becomes, if it is not an attribute list. */
  function ChildAt(d: Dialect, e: Entry): seq<Node>
    decreases e, 2
  {
    if e.key == ATTR_KEY then [] else [Parse(d, CStr(e.key), e.sub)]
  }

  /** parse_ptree, into a new node of the given name. */
  function Parse(d: Dialect, name: string, t: Ptree): Node
    decreases t, 1
  {
    Node(name, CStr(t.data), if d == Xml then AttrsOf(t.kids) else [], ChildrenOf(d, t.kids))
  }

  // ---- the two recursive procedures, with their loops ----

  lemma {:induction false} AttrsSnoc(kids: seq<Entry>, v: Entry)
    ensures AttrsOf(kids + [v]) == AttrsOf(kids) + AttrsOf([v])
  {
    if kids == [] {
      assert kids + [v] == [v] && [] + AttrsOf([v]) == AttrsOf([v]);
    } else {
      var all, rest := kids + [v], kids[1..];
      assert all[0] == kids[0] && all[1..] == rest + [v];
      AttrsSnoc(rest, v);
      var first := if kids[0].key == ATTR_KEY then AttrsIn(kids[0].sub.kids) else [];
      assert AttrsOf(all) == first + (AttrsOf(rest) + AttrsOf([v]));
      assert first + (AttrsOf(rest) + AttrsOf([v])) == first + AttrsOf(rest) + AttrsOf([v]);
    }
  }

  lemma {:induction false} ChildrenSnoc(d: Dialect, kids: seq<Entry>, v: Entry)
    ensures ChildrenOf(d, kids + [v]) == ChildrenOf(d, kids) + ChildrenOf(d, [v])
  {
    if kids == [] {
      assert kids + [v] == [v] && [] + ChildrenOf(d, [v]) == ChildrenOf(d, [v]);
    } else {
      var first, rest := ChildAt(d, kids[0]), kids[1..];
      assert (kids + [v])[0] == kids[0] && (kids + [v])[1..] == rest + [v];
      ChildrenSnoc(d, rest, v);
      assert first + (ChildrenOf(d, rest) + ChildrenOf(d, [v])) == first + ChildrenOf(d, rest) + ChildrenOf(d, [v]);
    }
  }

  lemma OneKid(d: Dialect, v: Entry)
    ensures AttrsOf([v]) == if v.key == ATTR_KEY then AttrsIn(v.sub.kids) else []
    ensures ChildrenOf(d, [v]) == if v.key == ATTR_KEY then [] else [Parse(d, CStr(v.key), v.sub)]
  {
    assert [v][1..] == [];
  }

  lemma {:induction false} AttrsInAt(es: seq<Entry>)
    ensures |AttrsIn(es)| == |es|
    ensures forall j :: 0 <= j < |es| ==> AttrsIn(es)[j] == Attr(CStr(es[j].key), CStr(es[j].sub.data))
  {
    if es == [] {
    } else {
      AttrsInAt(es[1..]);
    }
  }

  method ParseAttrs(entries: seq<Entry>) returns (attrs: seq<Attr>)
    ensures attrs == AttrsIn(entries)
  {
    attrs := [];
    AttrsInAt(entries);
    for j := 0 to |entries|
      invariant attrs == AttrsIn(entries)[..j]
    {
      attrs := attrs + [Attr(CStr(entries[j].key), CStr(entries[j].sub.data))];
    }
  }

  method ParsePtree(d: Dialect, name: string, t: Ptree) returns (n: Node)
    ensures n == Parse(d, name, t)
    decreases t
  {
    var attrs: seq<Attr> := [];
    var children: seq<Node> := [];
    for i := 0 to |t.kids|
      invariant attrs == AttrsOf(t.kids[..i])
      invariant children == ChildrenOf(d, t.kids[..i])
    {
      var v := t.kids[i];
      assert t.kids[..i + 1] == t.kids[..i] + [v];
      AttrsSnoc(t.kids[..i], v);
      ChildrenSnoc(d, t.kids[..i], v);
      OneKid(d, v);
      if v.key == ATTR_KEY {
        var found := ParseAttrs(v.sub.kids);
        attrs := attrs + found;
      } else {
        var child := ParsePtree(d, CStr(v.key), v.sub);
        children := children + [child];
      }
    }
    assert t.kids[..|t.kids|] == t.kids;
    n := Node(name, CStr(t.data), if d == Xml then attrs else [], children);
  }

  method MakePtree(d: Dialect, n: Node, tree: Ptree) returns (result: Ptree)
    ensures result == Make(d, n, tree)
    decreases n
  {
    var addnode := Ptree(n.value, []);
    if d == Xml && |n.attrs| > 0 {
      var entries: seq<Entry> := [];
      for i := 0 to |n.attrs|
        invariant AttrEntries(n.attrs) == entries + AttrEntries(n.attrs[i..])
      {
        assert n.attrs[i..][1..] == n.attrs[i + 1..];
        entries := entries + [Entry(n.attrs[i].name, Ptree(n.attrs[i].value, []))];
      }
      assert entries == AttrEntries(n.attrs);
      addnode := addnode.(kids := [Entry(ATTR_KEY, Ptree("", entries))]);
    }
    if |n.children| > 0 {
      addnode := addnode.(data := "");
    }
    assert addnode == Trunk(d, n);
    if |n.children| > 0 {
      assert n.children[0..] == n.children;
      for i := 0 to |n.children|
        invariant Build(d, n) == AddAll(d, addnode, n.children[i..])
      {
        assert n.children[i..][1..] == n.children[i + 1..];
        addnode := MakePtree(d, n.children[i], addnode);
      }
    }
    assert addnode == Build(d, n);
    result := Add(tree, n.name, addnode);
  }

  // ---- normal form and faithfulness ----

  /** What survives: the value only at leaves, attributes only in XML. */
  function Normal(d: Dialect, n: Node): Node {
    Node(n.name, if n.children == [] then n.value else "", if d == Xml then n.attrs else [], NormalAll(d, n.children))
  }

  function NormalAll(d: Dialect, ns: seq<Node>): seq<Node> {
    if ns == [] then [] else [Normal(d, ns[0])] + NormalAll(d, ns[1..])
  }

  predicate NulFree(s: string) { NUL !in s }

  /** A name that is one path component and not the attribute key. */
  predicate OneComponent(s: string) {
    '.' !in s && s != ATTR_KEY
  }

  /** A child name that moreover survives c_str. */
  predicate PlainName(s: string) {
    OneComponent(s) && NulFree(s)
  }

  predicate PlainAttrs(attrs: seq<Attr>) {
    forall a :: a in attrs ==> NulFree(a.name) && NulFree(a.value)
  }

  /** What a caller can check of a node before writing it; its own name does not matter. */
  predicate Faithful(d: Dialect, n: Node) {
    && (n.children == [] ==> NulFree(n.value))
    && (d == Xml ==> PlainAttrs(n.attrs))
    && FaithfulAll(d, n.children)
  }

  predicate FaithfulAll(d: Dialect, ns: seq<Node>) {
    ns == [] || (PlainName(ns[0].name) && Faithful(d, ns[0]) && FaithfulAll(d, ns[1..]))
  }

  lemma CStrIdentity(s: string)
    ensures CStr(s) == s <==> NulFree(s)
    ensures NulFree(CStr(s))
  {}

  // ---- the root ----

  /** The built tree is found again under the root's name, dotted or not. */
  lemma {:induction false} GetAdded(path: string, leaf: Ptree)
    requires UsablePath(path)
    ensures GetChild(Add(Ptree("", []), path, leaf), path) == Some(leaf)
    decreases |path|
  {
    var dot := IndexOf(path, '.');
    if dot < |path| {
      var rest := path[dot + 1..];
      assert dot < |path| - 1 && rest[|rest| - 1] == path[|path| - 1];
      var sub := Add(Ptree("", []), rest, leaf);
      GetAdded(rest, leaf);
      assert Add(Ptree("", []), path, leaf) == Ptree("", [Entry(path[..dot], sub)]);
      assert FindKey([Entry(path[..dot], sub)], path[..dot]) == 0;
    } else {
      assert path[..dot] == path;
      assert Add(Ptree("", []), path, leaf) == Ptree("", [Entry(path, leaf)]);
    }
  }

  /** What adding does at a place: it appends, so whatever was found there first is still found. */
  lemma {:induction false} AddThenGet(t: Ptree, path: string, leaf: Ptree)
    requires UsablePath(path)
    ensures GetChild(Add(t, path, leaf), path) == if GetChild(t, path).Some? then GetChild(t, path) else Some(leaf)
    decreases |path|
  {
    var dot := IndexOf(path, '.');
    var head := path[..dot];
    var at := FindKey(t.kids, head);
    if dot == |path| {
      assert head == path;
      FindInAppended(t.kids, Entry(path, leaf), path);
    } else {
      var rest := path[dot + 1..];
      assert rest != "" && rest[|rest| - 1] == path[|path| - 1];
      if at < |t.kids| {
        AddThenGet(t.kids[at].sub, rest, leaf);
        FindInUpdated(t.kids, at, Add(t.kids[at].sub, rest, leaf), head);
      } else {
        AddThenGet(Ptree("", []), rest, leaf);
        assert GetChild(Ptree("", []), rest).None?;
        FindInAppended(t.kids, Entry(head, Add(Ptree("", []), rest, leaf)), head);
      }
    }
  }

  /** What is found depends on the first match of the first component only. */
  lemma SameFirst(t: Ptree, t': Ptree, path: string)
    requires path != ""
    requires var a, b := FindKey(t.kids, Head(path)), FindKey(t'.kids, Head(path));
      (a == |t.kids| <==> b == |t'.kids|) && (a < |t.kids| ==> t.kids[a].sub == t'.kids[b].sub)
    ensures GetChild(t', path) == GetChild(t, path)
  {}

  lemma AddKeepsFirst(t: Ptree, path: string, leaf: Ptree, key: string)
    requires key != Head(path)
    ensures var kids, kids' := t.kids, Add(t, path, leaf).kids; var a, b := FindKey(kids, key), FindKey(kids', key);
      (a == |kids| <==> b == |kids'|) && (a < |kids| ==> kids[a].sub == kids'[b].sub)
  {
    var dot := IndexOf(path, '.');
    var at := FindKey(t.kids, path[..dot]);
    if dot == |path| {
      assert path[..dot] == path;
      FindInAppended(t.kids, Entry(path, leaf), key);
    } else if at < |t.kids| {
      FindInUpdated(t.kids, at, Add(t.kids[at].sub, path[dot + 1..], leaf), key);
    } else {
      FindInAppended(t.kids, Entry(path[..dot], Add(Ptree("", []), path[dot + 1..], leaf)), key);
    }
  }

  /** Adding leaves alone the tree's own data and everything under another first component. */
  lemma AddKeepsOthers(t: Ptree, path: string, leaf: Ptree, other: string)
    requires other != "" && Head(other) != Head(path)
    ensures Add(t, path, leaf).data == t.data
    ensures GetChild(Add(t, path, leaf), other) == GetChild(t, other)
  {
    AddKeepsFirst(t, path, leaf, Head(other));
    SameFirst(t, Add(t, path, leaf), other);
  }

  /** An existing first component is used, not doubled: the number of subtrees grows by at most one. */
  lemma AddUsesWhatIsThere(t: Ptree, path: string, leaf: Ptree)
    ensures |Add(t, path, leaf).kids| ==
      |t.kids| + (if '.' in path && exists e :: e in t.kids && e.key == Head(path) then 0 else 1)
  {
    var at := FindKey(t.kids, Head(path));
    if at < |t.kids| {
      assert t.kids[at] in t.kids;
    }
  }

  lemma {:induction false} FindInAppended(kids: seq<Entry>, e: Entry, key: string)
    ensures FindKey(kids + [e], key) ==
      if FindKey(kids, key) < |kids| then FindKey(kids, key) else if e.key == key then |kids| else |kids| + 1
  {
    if kids == [] {
      assert kids + [e] == [e] && [e][1..] == [];
    } else {
      assert (kids + [e])[1..] == kids[1..] + [e];
      FindInAppended(kids[1..], e, key);
    }
  }

  lemma {:induction false} FindInUpdated(kids: seq<Entry>, at: nat, sub: Ptree, key: string)
    requires at < |kids|
    ensures FindKey(kids[at := Entry(kids[at].key, sub)], key) == FindKey(kids, key)
  {
    var updated := kids[at := Entry(kids[at].key, sub)];
    if at == 0 {
      assert updated[1..] == kids[1..];
    } else {
      assert updated[1..] == kids[1..][at - 1 := Entry(kids[at].key, sub)];
      FindInUpdated(kids[1..], at - 1, sub, key);
    }
  }

  // ---- what parsing takes from any tree ----

  /** The entries that become children, in order. */
  function Elements(kids: seq<Entry>): seq<Entry> {
    if kids == [] then []
    else (if kids[0].key == ATTR_KEY then [] else [kids[0]]) + Elements(kids[1..])
  }

  function ParseEach(d: Dialect, es: seq<Entry>): seq<Node> {
    if es == [] then [] else [Parse(d, CStr(es[0].key), es[0].sub)] + ParseEach(d, es[1..])
  }

  lemma {:induction false} ParseEachAt(d: Dialect, es: seq<Entry>)
    ensures |ParseEach(d, es)| == |es|
    ensures forall i :: 0 <= i < |es| ==> ParseEach(d, es)[i] == Parse(d, CStr(es[i].key), es[i].sub)
  {
    if es == [] {
    } else {
      ParseEachAt(d, es[1..]);
    }
  }

  lemma {:induction false} ChildrenAreElements(d: Dialect, kids: seq<Entry>)
    ensures ChildrenOf(d, kids) == ParseEach(d, Elements(kids))
  {
    if kids == [] {
    } else {
      var e, rest := kids[0], Elements(kids[1..]);
      ChildrenAreElements(d, kids[1..]);
      assert [e] + rest != [] && ([e] + rest)[1..] == rest;
      assert e.key == ATTR_KEY ==> Elements(kids) == rest;
    }
  }

  /**
   * Whatever the tree: a parsed node has the given name, the tree's data up to the first NUL, be there
   * children or not, one child for each entry that is not an attribute list, in order and named by its
   * key up to the first NUL, and attributes in XML only.
   */
  lemma ParsedNode(d: Dialect, name: string, t: Ptree)
    ensures var n := Parse(d, name, t);
      && n.name == name
      && n.value <= t.data && NulFree(n.value) && (|n.value| < |t.data| ==> t.data[|n.value|] == 0 as char)
      && |n.children| == |Elements(t.kids)|
      && (forall i :: 0 <= i < |n.children| ==>
            n.children[i] == Parse(d, CStr(Elements(t.kids)[i].key), Elements(t.kids)[i].sub))
      && n.attrs == (if d == Xml then AttrsOf(t.kids) else [])
  {
    ChildrenAreElements(d, t.kids);
    ParseEachAt(d, Elements(t.kids));
  }

  /**
   * A built tree carries the node's value only if there are no children; in XML its attributes, if it
   * has any, are in order under "<xmlattr>", in front of everything else, unless a child is named so,
   * and in JSON they are left out.
   */
  lemma BuiltTree(d: Dialect, n: Node)
    ensures var t := Build(d, n);
      && t.data == (if n.children == [] then n.value else "")
      && (d == Xml && n.attrs != [] && ATTR_KEY !in Heads(n.children) ==>
            && t.kids != [] && t.kids[0].key == "<xmlattr>" && |t.kids[0].sub.kids| == |n.attrs|
            && (forall i :: 0 <= i < |n.attrs| ==>
                  t.kids[0].sub.kids[i] == Entry(n.attrs[i].name, Ptree(n.attrs[i].value, []))))
      && (n.children == [] ==> |t.kids| == if d == Xml && n.attrs != [] then 1 else 0)
  {
    AddAllData(d, Trunk(d, n), n.children);
    AttrEntriesAt(n.attrs);
    if Trunk(d, n).kids != [] && ATTR_KEY !in Heads(n.children) {
      AddAllKeepsFront(d, Trunk(d, n), n.children);
    }
  }

  lemma {:induction false} AddAllKeepsFront(d: Dialect, t: Ptree, ns: seq<Node>)
    requires t.kids != [] && t.kids[0].key == ATTR_KEY && ATTR_KEY !in Heads(ns)
    ensures AddAll(d, t, ns).kids != [] && AddAll(d, t, ns).kids[0] == t.kids[0]
    decreases ns
  {
    if ns == [] {
    } else {
      var heads := Heads(ns[1..]);
      assert ([Head(ns[0].name)] + heads)[0] == Head(ns[0].name);
      assert forall h :: h in heads ==> h in Heads(ns);
      AddAllKeepsFront(d, Add(t, ns[0].name, Build(d, ns[0])), ns[1..]);
    }
  }

  // ---- one level of children ----

  function Keys(kids: seq<Entry>): seq<string> {
    if kids == [] then []
    else (if kids[0].key == ATTR_KEY then [] else [kids[0].key]) + Keys(kids[1..])
  }

  lemma {:induction false} KeysConcat(a: seq<Entry>, b: seq<Entry>)
    ensures Keys(a + b) == Keys(a) + Keys(b)
  {
    if a == [] {
      assert a + b == b;
    } else {
      assert (a + b)[1..] == a[1..] + b;
      KeysConcat(a[1..], b);
    }
  }

  lemma {:induction false} KeysUpdate(kids: seq<Entry>, at: nat, sub: Ptree)
    requires at < |kids|
    ensures Keys(kids[at := Entry(kids[at].key, sub)]) == Keys(kids)
  {
    if at == 0 {
      assert kids[at := Entry(kids[at].key, sub)][1..] == kids[1..];
    } else {
      assert kids[at := Entry(kids[at].key, sub)][1..] == kids[1..][at - 1 := Entry(kids[at].key, sub)];
      KeysUpdate(kids[1..], at - 1, sub);
    }
  }

  lemma OneKey(kids: seq<Entry>, e: Entry)
    ensures Keys(kids + [e]) == Keys(kids) + (if e.key == ATTR_KEY then [] else [e.key])
  {
    KeysConcat(kids, [e]);
    assert [e][1..] == [];
  }

  /** Adding a child makes at most one new key, and that key is the head of its name. */
  lemma AddKeys(t: Ptree, path: string, leaf: Ptree)
    ensures var k := Keys(Add(t, path, leaf).kids);
      k == Keys(t.kids) || (Head(path) != ATTR_KEY && k == Keys(t.kids) + [Head(path)])
  {
    var dot := IndexOf(path, '.');
    var head := path[..dot];
    if dot == |path| {
      assert head == path;
      OneKey(t.kids, Entry(path, leaf));
    } else {
      var at := FindKey(t.kids, head);
      if at < |t.kids| {
        KeysUpdate(t.kids, at, Add(t.kids[at].sub, path[dot + 1..], leaf));
      } else {
        OneKey(t.kids, Entry(head, Add(Ptree("", []), path[dot + 1..], leaf)));
      }
    }
  }

  function Heads(ns: seq<Node>): seq<string> {
    if ns == [] then [] else [Head(ns[0].name)] + Heads(ns[1..])
  }

  lemma OneMoreKey(before: seq<string>, between: seq<string>, after: seq<string>, head: string, heads: seq<string>)
    requires between == before || (head != ATTR_KEY && between == before + [head])
    requires |after| <= |between| + |heads|
    requires |after| == |between| + |heads| ==> after == between + heads
    ensures |after| <= |before| + 1 + |heads|
    ensures |after| == |before| + 1 + |heads| ==> head != ATTR_KEY && after == before + ([head] + heads)
  {
    assert before + [head] + heads == before + ([head] + heads);
  }

  /** If no child's key got lost, the keys are the heads of the names and none is the attribute key. */
  lemma {:induction false} AddAllKeys(d: Dialect, t: Ptree, ns: seq<Node>)
    ensures var k := Keys(AddAll(d, t, ns).kids);
      && |k| <= |Keys(t.kids)| + |Heads(ns)|
      && (|k| == |Keys(t.kids)| + |Heads(ns)| ==> k == Keys(t.kids) + Heads(ns) && ATTR_KEY !in Heads(ns))
    decreases ns
  {
    if ns == [] {
      assert Keys(t.kids) + [] == Keys(t.kids);
    } else {
      var n, rest := ns[0], ns[1..];
      var t1 := Add(t, n.name, Build(d, n));
      AddKeys(t, n.name, Build(d, n));
      AddAllKeys(d, t1, rest);
      OneMoreKey(Keys(t.kids), Keys(t1.kids), Keys(AddAll(d, t1, rest).kids), Head(n.name), Heads(rest));
    }
  }

  function Names(ns: seq<Node>): seq<string> {
    if ns == [] then [] else [ns[0].name] + Names(ns[1..])
  }

  function CStrs(ss: seq<string>): seq<string> {
    if ss == [] then [] else [CStr(ss[0])] + CStrs(ss[1..])
  }

  lemma {:induction false} ChildNames(d: Dialect, kids: seq<Entry>)
    ensures Names(ChildrenOf(d, kids)) == CStrs(Keys(kids))
  {
    if kids == [] {
    } else {
      ChildNames(d, kids[1..]);
      var e, rest := kids[0], ChildrenOf(d, kids[1..]);
      if e.key != ATTR_KEY {
        var child := Parse(d, CStr(e.key), e.sub);
        assert ([child] + rest)[1..] == rest;
        assert ([e.key] + Keys(kids[1..]))[1..] == Keys(kids[1..]);
      } else {
        assert ChildrenOf(d, kids) == rest && Keys(kids) == Keys(kids[1..]);
      }
    }
  }

  lemma BadName(name: string)
    requires !OneComponent(name) && Head(name) != ATTR_KEY
    ensures CStr(Head(name)) != name
  {
    if '.' in name {
      assert |CStr(Head(name))| <= |Head(name)| < |name|;
    }
  }

  /** Some child's name is not one component: then the children's names do not come back. */
  lemma BadNameShows(d: Dialect, t: Ptree, ns: seq<Node>, i: nat)
    requires Keys(t.kids) == [] && i < |ns| && !OneComponent(ns[i].name)
    ensures Names(ChildrenOf(d, AddAll(d, t, ns).kids)) != Names(ns)
  {
    var kids := AddAll(d, t, ns).kids;
    var keys := Keys(kids);
    AddAllKeys(d, t, ns);
    ChildNames(d, kids);
    CStrsAt(keys);
    NamesAt(ns);
    HeadsAt(ns);
    if |keys| == |ns| {
      assert keys == Heads(ns) && Heads(ns)[i] != ATTR_KEY;
      BadName(ns[i].name);
      assert CStrs(keys)[i] != Names(ns)[i];
    }
  }

  lemma {:induction false} CStrsAt(ss: seq<string>)
    ensures |CStrs(ss)| == |ss| && forall i :: 0 <= i < |ss| ==> CStrs(ss)[i] == CStr(ss[i])
  {
    if ss == [] {
    } else {
      CStrsAt(ss[1..]);
    }
  }

  lemma {:induction false} NamesAt(ns: seq<Node>)
    ensures |Names(ns)| == |ns| && forall i :: 0 <= i < |ns| ==> Names(ns)[i] == ns[i].name
  {
    if ns == [] {
    } else {
      NamesAt(ns[1..]);
    }
  }

  lemma {:induction false} HeadsAt(ns: seq<Node>)
    ensures |Heads(ns)| == |ns| && forall i :: 0 <= i < |ns| ==> Heads(ns)[i] == Head(ns[i].name)
  {
    if ns == [] {
    } else {
      HeadsAt(ns[1..]);
    }
  }

  lemma {:induction false} NormalNames(d: Dialect, ns: seq<Node>)
    ensures Names(NormalAll(d, ns)) == Names(ns)
  {
    if ns == [] {
    } else {
      NormalNames(d, ns[1..]);
    }
  }

  // ---- children whose names are one component each ----

  predicate AllOneComponent(ns: seq<Node>) {
    forall i :: 0 <= i < |ns| ==> OneComponent(ns[i].name)
  }

  function Entries(d: Dialect, ns: seq<Node>): seq<Entry> {
    if ns == [] then [] else [Entry(ns[0].name, Build(d, ns[0]))] + Entries(d, ns[1..])
  }

  lemma {:induction false} AddAllPlain(d: Dialect, t: Ptree, ns: seq<Node>)
    requires AllOneComponent(ns)
    ensures AddAll(d, t, ns) == t.(kids := t.kids + Entries(d, ns))
    decreases ns
  {
    if ns == [] {
    } else {
      var e := Entry(ns[0].name, Build(d, ns[0]));
      assert OneComponent(ns[0].name);
      var t1 := Add(t, ns[0].name, Build(d, ns[0]));
      assert t1 == t.(kids := t.kids + [e]);
      AddAllPlain(d, t1, ns[1..]);
      assert t.kids + [e] + Entries(d, ns[1..]) == t.kids + ([e] + Entries(d, ns[1..]));
    }
  }

  lemma {:induction false} EntriesHaveNoAttrs(d: Dialect, ns: seq<Node>)
    requires AllOneComponent(ns)
    ensures AttrsOf(Entries(d, ns)) == []
  {
    if ns == [] {
    } else {
      assert OneComponent(ns[0].name);
      EntriesHaveNoAttrs(d, ns[1..]);
    }
  }

  /** A trunk has at most the attribute entry in front of the children. */
  lemma BehindTrunk(d: Dialect, n: Node, es: seq<Entry>)
    ensures var kids := Trunk(d, n).kids + es;
      && ChildrenOf(d, kids) == ChildrenOf(d, es)
      && AttrsOf(kids) == (if d == Xml then AttrsIn(AttrEntries(n.attrs)) else []) + AttrsOf(es)
    ensures Keys(Trunk(d, n).kids) == []
  {
    var kids := Trunk(d, n).kids + es;
    if d == Xml && n.attrs != [] {
      assert kids[1..] == es;
      assert Trunk(d, n).kids[1..] == [];
    } else {
      assert kids == es;
    }
  }

  lemma {:induction false} AttrEntriesAt(attrs: seq<Attr>)
    ensures |AttrEntries(attrs)| == |attrs|
    ensures forall i :: 0 <= i < |attrs| ==> AttrEntries(attrs)[i] == Entry(attrs[i].name, Ptree(attrs[i].value, []))
  {
    if attrs == [] {
    } else {
      AttrEntriesAt(attrs[1..]);
    }
  }

  lemma AttrsSurviveIffPlain(attrs: seq<Attr>)
    ensures AttrsIn(AttrEntries(attrs)) == attrs <==> PlainAttrs(attrs)
  {
    AttrEntriesAt(attrs);
    AttrsInAt(AttrEntries(attrs));
    var back := AttrsIn(AttrEntries(attrs));
    forall i | 0 <= i < |attrs|
      ensures back[i] == attrs[i] <==> NulFree(attrs[i].name) && NulFree(attrs[i].value)
    {
      CStrIdentity(attrs[i].name);
      CStrIdentity(attrs[i].value);
    }
    if PlainAttrs(attrs) {
      assert forall i :: 0 <= i < |attrs| ==> attrs[i] in attrs;
    }
  }

  lemma {:induction false} ChildrenSurviveIffFaithful(d: Dialect, ns: seq<Node>)
    requires AllOneComponent(ns)
    ensures ChildrenOf(d, Entries(d, ns)) == NormalAll(d, ns) <==> FaithfulAll(d, ns)
    decreases ns, 0
  {
    if ns == [] {
    } else {
      var n, rest := ns[0], ns[1..];
      assert OneComponent(n.name);
      ChildrenSurviveIffFaithful(d, rest);
      SurvivesIffFaithful(d, n.name, n);
      CStrIdentity(n.name);
      var child := Parse(d, CStr(n.name), Build(d, n));
      assert Entries(d, ns)[1..] == Entries(d, rest);
      assert ChildrenOf(d, Entries(d, ns)) == [child] + ChildrenOf(d, Entries(d, rest));
      assert NormalAll(d, ns) == [Normal(d, n)] + NormalAll(d, rest);
      assert child.name == CStr(n.name) && Normal(d, n).name == n.name;
      assert ([child] + ChildrenOf(d, Entries(d, rest)))[0] == child;
      assert ([child] + ChildrenOf(d, Entries(d, rest)))[1..] == ChildrenOf(d, Entries(d, rest));
      assert NormalAll(d, ns)[1..] == NormalAll(d, rest);
    }
  }

  lemma {:induction false} SurvivesIffFaithful(d: Dialect, name: string, n: Node)
    ensures Parse(d, name, Build(d, n)) == Normal(d, n).(name := name) <==> Faithful(d, n)
    decreases n, 1
  {
    var t := Build(d, n);
    AddAllData(d, Trunk(d, n), n.children);
    CStrIdentity(n.value);
    CStrIdentity("");
    BehindTrunk(d, n, []);
    if AllOneComponent(n.children) {
      AddAllPlain(d, Trunk(d, n), n.children);
      BehindTrunk(d, n, Entries(d, n.children));
      EntriesHaveNoAttrs(d, n.children);
      AttrsSurviveIffPlain(n.attrs);
      ChildrenSurviveIffFaithful(d, n.children);
    } else {
      var i :| 0 <= i < |n.children| && !OneComponent(n.children[i].name);
      BadNameShows(d, Trunk(d, n), n.children, i);
      NormalNames(d, n.children);
      BadNameUnfaithful(d, n.children, i);
    }
  }

  lemma {:induction false} AddAllData(d: Dialect, t: Ptree, ns: seq<Node>)
    ensures AddAll(d, t, ns).data == t.data
    decreases ns
  {
    if ns == [] {
    } else {
      AddAllData(d, Add(t, ns[0].name, Build(d, ns[0])), ns[1..]);
    }
  }

  lemma {:induction false} BadNameUnfaithful(d: Dialect, ns: seq<Node>, i: nat)
    requires i < |ns| && !OneComponent(ns[i].name)
    ensures !FaithfulAll(d, ns)
  {
    if i == 0 {
    } else {
      BadNameUnfaithful(d, ns[1..], i - 1);
    }
  }

  // ---- main results ----

  /** Writing a node into a fresh tree and reading it back by its name. */
  function RoundTrip(d: Dialect, n: Node): Option<Node> {
    match GetChild(Make(d, n, Ptree("", [])), n.name)
    case None => None
    case Some(sub) => Some(Parse(d, "", sub))
  }

  /**
   * Reading back gives the normal form, with the root's name dropped, exactly for the faithful
   * nodes: every descendant's name is one dot-free component other than the attribute key, and no
   * string that is read back contains a NUL.
   */
  lemma RoundTripIffFaithful(d: Dialect, n: Node)
    requires Writable(n)
    ensures RoundTrip(d, n) == Some(Normal(d, n).(name := "")) <==> Faithful(d, n)
  {
    GetAdded(n.name, Build(d, n));
    SurvivesIffFaithful(d, "", n);
  }

  /**
   * What was read back from a faithful node, put under the old name again, makes the same tree, and
   * reading that back changes nothing more.
   */
  lemma WriteReadWrite(d: Dialect, n: Node, tree: Ptree)
    requires Writable(n) && Faithful(d, n)
    ensures RoundTrip(d, n).Some?
    ensures var back := RoundTrip(d, n).value.(name := n.name);
      && Make(d, back, tree) == Make(d, n, tree)
      && RoundTrip(d, back) == RoundTrip(d, n)
  {
    GetAdded(n.name, Build(d, n));
    RoundTripIffFaithful(d, n);
    NormalIsStable(d, n);
    assert Normal(d, n).(name := "").(name := n.name) == Normal(d, n);
  }

  /** The normal form is its own normal form and builds the same tree. */
  lemma {:induction false} NormalIsStable(d: Dialect, n: Node)
    ensures Normal(d, Normal(d, n)) == Normal(d, n)
    ensures Build(d, Normal(d, n)) == Build(d, n)
    decreases n, 1
  {
    NormalAllIsStable(d, n.children, Trunk(d, n));
    assert (NormalAll(d, n.children) == []) == (n.children == []);
    assert Trunk(d, Normal(d, n)) == Trunk(d, n);
  }

  lemma {:induction false} NormalAllIsStable(d: Dialect, ns: seq<Node>, t: Ptree)
    ensures NormalAll(d, NormalAll(d, ns)) == NormalAll(d, ns)
    ensures AddAll(d, t, NormalAll(d, ns)) == AddAll(d, t, ns)
    decreases ns, 0
  {
    if ns == [] {
    } else {
      var n, rest := ns[0], ns[1..];
      NormalIsStable(d, n);
      assert NormalAll(d, ns)[0] == Normal(d, n) && NormalAll(d, ns)[1..] == NormalAll(d, rest);
      NormalAllIsStable(d, rest, Add(t, n.name, Build(d, n)));
    }
  }
}
