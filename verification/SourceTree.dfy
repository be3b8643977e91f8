/** The folder tree shown for a linked source, built by inserting one relative path after another. */
module SourceTree {
  import opened Basics

  type Name = string
  type Path = seq<Name>

  datatype Kind = Folder | FileNode

  // What is shown of a node besides its children.
  datatype Info = Info(kind: Kind, excluded: bool, documentId: Option<int>, status: string)

  // A node and its children, in the order a dictionary would keep them.
  datatype Node = Node(name: Name, path: Path, info: Info, children: seq<Node>)

  // One path to insert, with what it says of its last node.
  datatype Leaf = Leaf(parts: Path, info: Info)

  const FRESH := Info(Folder, false, None, "")

  function Find(nodes: seq<Node>, name: Name): (k: nat)
    ensures k <= |nodes| && (k < |nodes| ==> nodes[k].name == name)
    ensures forall j | 0 <= j < k :: nodes[j].name != name
  {
    if nodes == [] || nodes[0].name == name then 0 else 1 + Find(nodes[1..], name)
  }

  // A leaf overwrites everything but an exclusion, which stays once it was set.
  function Marked(before: Info, leaf: Info): Info {
    leaf.(excluded := before.excluded || leaf.excluded)
  }

  function Insert(nodes: seq<Node>, prefix: Path, parts: Path, leaf: Info): seq<Node>
    decreases |parts|
  {
    if parts == [] then nodes
    else
      var here := prefix + [parts[0]];
      var k := Find(nodes, parts[0]);
      var node := if k < |nodes| then nodes[k] else Node(parts[0], here, FRESH, []);
      var updated :=
        if |parts| == 1 then node.(info := Marked(node.info, leaf))
        else node.(children := Insert(node.children, here, parts[1..], leaf));
      if k < |nodes| then nodes[k := updated] else nodes + [updated]
  }

  function Build(leaves: seq<Leaf>): seq<Node> {
    if leaves == [] then []
    else
      var last := leaves[|leaves| - 1];
      Insert(Build(leaves[..|leaves| - 1]), [], last.parts, last.info)
  }

  function Lookup(nodes: seq<Node>, p: Path): Option<Node>
    decreases |p|
  {
    if p == [] then None
    else
      var k := Find(nodes, p[0]);
      if k == |nodes| then None
      else if |p| == 1 then Some(nodes[k])
      else Lookup(nodes[k].children, p[1..])
  }

  // Siblings have distinct names and every node knows its path from the root.
  ghost predicate WellFormed(nodes: seq<Node>, prefix: Path)
    decreases nodes
  {
    && (forall i, j | 0 <= i < j < |nodes| :: nodes[i].name != nodes[j].name)
    && forall i | 0 <= i < |nodes| ::
      nodes[i].path == prefix + [nodes[i].name] && WellFormed(nodes[i].children, nodes[i].path)
  }

  // What is shown at a path, and nothing where there is no node.
  function InfoAt(nodes: seq<Node>, p: Path): Option<Info> {
    match Lookup(nodes, p) case None => None case Some(node) => Some(node.info)
  }

  lemma {:induction false} InsertWellFormed(nodes: seq<Node>, prefix: Path, parts: Path, leaf: Info)
    requires WellFormed(nodes, prefix)
    ensures WellFormed(Insert(nodes, prefix, parts, leaf), prefix)
    decreases |parts|
  {
    if parts != [] {
      var here := prefix + [parts[0]];
      var k := Find(nodes, parts[0]);
      var node := if k < |nodes| then nodes[k] else Node(parts[0], here, FRESH, []);
      if |parts| > 1 {
        InsertWellFormed(node.children, here, parts[1..], leaf);
      }
    }
  }

  /** Inserting a path marks its last node, creates what is missing on the way, and changes nothing
      else: one law for every path p. */
  lemma {:induction false} InsertedInfo(nodes: seq<Node>, prefix: Path, parts: Path, leaf: Info, p: Path)
    requires p != []
    ensures InfoAt(Insert(nodes, prefix, parts, leaf), p)
            == var before := InfoAt(nodes, p);
               var known := if before.Some? then before.value else FRESH;
               if p == parts then Some(Marked(known, leaf))
               else if p <= parts then Some(known)
               else before
    decreases |parts|
  {
    if parts == [] {
    } else if p[0] != parts[0] {
      FindAfterInsert(nodes, prefix, parts, leaf, p[0]);
    } else {
      FindAfterInsert(nodes, prefix, parts, leaf, p[0]);
      OnTheWay(p, parts);
      var after := Insert(nodes, prefix, parts, leaf);
      InfoBelow(nodes, prefix, p);
      InfoBelow(after, prefix, p);
      if |p| > 1 && |parts| > 1 {
        InsertedInfo(At(nodes, prefix, parts[0]).children, prefix + [parts[0]], parts[1..], leaf, p[1..]);
        assert InfoAt(after, p) == InfoAt(Insert(At(nodes, prefix, parts[0]).children, prefix + [parts[0]], parts[1..], leaf), p[1..]);
      } else if |p| > 1 {
        assert InfoAt(after, p) == InfoAt(nodes, p);
      } else {
        assert InfoAt(after, p) == Some(At(after, prefix, p[0]).info);
      }
    }
  }

  // The node an insertion goes through: the one there is, or a new one.
  function At(nodes: seq<Node>, prefix: Path, name: Name): Node {
    var k := Find(nodes, name);
    if k < |nodes| then nodes[k] else Node(name, prefix + [name], FRESH, [])
  }

  lemma InfoBelow(nodes: seq<Node>, prefix: Path, p: Path)
    requires p != []
    ensures InfoAt(nodes, p)
            == if |p| > 1 then InfoAt(At(nodes, prefix, p[0]).children, p[1..])
               else if Find(nodes, p[0]) < |nodes| then Some(At(nodes, prefix, p[0]).info)
               else None
  {
  }

  lemma OnTheWay(p: Path, parts: Path)
    requires p != [] && parts != [] && p[0] == parts[0]
    ensures p == parts <==> p[1..] == parts[1..]
    ensures p <= parts <==> p[1..] <= parts[1..]
  {
    assert p == [p[0]] + p[1..] && parts == [parts[0]] + parts[1..];
  }

  lemma FindLeast(nodes: seq<Node>, name: Name, k: nat)
    requires k <= |nodes| && (k < |nodes| ==> nodes[k].name == name)
    requires forall j | 0 <= j < k :: nodes[j].name != name
    ensures Find(nodes, name) == k
  {
    var f := Find(nodes, name);
  }

  lemma FindAfterInsert(nodes: seq<Node>, prefix: Path, parts: Path, leaf: Info, name: Name)
    requires parts != []
    ensures var after := Insert(nodes, prefix, parts, leaf);
            var node := At(nodes, prefix, parts[0]);
            && (name == parts[0] ==>
                  && Find(after, name) < |after|
                  && after[Find(after, name)]
                     == (if |parts| == 1 then node.(info := Marked(node.info, leaf))
                         else node.(children := Insert(node.children, prefix + [parts[0]], parts[1..], leaf))))
            && (name != parts[0] ==>
                  (if Find(nodes, name) == |nodes| then Find(after, name) == |after|
                   else Find(after, name) == Find(nodes, name) && after[Find(nodes, name)] == nodes[Find(nodes, name)]))
  {
    var after := Insert(nodes, prefix, parts, leaf);
    FindLeast(after, parts[0], Find(nodes, parts[0]));
    if name != parts[0] {
      FindLeast(after, name, if Find(nodes, name) == |nodes| then |after| else Find(nodes, name));
    }
  }

  // --- What a built tree shows ---

  ghost predicate Reaches(leaves: seq<Leaf>, p: Path) {
    exists i :: 0 <= i < |leaves| && p <= leaves[i].parts
  }

  ghost predicate ExcludedAt(leaves: seq<Leaf>, p: Path) {
    exists i :: 0 <= i < |leaves| && leaves[i].parts == p && leaves[i].info.excluded
  }

  // The last leaf inserted exactly at a path.
  function LastAt(leaves: seq<Leaf>, p: Path): Option<Info> {
    if leaves == [] then None
    else if leaves[|leaves| - 1].parts == p then Some(leaves[|leaves| - 1].info)
    else LastAt(leaves[..|leaves| - 1], p)
  }

  /** The nodes of a built tree are exactly the non-empty prefixes of the inserted paths. Each shows
      what the last path ending there said, and is excluded if any path ending there was. */
  lemma {:induction false} BuiltInfo(leaves: seq<Leaf>, p: Path)
    requires p != []
    ensures InfoAt(Build(leaves), p).Some? <==> Reaches(leaves, p)
    ensures InfoAt(Build(leaves), p).Some? ==>
      var last := LastAt(leaves, p);
      && (InfoAt(Build(leaves), p).value.excluded <==> ExcludedAt(leaves, p))
      && InfoAt(Build(leaves), p).value.(excluded := false)
         == (if last.Some? then last.value else FRESH).(excluded := false)
    ensures LastAt(leaves, p).Some? ==> InfoAt(Build(leaves), p).Some?
    ensures LastAt(leaves, p).None? ==> !ExcludedAt(leaves, p)
  {
    if leaves != [] {
      var n := |leaves| - 1;
      BuiltInfo(leaves[..n], p);
      InsertedInfo(Build(leaves[..n]), [], leaves[n].parts, leaves[n].info, p);
      LastLeafCounts(leaves[..n], leaves[n], p);
      assert leaves == leaves[..n] + [leaves[n]];
    }
  }

  lemma LastLeafCounts(leaves: seq<Leaf>, last: Leaf, p: Path)
    ensures Reaches(leaves + [last], p) <==> Reaches(leaves, p) || p <= last.parts
    ensures ExcludedAt(leaves + [last], p) <==> ExcludedAt(leaves, p) || (last.parts == p && last.info.excluded)
  {
    var all := leaves + [last];
    assert all[|leaves|] == last;
    assert forall i | 0 <= i < |leaves| :: all[i] == leaves[i];
  }

  lemma {:induction false} BuiltWellFormed(leaves: seq<Leaf>)
    ensures WellFormed(Build(leaves), [])
  {
    if leaves != [] {
      var n := |leaves| - 1;
      BuiltWellFormed(leaves[..n]);
      InsertWellFormed(Build(leaves[..n]), [], leaves[n].parts, leaves[n].info);
    }
  }

  // --- The dictionaries, updated in place ---

  function EntryAt(shown: map<Path, Info>, p: Path): Option<Info> {
    if p in shown then Some(shown[p]) else None
  }

  // What an entry has become after the first i steps of the walk to a leaf.
  function EntryAfter(before: map<Path, Info>, parts: Path, i: nat, leaf: Info, p: Path): Option<Info>
    requires i <= |parts|
  {
    var known := if p in before then before[p] else FRESH;
    if |p| > i || p != parts[..|p|] then EntryAt(before, p)
    else if |p| == |parts| then Some(Marked(known, leaf))
    else Some(known)
  }

  lemma StepEntry(before: map<Path, Info>, parts: Path, i: nat, leaf: Info, p: Path)
    requires i < |parts| && p != []
    ensures p != parts[..i + 1] ==> EntryAfter(before, parts, i + 1, leaf, p) == EntryAfter(before, parts, i, leaf, p)
    ensures p == parts[..i + 1] ==> EntryAfter(before, parts, i, leaf, p) == EntryAt(before, p)
  {
  }

  lemma PrefixByLength(p: Path, parts: Path)
    ensures p <= parts <==> |p| <= |parts| && p == parts[..|p|]
    ensures p == parts <==> p <= parts && |p| == |parts|
  {
  }

  lemma BuildOneMore(leaves: seq<Leaf>, i: nat)
    requires i < |leaves|
    ensures Build(leaves[..i + 1]) == Insert(Build(leaves[..i]), [], leaves[i].parts, leaves[i].info)
  {
    assert leaves[..i + 1][..i] == leaves[..i];
  }

  /** The nested dictionaries with one entry per node, keyed by the names that lead to it. */
  class FolderTree {
    var shown: map<Path, Info>

    ghost predicate Shows(nodes: seq<Node>)
      reads this
    {
      forall p: Path | p != [] :: EntryAt(shown, p) == InfoAt(nodes, p)
    }

    constructor ()
      ensures Shows([])
    {
      shown := map[];
    }

    method InsertPath(parts: Path, leaf: Info, ghost nodes: seq<Node>)
      requires Shows(nodes)
      modifies this
      ensures Shows(Insert(nodes, [], parts, leaf))
    {
      ghost var before := shown;
      var i := 0;
      while i < |parts|
        invariant 0 <= i <= |parts|
        invariant forall p: Path | p != [] :: EntryAt(shown, p) == EntryAfter(before, parts, i, leaf, p)
      {
        var cursor := parts[..i + 1];
        if cursor !in shown {
          shown := shown[cursor := FRESH];
        }
        if i == |parts| - 1 {
          shown := shown[cursor := Marked(shown[cursor], leaf)];
        }
        forall p: Path | p != [] ensures EntryAt(shown, p) == EntryAfter(before, parts, i + 1, leaf, p) {
          StepEntry(before, parts, i, leaf, p);
        }
        i := i + 1;
      }
      forall p: Path | p != [] ensures EntryAt(shown, p) == InfoAt(Insert(nodes, [], parts, leaf), p) {
        InsertedInfo(nodes, [], parts, leaf, p);
        PrefixByLength(p, parts);
      }
    }

    method InsertAll(leaves: seq<Leaf>)
      requires Shows([])
      modifies this
      ensures Shows(Build(leaves))
    {
      var i := 0;
      while i < |leaves|
        invariant 0 <= i <= |leaves|
        invariant Shows(Build(leaves[..i]))
      {
        InsertPath(leaves[i].parts, leaves[i].info, Build(leaves[..i]));
        BuildOneMore(leaves, i);
        i := i + 1;
      }
      assert leaves[..i] == leaves;
    }
  }

  // --- Serialization: the same tree with siblings sorted by name ---

  predicate Less(a: Name, b: Name) {
    b != "" && (a == "" || a[0] < b[0] || (a[0] == b[0] && Less(a[1..], b[1..])))
  }

  lemma {:induction false} LessTransitive(a: Name, b: Name, c: Name)
    requires Less(a, b) && Less(b, c)
    ensures Less(a, c)
  {
    if a != "" && a[0] == b[0] == c[0] {
      LessTransitive(a[1..], b[1..], c[1..]);
    }
  }

  lemma {:induction false} LessTotal(a: Name, b: Name)
    requires a != b
    ensures Less(a, b) != Less(b, a)
  {
    if a != "" && b != "" && a[0] == b[0] {
      assert a == [a[0]] + a[1..] && b == [b[0]] + b[1..];
      LessTotal(a[1..], b[1..]);
    }
  }

  function InsertSorted(node: Node, nodes: seq<Node>): seq<Node> {
    if nodes == [] then [node]
    else if Less(node.name, nodes[0].name) then [node] + nodes
    else [nodes[0]] + InsertSorted(node, nodes[1..])
  }

  function Serialize(nodes: seq<Node>): seq<Node>
    decreases nodes
  {
    if nodes == [] then []
    else InsertSorted(nodes[0].(children := Serialize(nodes[0].children)), Serialize(nodes[1..]))
  }

  ghost predicate Sorted(nodes: seq<Node>) {
    forall i, j | 0 <= i < j < |nodes| :: Less(nodes[i].name, nodes[j].name)
  }

  // Sorted at every level, with every node knowing its path.
  ghost predicate SortedTree(nodes: seq<Node>, prefix: Path)
    decreases nodes
  {
    && Sorted(nodes)
    && forall i | 0 <= i < |nodes| ::
      nodes[i].path == prefix + [nodes[i].name] && SortedTree(nodes[i].children, nodes[i].path)
  }

  ghost predicate Absent(name: Name, nodes: seq<Node>) {
    forall i | 0 <= i < |nodes| :: nodes[i].name != name
  }

  lemma {:induction false} InsertSortedNodes(node: Node, nodes: seq<Node>)
    ensures |InsertSorted(node, nodes)| == |nodes| + 1
    ensures forall x :: x in InsertSorted(node, nodes) <==> x == node || x in nodes
  {
    if nodes != [] && !Less(node.name, nodes[0].name) {
      InsertSortedNodes(node, nodes[1..]);
    }
  }

  lemma {:induction false} InsertSortedKeepsOrder(node: Node, nodes: seq<Node>)
    requires Sorted(nodes) && Absent(node.name, nodes)
    ensures Sorted(InsertSorted(node, nodes))
  {
    if nodes != [] {
      var r := InsertSorted(node, nodes);
      if Less(node.name, nodes[0].name) {
        forall j | 0 <= j < |nodes| ensures Less(node.name, nodes[j].name) {
          if j > 0 { LessTransitive(node.name, nodes[0].name, nodes[j].name); }
        }
      } else {
        InsertSortedKeepsOrder(node, nodes[1..]);
        LessTotal(node.name, nodes[0].name);
        FirstIsLess(node, nodes);
      }
    }
  }

  lemma FirstIsLess(node: Node, nodes: seq<Node>)
    requires nodes != [] && Sorted(nodes) && Less(nodes[0].name, node.name)
    ensures forall j | 0 <= j < |InsertSorted(node, nodes[1..])| :: Less(nodes[0].name, InsertSorted(node, nodes[1..])[j].name)
  {
    var rest := InsertSorted(node, nodes[1..]);
    InsertSortedNodes(node, nodes[1..]);
    forall j | 0 <= j < |rest| ensures Less(nodes[0].name, rest[j].name) {
      assert rest[j] in rest;
      if rest[j] != node {
        var k :| 0 <= k < |nodes[1..]| && nodes[1..][k] == rest[j];
        assert nodes[k + 1] == rest[j];
      }
    }
  }

  // The node of a name among siblings.
  function Named(nodes: seq<Node>, name: Name): Option<Node> {
    var k := Find(nodes, name);
    if k < |nodes| then Some(nodes[k]) else None
  }

  lemma {:induction false} NamedAfterSort(node: Node, nodes: seq<Node>, name: Name)
    requires Absent(node.name, nodes)
    ensures Named(InsertSorted(node, nodes), name) == if name == node.name then Some(node) else Named(nodes, name)
  {
    if nodes != [] && !Less(node.name, nodes[0].name) {
      NamedAfterSort(node, nodes[1..], name);
    }
  }

  lemma {:induction false} SerializedNames(nodes: seq<Node>, name: Name)
    requires forall i, j | 0 <= i < j < |nodes| :: nodes[i].name != nodes[j].name
    ensures Named(Serialize(nodes), name)
            == match Named(nodes, name)
               case None => None
               case Some(node) => Some(node.(children := Serialize(node.children)))
    ensures Absent(name, nodes) ==> Absent(name, Serialize(nodes))
    decreases |nodes|
  {
    if nodes != [] {
      var first := nodes[0].(children := Serialize(nodes[0].children));
      SerializedNames(nodes[1..], name);
      SerializedNames(nodes[1..], first.name);
      NamedAfterSort(first, Serialize(nodes[1..]), name);
      InsertSortedNodes(first, Serialize(nodes[1..]));
    }
  }

  /** Serialization shows the same at every path. */
  lemma {:induction false} SerializedInfo(nodes: seq<Node>, prefix: Path, p: Path)
    requires WellFormed(nodes, prefix)
    ensures InfoAt(Serialize(nodes), p) == InfoAt(nodes, p)
    decreases |p|
  {
    if p != [] {
      SerializedNames(nodes, p[0]);
      var k := Find(nodes, p[0]);
      if |p| > 1 && k < |nodes| {
        SerializedInfo(nodes[k].children, nodes[k].path, p[1..]);
      }
    }
  }

  /** And it is sorted strictly at every level. */
  lemma {:induction false} SerializedIsSorted(nodes: seq<Node>, prefix: Path)
    requires WellFormed(nodes, prefix)
    ensures SortedTree(Serialize(nodes), prefix)
    decreases nodes
  {
    if nodes != [] {
      var first := nodes[0].(children := Serialize(nodes[0].children));
      var rest := Serialize(nodes[1..]);
      SerializedIsSorted(nodes[0].children, nodes[0].path);
      SerializedIsSorted(nodes[1..], prefix);
      SerializedNames(nodes[1..], first.name);
      InsertSortedKeepsOrder(first, rest);
      InsertSortedNodes(first, rest);
      var r := InsertSorted(first, rest);
      forall i | 0 <= i < |r| ensures r[i].path == prefix + [r[i].name] && SortedTree(r[i].children, r[i].path) {
        assert r[i] in r;
      }
    }
  }

  // --- Every node once ---

  // The paths of all nodes, each before those below it.
  function Listing(nodes: seq<Node>): seq<Path>
    decreases nodes
  {
    if nodes == [] then [] else [nodes[0].path] + Listing(nodes[0].children) + Listing(nodes[1..])
  }

  predicate Below(prefix: Path, q: Path) {
    |prefix| < |q| && prefix <= q
  }

  lemma {:induction false} SortedIsWellFormed(nodes: seq<Node>, prefix: Path)
    requires SortedTree(nodes, prefix)
    ensures WellFormed(nodes, prefix)
    decreases nodes
  {
    forall i, j | 0 <= i < j < |nodes| ensures nodes[i].name != nodes[j].name {
      LessIrreflexive(nodes[i].name);
    }
    forall i | 0 <= i < |nodes| ensures WellFormed(nodes[i].children, nodes[i].path) {
      SortedIsWellFormed(nodes[i].children, nodes[i].path);
    }
  }

  lemma {:induction false} LessIrreflexive(a: Name)
    ensures !Less(a, a)
  {
    if a != "" {
      LessIrreflexive(a[1..]);
    }
  }

  lemma {:induction false} Listed(nodes: seq<Node>, prefix: Path, q: Path)
    requires WellFormed(nodes, prefix)
    ensures q in Listing(nodes) <==> Below(prefix, q) && InfoAt(nodes, q[|prefix|..]).Some?
    decreases nodes
  {
    if nodes != [] {
      var first := nodes[0];
      Listed(first.children, first.path, q);
      Listed(nodes[1..], prefix, q);
      if Below(prefix, q) {
        var p := q[|prefix|..];
        SplitFirst(nodes, prefix, p);
        BelowFirst(prefix, first.name, q);
      }
    }
  }

  lemma BelowFirst(prefix: Path, name: Name, q: Path)
    requires Below(prefix, q)
    ensures var p := q[|prefix|..];
            && (Below(prefix + [name], q) <==> |p| > 1 && p[0] == name)
            && (Below(prefix + [name], q) ==> q[|prefix + [name]|..] == p[1..])
            && (q == prefix + [name] <==> p == [name])
  {
    assert q == prefix + q[|prefix|..];
  }

  lemma SplitFirst(nodes: seq<Node>, prefix: Path, p: Path)
    requires nodes != [] && WellFormed(nodes, prefix) && p != []
    ensures InfoAt(nodes, p)
            == if p[0] != nodes[0].name then InfoAt(nodes[1..], p)
               else if |p| == 1 then Some(nodes[0].info)
               else InfoAt(nodes[0].children, p[1..])
  {
  }

  ghost predicate NoDuplicates(ps: seq<Path>) {
    forall i, j | 0 <= i < j < |ps| :: ps[i] != ps[j]
  }

  lemma NoDuplicatesConcat(a: seq<Path>, b: seq<Path>)
    requires NoDuplicates(a) && NoDuplicates(b) && forall x | x in a :: x !in b
    ensures NoDuplicates(a + b)
  {
    forall i, j | 0 <= i < j < |a + b| ensures (a + b)[i] != (a + b)[j] {
      if i < |a| <= j { assert a[i] in a && b[j - |a|] in b; }
    }
  }

  lemma {:induction false} ListedOnce(nodes: seq<Node>, prefix: Path)
    requires WellFormed(nodes, prefix)
    ensures NoDuplicates(Listing(nodes))
    decreases nodes
  {
    if nodes != [] {
      var first := nodes[0];
      var below, rest := Listing(first.children), Listing(nodes[1..]);
      ListedOnce(first.children, first.path);
      ListedOnce(nodes[1..], prefix);
      forall x | x in [first.path] ensures x !in below {
        Listed(first.children, first.path, x);
      }
      NoDuplicatesConcat([first.path], below);
      forall x | x in [first.path] + below ensures x !in rest {
        Listed(first.children, first.path, x);
        Listed(nodes[1..], prefix, x);
        if x in rest { NotBelowSibling(nodes, prefix, x); }
      }
      NoDuplicatesConcat([first.path] + below, rest);
    }
  }

  lemma PrefixAgrees(a: Path, x: Path, i: nat)
    requires i < |a|
    ensures a <= x ==> i < |x| && a[i] == x[i]
  {
  }

  lemma NotBelowSibling(nodes: seq<Node>, prefix: Path, x: Path)
    requires nodes != [] && WellFormed(nodes, prefix)
    requires Below(prefix, x) && InfoAt(nodes[1..], x[|prefix|..]).Some?
    ensures !(nodes[0].path <= x)
  {
    PrefixAgrees(nodes[0].path, x, |prefix|);
    var name := x[|prefix|..][0];
    var k := Find(nodes[1..], name);
    assert nodes[k + 1].name == name;
  }

  /** The serialized tree lists the non-empty prefixes of the inserted paths, each exactly once, with
      siblings in strictly increasing order of name. */
  lemma SerializedTree(leaves: seq<Leaf>, q: Path)
    ensures var s := Serialize(Build(leaves));
            && (q in Listing(s) <==> q != [] && Reaches(leaves, q))
            && NoDuplicates(Listing(s)) && SortedTree(s, [])
            && InfoAt(s, q) == InfoAt(Build(leaves), q)
  {
    var s := Serialize(Build(leaves));
    BuiltWellFormed(leaves);
    SerializedIsSorted(Build(leaves), []);
    SortedIsWellFormed(s, []);
    ListedOnce(s, []);
    Listed(s, [], q);
    SerializedInfo(Build(leaves), [], q);
    if q != [] {
      BuiltInfo(leaves, q);
      assert q[0..] == q;
    }
  }
}
