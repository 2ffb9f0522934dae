/**
 Admission of an SPDX document: identities, file evidence, closed relationships and the
 reachability of every package from the document (clauses 6 to 8 and 11 of SPDX 2.3).
 */
module Spdx {
  import opened Common

  type Id = string

  /** What the checker asks of a package; whether a text is substantive is already a boolean. */
  datatype Package = Package(id: Id, named: bool, versioned: bool, filePurpose: bool, externalRefs: bool)

  datatype Checksum = Checksum(algorithm: string, value: string)

  datatype File = File(id: Id, named: bool, checksums: seq<Checksum>)

  datatype Kind = Describes | Contains | DependsOn | DependencyOf | OtherKind | BlankKind

  datatype Relationship = Relationship(start: Id, end: Id, kind: Kind)

  const DOCUMENT: Id := "SPDXRef-DOCUMENT"

  const PREFIX: string := "SPDXRef-"

  const VERSIONS: set<string> := {"SPDX-2.2", "SPDX-2.3"}

  const DIGEST_LENGTHS: map<string, nat> := map["SHA1" := 40, "SHA256" := 64, "SHA512" := 128]

  /** The whole document: its own identity and metadata, then its three lists. */
  datatype Document = Document(
    id: Id, version: string, named: bool, namespaced: bool, creators: bool, created: bool,
    packages: seq<Package>, files: seq<File>, rels: seq<Relationship>)

  type Graph = map<Id, set<Id>>

  // ---------------------------------------------------------------- what is meant

  /** A relationship read as an edge; a dependency-of runs backwards. */
  predicate Links(r: Relationship, a: Id, b: Id) {
    || ((r.kind.Describes? || r.kind.Contains? || r.kind.DependsOn?) && r.start == a && r.end == b)
    || (r.kind.DependencyOf? && r.end == a && r.start == b)
  }

  predicate Edge(rels: seq<Relationship>, a: Id, b: Id) {
    exists r :: r in rels && Links(r, a, b)
  }

  predicate IsPath(rels: seq<Relationship>, path: seq<Id>, a: Id, b: Id) {
    && path != [] && path[0] == a && path[|path| - 1] == b
    && forall i :: 0 < i < |path| ==> Edge(rels, path[i - 1], path[i])
  }

  ghost predicate Reachable(rels: seq<Relationship>, a: Id, b: Id) {
    exists path :: IsPath(rels, path, a, b)
  }

  function Ids(packages: seq<Package>, files: seq<File>): seq<Id> {
    seq(|packages|, i requires 0 <= i < |packages| => packages[i].id)
    + seq(|files|, i requires 0 <= i < |files| => files[i].id)
  }

  /** Element identities carry the prefix, and neither repeat nor take the document's. */
  predicate Unique(ids: seq<Id>) {
    && (forall i :: 0 <= i < |ids| ==> PREFIX <= ids[i] && ids[i] != DOCUMENT)
    && forall i, k :: 0 <= i < k < |ids| ==> ids[i] != ids[k]
  }

  predicate HexDigit(c: char) {
    '0' <= c <= '9' || 'a' <= c <= 'f' || 'A' <= c <= 'F'
  }

  predicate ChecksumOk(c: Checksum) {
    && c.algorithm in DIGEST_LENGTHS && |c.value| == DIGEST_LENGTHS[c.algorithm]
    && forall i :: 0 <= i < |c.value| ==> HexDigit(c.value[i])
  }

  /** A file is named and every one of its checksums, of which there is one at least, is well formed. */
  predicate FileOk(f: File) {
    f.named && f.checksums != [] && forall c :: c in f.checksums ==> ChecksumOk(c)
  }

  predicate Substantive(d: Document) {
    d.id == DOCUMENT && d.version in VERSIONS && d.named && d.namespaced && d.creators && d.created
  }

  predicate ClosedOver(rels: seq<Relationship>, nodes: set<Id>) {
    forall r :: r in rels ==> r.start in nodes && r.end in nodes && !r.kind.BlankKind?
  }

  /** Only a file aggregate the document describes, with contents of its own, may omit its version. */
  ghost predicate PackageOk(rels: seq<Relationship>, p: Package) {
    && p.named && Reachable(rels, DOCUMENT, p.id)
    && (p.versioned
        || (&& (exists r :: r in rels && r.start == DOCUMENT && r.kind.Describes? && r.end == p.id)
            && p.filePurpose && !p.externalRefs && exists b :: Edge(rels, p.id, b)))
  }

  ghost predicate Admissible(d: Document) {
    && Substantive(d) && d.packages != [] && d.files != [] && d.rels != []
    && Unique(Ids(d.packages, d.files))
    && (forall f :: f in d.files ==> FileOk(f))
    && ClosedOver(d.rels, Nodes(d))
    && (forall p :: p in d.packages ==> PackageOk(d.rels, p))
    && (exists p, f :: p in d.packages && p.versioned && f in d.files && Edge(d.rels, p.id, f.id))
  }

  function Nodes(d: Document): set<Id> {
    {DOCUMENT} + set id | id in Ids(d.packages, d.files)
  }

  // ---------------------------------------------------------------- the checker

  method CollectNodes(ids: seq<Id>) returns (nodes: Option<set<Id>>)
    ensures nodes.Some? <==> Unique(ids)
    ensures nodes.Some? ==> nodes.value == {DOCUMENT} + set id | id in ids
  {
    var seen := {DOCUMENT};
    for i := 0 to |ids|
      invariant seen == {DOCUMENT} + set id | id in ids[..i]
      invariant Unique(ids[..i])
    {
      if !(PREFIX <= ids[i]) || ids[i] in seen {
        assert !Unique(ids[..i + 1]);
        return None;
      }
      assert ids[..i + 1] == ids[..i] + [ids[i]];
      seen := seen + {ids[i]};
    }
    assert ids[..|ids|] == ids;
    return Some(seen);
  }

  method CheckFiles(files: seq<File>) returns (ok: bool)
    ensures ok <==> forall f :: f in files ==> FileOk(f)
  {
    for i := 0 to |files|
      invariant forall k :: 0 <= k < i ==> FileOk(files[k])
    {
      var f := files[i];
      assert f in files;
      if !f.named || f.checksums == [] {
        assert !FileOk(f);
        return false;
      }
      for k := 0 to |f.checksums|
        invariant forall n :: 0 <= n < k ==> ChecksumOk(f.checksums[n])
      {
        if !ChecksumOk(f.checksums[k]) {
          assert f.checksums[k] in f.checksums && !FileOk(f);
          return false;
        }
      }
    }
    return true;
  }

  ghost predicate GraphOf(graph: Graph, rels: seq<Relationship>, nodes: set<Id>) {
    graph.Keys == nodes && forall a, b :: a in nodes ==> (b in graph[a] <==> Edge(rels, a, b))
  }

  method BuildGraph(rels: seq<Relationship>, nodes: set<Id>) returns (graph: Option<Graph>, described: set<Id>)
    ensures graph.Some? <==> ClosedOver(rels, nodes)
    ensures graph.Some? ==>
              && GraphOf(graph.value, rels, nodes)
              && forall b :: b in described <==>
                   exists r :: r in rels && r.start == DOCUMENT && r.kind.Describes? && r.end == b
  {
    var g: Graph := map n | n in nodes :: {};
    described := {};
    for i := 0 to |rels|
      invariant ClosedOver(rels[..i], nodes) && GraphOf(g, rels[..i], nodes)
      invariant forall b :: b in described <==>
                  exists r :: r in rels[..i] && r.start == DOCUMENT && r.kind.Describes? && r.end == b
    {
      var r := rels[i];
      assert rels[..i + 1] == rels[..i] + [r];
      if r.start !in nodes || r.end !in nodes || r.kind.BlankKind? {
        assert r in rels;
        return None, {};
      }
      ghost var before := g;
      if r.kind.Describes? || r.kind.Contains? || r.kind.DependsOn? {
        g := g[r.start := g[r.start] + {r.end}];
      } else if r.kind.DependencyOf? {
        g := g[r.end := g[r.end] + {r.start}];
      }
      EdgeGrows(rels[..i], r);
      if r.start == DOCUMENT && r.kind.Describes? {
        described := described + {r.end};
      }
    }
    assert rels[..|rels|] == rels;
    return Some(g), described;
  }

  lemma EdgeGrows(rels: seq<Relationship>, r: Relationship)
    ensures forall a, b :: Edge(rels + [r], a, b) <==> Edge(rels, a, b) || Links(r, a, b)
  {
    forall a, b | Edge(rels, a, b) ensures Edge(rels + [r], a, b) {
      var x :| x in rels && Links(x, a, b);
      assert x in rels + [r];
    }
    assert r in rels + [r];
  }

  /** Worklist search; a node may wait in the list several times. */
  method Search(graph: Graph, ghost rels: seq<Relationship>) returns (reached: set<Id>)
    requires DOCUMENT in graph && GraphOf(graph, rels, graph.Keys)
    requires forall n :: n in graph ==> graph[n] <= graph.Keys
    ensures reached <= graph.Keys
    ensures forall n :: n in reached <==> Reachable(rels, DOCUMENT, n)
  {
    reached := {};
    var pending := [DOCUMENT];
    Itself(rels, DOCUMENT);
    hide Reachable, Edge;
    while pending != []
      invariant reached <= graph.Keys && forall n :: n in pending ==> n in graph
      invariant DOCUMENT in reached || DOCUMENT in pending
      invariant forall n :: n in reached || n in pending ==> Reachable(rels, DOCUMENT, n)
      invariant forall n, m :: n in reached && m in graph[n] ==> m in reached || m in pending
      decreases |graph.Keys - reached|, |pending|
    {
      var node := pending[|pending| - 1];
      ghost var waiting := pending;
      pending := pending[..|pending| - 1];
      assert forall n :: n in waiting <==> n == node || n in pending;
      if node !in reached {
        var next := Listed(graph[node] - reached);
        forall m | m in next ensures Reachable(rels, DOCUMENT, m) {
          Extend(rels, DOCUMENT, node, m);
        }
        Shrinks(graph.Keys, reached, node);
        reached := reached + {node};
        pending := pending + next;
      }
    }
    ReachedAll(graph, rels, reached);
  }

  lemma ReachedAll(graph: Graph, rels: seq<Relationship>, reached: set<Id>)
    requires GraphOf(graph, rels, graph.Keys) && reached <= graph.Keys && DOCUMENT in reached
    requires forall a, b :: a in reached && b in graph[a] ==> b in reached
    ensures forall n :: Reachable(rels, DOCUMENT, n) ==> n in reached
  {
    hide IsPath, GraphOf;
    forall n | Reachable(rels, DOCUMENT, n) ensures n in reached {
      var path :| IsPath(rels, path, DOCUMENT, n);
      ClosedHasPath(graph, rels, reached, path, n);
    }
  }

  method Listed(s: set<Id>) returns (xs: seq<Id>)
    ensures forall x :: x in xs <==> x in s
  {
    xs := [];
    var rest := s;
    while rest != {}
      invariant rest <= s && forall x :: x in xs <==> x in s - rest
      decreases |rest|
    {
      var x :| x in rest;
      xs, rest := xs + [x], rest - {x};
    }
  }

  lemma Itself(rels: seq<Relationship>, a: Id)
    ensures Reachable(rels, a, a)
  {
    assert IsPath(rels, [a], a, a);
  }

  lemma Extend(rels: seq<Relationship>, a: Id, b: Id, c: Id)
    requires Reachable(rels, a, b) && Edge(rels, b, c)
    ensures Reachable(rels, a, c)
  {
    var path :| IsPath(rels, path, a, b);
    assert IsPath(rels, path + [c], a, c);
  }

  /** A set closed under the edges holds the end of every path that starts in it. */
  lemma {:induction false} ClosedHasPath(graph: Graph, rels: seq<Relationship>, reached: set<Id>, path: seq<Id>, n: Id)
    requires GraphOf(graph, rels, graph.Keys) && reached <= graph.Keys && DOCUMENT in reached
    requires forall a, b :: a in reached && b in graph[a] ==> b in reached
    requires IsPath(rels, path, DOCUMENT, n)
    ensures n in reached
    decreases |path|
  {
    hide Edge;
    if |path| > 1 {
      var front := path[..|path| - 1];
      ClosedHasPath(graph, rels, reached, front, front[|front| - 1]);
      assert Edge(rels, path[|path| - 2], path[|path| - 1]);
    }
  }

  /** The document is accepted exactly when it is admissible, and its versioned packages are returned. */
  method Admit(d: Document) returns (versioned: Option<seq<Package>>)
    ensures versioned.Some? <==> Admissible(d)
    ensures versioned.Some? ==> forall p :: p in versioned.value <==> p in d.packages && p.versioned
  {
    hide Reachable, Edge, FileOk, Unique;
    if d.id != DOCUMENT || d.version !in VERSIONS || !d.named || !d.namespaced || !d.creators || !d.created {
      return None;
    }
    if d.packages == [] || d.files == [] || d.rels == [] {
      return None;
    }
    var nodes := CollectNodes(Ids(d.packages, d.files));
    if nodes.None? {
      return None;
    }
    var filesOk := CheckFiles(d.files);
    if !filesOk {
      return None;
    }
    assert nodes.value == Nodes(d);
    var graph, described := BuildGraph(d.rels, nodes.value);
    if graph.None? {
      return None;
    }
    EdgesClosed(d.rels, nodes.value, graph.value);
    var reached := Search(graph.value, d.rels);
    var kept := CheckPackages(d, graph.value, described, reached);
    if kept.None? {
      return None;
    }
    forall p | p in kept.value ensures p.id in graph.value {
      PackageNode(d, p);
    }
    var linked := LinksFile(graph.value, d.rels, kept.value, d.files);
    return if linked then kept else None;
  }

  lemma PackageNode(d: Document, p: Package)
    requires p in d.packages
    ensures p.id in Nodes(d)
  {
    var i :| 0 <= i < |d.packages| && d.packages[i] == p;
    assert Ids(d.packages, d.files)[i] == p.id;
  }

  /** Every package in turn; the versioned ones are kept. */
  method CheckPackages(d: Document, graph: Graph, described: set<Id>, reached: set<Id>) returns (kept: Option<seq<Package>>)
    requires GraphOf(graph, d.rels, Nodes(d))
    requires forall n :: n in reached <==> Reachable(d.rels, DOCUMENT, n)
    requires forall b :: b in described <==> exists r :: r in d.rels && r.start == DOCUMENT && r.kind.Describes? && r.end == b
    ensures kept.Some? <==> forall p :: p in d.packages ==> PackageOk(d.rels, p)
    ensures kept.Some? ==> forall p :: p in kept.value <==> p in d.packages && p.versioned
  {
    hide Reachable, Edge, Nodes;
    var packages := d.packages;
    var versioned := [];
    for i := 0 to |packages|
      invariant forall p :: p in packages[..i] ==> PackageOk(d.rels, p)
      invariant forall p :: p in versioned <==> p in packages[..i] && p.versioned
    {
      var p := packages[i];
      assert packages[..i + 1] == packages[..i] + [p];
      PackageNode(d, p);
      HasEdge(d.rels, Nodes(d), graph, p.id);
      if !p.named || p.id !in reached {
        assert p in packages && !PackageOk(d.rels, p);
        return None;
      }
      if p.versioned {
        versioned := versioned + [p];
      } else if p.id !in described || !p.filePurpose || p.externalRefs || graph[p.id] == {} {
        assert p in packages && !PackageOk(d.rels, p);
        return None;
      }
    }
    assert packages[..|packages|] == packages;
    return Some(versioned);
  }

  lemma EdgesClosed(rels: seq<Relationship>, nodes: set<Id>, graph: Graph)
    requires ClosedOver(rels, nodes) && GraphOf(graph, rels, nodes)
    ensures forall n :: n in graph ==> graph[n] <= nodes
  {
  }

  lemma HasEdge(rels: seq<Relationship>, nodes: set<Id>, graph: Graph, a: Id)
    requires GraphOf(graph, rels, nodes) && a in nodes
    ensures graph[a] != {} <==> exists b :: Edge(rels, a, b)
  {
    hide Edge;
    if graph[a] != {} {
      var b :| b in graph[a];
      assert Edge(rels, a, b);
    }
  }

  method LinksFile(graph: Graph, ghost rels: seq<Relationship>, versioned: seq<Package>, files: seq<File>)
    returns (linked: bool)
    requires GraphOf(graph, rels, graph.Keys) && forall p :: p in versioned ==> p.id in graph
    ensures linked <==> exists p, f :: p in versioned && f in files && Edge(rels, p.id, f.id)
  {
    hide Edge;
    var fileIds := set f | f in files :: f.id;
    for i := 0 to |versioned|
      invariant forall k, f :: 0 <= k < i && f in files ==> !Edge(rels, versioned[k].id, f.id)
    {
      var found := graph[versioned[i].id] * fileIds;
      if found != {} {
        var id :| id in found;
        var f :| f in files && f.id == id;
        assert versioned[i] in versioned && Edge(rels, versioned[i].id, f.id);
        return true;
      }
      assert forall f :: f in files ==> f.id in fileIds && f.id !in found;
    }
    return false;
  }
}
