/** The evidence catalog: the fixture cycle check and transitive invalidation. */
module Catalog {
  import opened Wrappers

  type Id = string

  // ---------------------------------------------------------------- the fixture graph

  /** Each fixture's `depends_on`. */
  type Fixtures = map<Id, seq<Id>>

  /** Every dependency names a known fixture. */
  ghost predicate Closed(g: Fixtures) {
    forall f, d :: f in g && d in g[f] ==> d in g
  }

  /** Each fixture of the path depends on the next. */
  ghost predicate Path(g: Fixtures, p: seq<Id>) {
    && p != []
    && (forall i :: 0 <= i < |p| ==> p[i] in g)
    && (forall i :: 0 <= i < |p| - 1 ==> p[i + 1] in g[p[i]])
  }

  ghost predicate Cycle(g: Fixtures, p: seq<Id>) {
    Path(g, p) && |p| >= 2 && p[0] == p[|p| - 1]
  }

  ghost predicate Acyclic(g: Fixtures) {
    forall p :: !Cycle(g, p)
  }

  /** `done` is closed under dependencies, and no cycle starts in it. */
  ghost predicate Finished(g: Fixtures, done: set<Id>) {
    && done <= g.Keys
    && (forall f :: f in done ==> DependsWithin(g, f, done))
    && (forall p :: Cycle(g, p) ==> p[0] !in done)
  }

  predicate DependsWithin(g: Fixtures, f: Id, s: set<Id>)
    requires f in g
  {
    forall d :: d in g[f] ==> d in s
  }

  lemma SomeElement(s: set<Id>)
    requires s != {}
    ensures exists x :: x in s
  {
  }

  function Elements(s: seq<Id>): set<Id> {
    set x | x in s
  }

  /** A path that starts in a finished set never leaves it. */
  lemma {:induction false} PathStays(g: Fixtures, done: set<Id>, p: seq<Id>, i: nat)
    requires Finished(g, done) && Path(g, p) && p[0] in done && i < |p|
    ensures p[i] in done
    decreases i
  {
    if i > 0 {
      var j := i - 1;
      PathStays(g, done, p, j);
      var f, d := p[j], p[j + 1];
      assert DependsWithin(g, f, done) && d in g[f];
    }
  }

  /** A fixture whose dependencies are all finished is on no cycle. */
  lemma FinishOne(g: Fixtures, done: set<Id>, id: Id)
    requires Finished(g, done) && id in g && id !in done
    requires DependsWithin(g, id, done)
    ensures Finished(g, done + {id})
  {
    forall f | f in done + {id} ensures DependsWithin(g, f, done + {id}) {
      assert f != id ==> DependsWithin(g, f, done);
    }
    forall p | Cycle(g, p) ensures p[0] !in done + {id} {
      if p[0] == id {
        var rest := p[1..];
        assert Path(g, rest) by {
          assert forall i :: 0 <= i < |rest| ==> rest[i] == p[i + 1];
        }
        var d := p[0 + 1];
        assert d in g[id] && rest[0] == d;
        PathStays(g, done, rest, |rest| - 1);
      }
    }
  }

  lemma RevisitIsCycle(g: Fixtures, stack: seq<Id>, id: Id)
    requires Path(g, stack + [id]) && id in stack
    ensures !Acyclic(g)
  {
    var i :| 0 <= i < |stack| && stack[i] == id;
    var p := (stack + [id])[i..];
    assert forall k :: 0 <= k < |p| ==> p[k] == (stack + [id])[i + k];
    assert Cycle(g, p);
  }

  /**
   * `visit`: depth-first search. `stack` is the path of fixtures being visited, whose
   * elements are the set `visiting`.
   */
  method Visit(g: Fixtures, id: Id, visiting: set<Id>, visited: set<Id>, ghost stack: seq<Id>)
      returns (ok: bool, visited': set<Id>)
    requires id in g && Path(g, stack + [id]) && visiting == Elements(stack)
    requires Finished(g, visited) && visiting !! visited
    ensures ok ==> Finished(g, visited') && visited <= visited' && id in visited' && visiting !! visited'
    ensures !ok ==> !(Closed(g) && Acyclic(g))
    decreases g.Keys - visiting, 1
  {
    visited' := visited;
    if id in visiting {
      RevisitIsCycle(g, stack, id);
      return false, visited';
    }
    if id in visited { return true, visited'; }
    var inner := visiting + {id};
    ghost var path := stack + [id];
    assert inner == Elements(path);
    for i := 0 to |g[id]|
      invariant Finished(g, visited') && visited <= visited' && inner !! visited'
      invariant forall k :: 0 <= k < i ==> g[id][k] in visited'
    {
      var parent := g[id][i];
      if parent !in g { return false, visited'; }
      assert Path(g, path + [parent]);
      ok, visited' := Visit(g, parent, inner, visited', path);
      if !ok { return; }
    }
    FinishOne(g, visited', id);
    visited' := visited' + {id};
    ok := true;
  }

  /**
   * `_assert_fixture_graph_acyclic` accepts exactly the graphs whose dependencies are
   * all known and which have no cycle.
   */
  method CheckFixtureGraph(g: Fixtures) returns (ok: bool)
    ensures ok <==> Closed(g) && Acyclic(g)
  {
    var visited: set<Id> := {};
    var remaining: set<Id> := g.Keys;
    while remaining != {}
      invariant Finished(g, visited) && remaining <= g.Keys && g.Keys - remaining <= visited
      decreases |remaining|
    {
      SomeElement(remaining);
      var id :| id in remaining;
      assert Path(g, [] + [id]);
      ok, visited := Visit(g, id, {}, visited, []);
      if !ok { return; }
      remaining := remaining - {id};
    }
    assert visited == g.Keys;
    ok := true;
  }

  // ---------------------------------------------------------------- dependency edges

  /** catalog_dependencies: pairs of a parent and the child that depends on it. */
  type Edges = set<(Id, Id)>

  function Children(edges: Edges, id: Id): set<Id> {
    set e | e in edges && e.0 == id :: e.1
  }

  /** Each entry of the path is a child of the one before. */
  ghost predicate Descends(edges: Edges, p: seq<Id>) {
    |p| >= 2 && forall i :: 0 <= i < |p| - 1 ==> (p[i], p[i + 1]) in edges
  }

  ghost predicate Reaches(edges: Edges, a: Id, b: Id) {
    exists p :: Descends(edges, p) && p[0] == a && p[|p| - 1] == b
  }

  /** The content-addressed id of each fixture's entry. */
  type CatalogIds = map<Id, Id>

  /** The edges `index_fixtures` inserts: catalog ids of a dependency and of what depends on it. */
  function IndexEdges(g: Fixtures, ids: CatalogIds): Edges
    requires Indexed(g, ids)
  {
    set f, d | f in g && d in g[f] :: (ids[d], ids[f])
  }

  /** Every fixture and every dependency has an entry. */
  ghost predicate Indexed(g: Fixtures, ids: CatalogIds) {
    forall f :: f in g ==> f in ids && forall d :: d in g[f] ==> d in ids
  }

  /** No dependency collapses onto the entry that depends on it; `index_fixtures` refuses one that does. */
  ghost predicate NoSelfEdge(g: Fixtures, ids: CatalogIds)
    requires Indexed(g, ids)
  {
    forall f, d :: f in g && d in g[f] ==> ids[d] != ids[f]
  }

  /** Fixture b depends on a, and c depends on b. */
  const CHAIN: Fixtures := map["a" := [], "b" := ["a"], "c" := ["b"]]

  /** The content of c equals that of a. */
  const CHAIN_IDS: CatalogIds := map["a" := "catalog:1", "b" := "catalog:2", "c" := "catalog:1"]

  lemma ChainAccepted()
    ensures Closed(CHAIN) && Acyclic(CHAIN)
  {
    assert "a" != "b" && "b" != "c" && "a" != "c";
    assert Finished(CHAIN, {}) by { assert forall p :: Cycle(CHAIN, p) ==> p[0] !in {}; }
    FinishOne(CHAIN, {}, "a");
    FinishOne(CHAIN, {} + {"a"}, "b");
    FinishOne(CHAIN, {} + {"a"} + {"b"}, "c");
  }

  lemma ChainIndexed()
    ensures Indexed(CHAIN, CHAIN_IDS) && NoSelfEdge(CHAIN, CHAIN_IDS)
  {
    assert "catalog:1" != "catalog:2";
  }

  /** Fixtures with equal content share an entry, so accepted entries can form a cycle the fixtures did not. */
  lemma MergedFixturesCanCycle()
    ensures exists g: Fixtures, ids: CatalogIds, entry: Id ::
      Closed(g) && Acyclic(g) && Indexed(g, ids) && NoSelfEdge(g, ids) && Reaches(IndexEdges(g, ids), entry, entry)
  {
    hide Closed, Acyclic, NoSelfEdge;
    ChainAccepted();
    ChainIndexed();
    var edges, shared, other := IndexEdges(CHAIN, CHAIN_IDS), "catalog:1", "catalog:2";
    assert "a" in CHAIN["b"] && "b" in CHAIN["c"];
    assert (shared, other) in edges && (other, shared) in edges;
    assert Descends(edges, [shared, other, shared]);
    assert Reaches(edges, shared, shared);
  }

  /** The graph of the entries: each depends on the entries of what its fixtures depend on. */
  ghost predicate Merges(g: Fixtures, ids: CatalogIds, entries: Fixtures)
    requires Indexed(g, ids)
  {
    && (forall e :: e in entries <==> exists f :: f in g && ids[f] == e)
    && (forall e, d :: e in entries ==> (d in entries[e] <==> (d, e) in IndexEdges(g, ids)))
  }

  /** A path of dependencies read backwards descends, and the other way round. */
  function Backwards(p: seq<Id>): seq<Id> {
    seq(|p|, i requires 0 <= i < |p| => p[|p| - 1 - i])
  }

  lemma CycleDescends(edges: Edges, entries: Fixtures, p: seq<Id>)
    requires forall e, d :: e in entries && d in entries[e] ==> (d, e) in edges
    requires Cycle(entries, p)
    ensures Reaches(edges, p[0], p[0])
  {
    var q := Backwards(p);
    forall i | 0 <= i < |q| - 1 ensures (q[i], q[i + 1]) in edges {
      var j := |p| - 2 - i;
      assert p[j + 1] in entries[p[j]];
    }
    assert Descends(edges, q) && q[0] == p[0] && q[|q| - 1] == p[0];
  }

  lemma DescentCycles(edges: Edges, entries: Fixtures, p: seq<Id>)
    requires forall e, d :: (d, e) in edges ==> e in entries && d in entries && d in entries[e]
    requires Descends(edges, p) && p[0] == p[|p| - 1]
    ensures !Acyclic(entries)
  {
    var q := Backwards(p);
    forall i | 0 <= i < |q| ensures q[i] in entries {
      var j := if i == |q| - 1 then 0 else |p| - 2 - i;
      assert (p[j], p[j + 1]) in edges;
    }
    forall i | 0 <= i < |q| - 1 ensures q[i + 1] in entries[q[i]] {
      var j := |p| - 2 - i;
      assert (p[j], p[j + 1]) in edges;
    }
    assert Cycle(entries, q);
  }

  /** The entries depend on entries only, so the cycle check looks for cycles and nothing else. */
  lemma MergedClosed(g: Fixtures, ids: CatalogIds, entries: Fixtures)
    requires Closed(g) && Indexed(g, ids) && Merges(g, ids, entries)
    ensures Closed(entries)
    ensures forall e, d :: (d, e) in IndexEdges(g, ids) ==> e in entries && d in entries && d in entries[e]
  {
    forall e, d | (d, e) in IndexEdges(g, ids) ensures e in entries && d in entries && d in entries[e] {
      var f, p :| f in g && p in g[f] && ids[p] == d && ids[f] == e;
      assert p in g;
    }
  }

  /** The cycle check accepts the graph of the entries exactly when no entry reaches itself. */
  lemma MergedAcyclicIff(g: Fixtures, ids: CatalogIds, entries: Fixtures)
    requires Closed(g) && Indexed(g, ids) && Merges(g, ids, entries)
    ensures Closed(entries)
    ensures Acyclic(entries) <==> forall e :: !Reaches(IndexEdges(g, ids), e, e)
  {
    var edges := IndexEdges(g, ids);
    MergedClosed(g, ids, entries);
    if Acyclic(entries) {
      forall e ensures !Reaches(edges, e, e) {
        if Reaches(edges, e, e) {
          var p :| Descends(edges, p) && p[0] == e && p[|p| - 1] == e;
          DescentCycles(edges, entries, p);
        }
      }
    } else {
      var p :| Cycle(entries, p);
      CycleDescends(edges, entries, p);
    }
  }

  // ---------------------------------------------------------------- cycles in terms of the fixtures

  /** The fixture depends on something with the content of the other. */
  ghost predicate DependsOnContent(g: Fixtures, ids: CatalogIds, f: Id, other: Id)
    requires Indexed(g, ids) && f in g && other in g
  {
    exists d :: d in g[f] && ids[d] == ids[other]
  }

  /** Each fixture depends on something with the content of the next, and the last has that of the first. */
  ghost predicate ContentCycle(g: Fixtures, ids: CatalogIds, p: seq<Id>)
    requires Indexed(g, ids)
  {
    && |p| >= 2 && (forall i :: 0 <= i < |p| ==> p[i] in g)
    && (forall i: nat :: i < |p| - 1 ==> ContentStep(g, ids, p, i))
    && ids[p[0]] == ids[p[|p| - 1]]
  }

  ghost predicate ContentStep(g: Fixtures, ids: CatalogIds, p: seq<Id>, i: nat)
    requires Indexed(g, ids) && i < |p| - 1 && forall k :: 0 <= k < |p| ==> p[k] in g
  {
    DependsOnContent(g, ids, p[i], p[i + 1])
  }

  lemma ContentCycleMerges(g: Fixtures, ids: CatalogIds, entries: Fixtures, p: seq<Id>)
    requires Closed(g) && Indexed(g, ids) && Merges(g, ids, entries) && ContentCycle(g, ids, p)
    ensures !Acyclic(entries)
  {
    MergedClosed(g, ids, entries);
    var q := seq(|p|, i requires 0 <= i < |p| => ids[p[i]]);
    forall i | 0 <= i < |q| ensures q[i] in entries {}
    forall i: nat | i < |q| - 1 ensures q[i + 1] in entries[q[i]] {
      assert ContentStep(g, ids, p, i);
      var d :| d in g[p[i]] && ids[d] == ids[p[i + 1]];
      assert (ids[d], ids[p[i]]) in IndexEdges(g, ids);
    }
    assert Cycle(entries, q);
  }

  lemma SomeFixture(g: Fixtures, ids: CatalogIds, entries: Fixtures, e: Id) returns (f: Id)
    requires Indexed(g, ids) && Merges(g, ids, entries) && e in entries
    ensures f in g && ids[f] == e
  {
    var x :| x in g && ids[x] == e;
    f := x;
  }

  lemma FixtureBehind(g: Fixtures, ids: CatalogIds, entries: Fixtures, e: Id, next: Id, other: Id) returns (f: Id)
    requires Indexed(g, ids) && Merges(g, ids, entries) && e in entries && next in entries[e]
    requires other in g && ids[other] == next
    ensures f in g && ids[f] == e && DependsOnContent(g, ids, f, other)
  {
    assert (next, e) in IndexEdges(g, ids);
    var x, d :| x in g && d in g[x] && ids[d] == next && ids[x] == e;
    f := x;
  }

  /** Fixtures behind a path of entries: each entry's own, and one for the entry the path ends in. */
  lemma {:induction false} FixturesBehind(g: Fixtures, ids: CatalogIds, entries: Fixtures, q: seq<Id>)
      returns (p: seq<Id>)
    requires Closed(g) && Indexed(g, ids) && Merges(g, ids, entries) && Path(entries, q)
    ensures |p| == |q| && (forall i :: 0 <= i < |p| ==> p[i] in g && ids[p[i]] == q[i])
    ensures forall i: nat :: i < |p| - 1 ==> ContentStep(g, ids, p, i)
    decreases |q|
  {
    hide Closed, IndexEdges, DependsOnContent;
    if |q| == 1 {
      var f := SomeFixture(g, ids, entries, q[0]);
      return [f];
    }
    var tail := q[1..];
    assert Path(entries, tail) by { assert forall i :: 0 <= i < |tail| ==> tail[i] == q[i + 1]; }
    var rest := FixturesBehind(g, ids, entries, tail);
    var e, next := q[0], q[0 + 1];
    assert next in entries[e];
    var f := FixtureBehind(g, ids, entries, e, next, rest[0]);
    p := [f] + rest;
    assert forall i :: 1 <= i < |p| ==> p[i] == rest[i - 1] && q[i] == tail[i - 1];
    forall i: nat | i < |p| - 1 ensures ContentStep(g, ids, p, i) {
      if i > 0 { assert ContentStep(g, ids, rest, i - 1); }
    }
  }

  /** In terms of the fixtures: the entries are acyclic exactly when no dependencies lead from a content to itself. */
  lemma MergedAcyclicIffNoContentCycle(g: Fixtures, ids: CatalogIds, entries: Fixtures)
    requires Closed(g) && Indexed(g, ids) && Merges(g, ids, entries)
    ensures Acyclic(entries) <==> forall p :: !ContentCycle(g, ids, p)
  {
    hide ContentCycle;
    if Acyclic(entries) {
      forall p ensures !ContentCycle(g, ids, p) {
        if ContentCycle(g, ids, p) { ContentCycleMerges(g, ids, entries, p); }
      }
    } else {
      var q :| Cycle(entries, q);
      var p := FixturesBehind(g, ids, entries, q);
      ContentCycleIs(g, ids, p);
    }
  }

  lemma ContentCycleIs(g: Fixtures, ids: CatalogIds, p: seq<Id>)
    requires Indexed(g, ids) && |p| >= 2 && (forall i :: 0 <= i < |p| ==> p[i] in g)
    requires (forall i: nat :: i < |p| - 1 ==> ContentStep(g, ids, p, i)) && ids[p[0]] == ids[p[|p| - 1]]
    ensures ContentCycle(g, ids, p)
  {
  }

  /** Without equal contents nothing is merged, and accepted fixtures give acyclic entries. */
  lemma DistinctContentsStayAcyclic(g: Fixtures, ids: CatalogIds, entries: Fixtures)
    requires Closed(g) && Acyclic(g) && Indexed(g, ids) && Merges(g, ids, entries)
    requires forall e, f :: e in g && f in g && ids[e] == ids[f] ==> e == f
    ensures Acyclic(entries)
  {
    forall p ensures !ContentCycle(g, ids, p) {
      if ContentCycle(g, ids, p) {
        forall i: nat | i < |p| - 1 ensures p[i + 1] in g[p[i]] {
          assert ContentStep(g, ids, p, i);
          var d :| d in g[p[i]] && ids[d] == ids[p[i + 1]];
          assert d in g;
        }
        assert Cycle(g, p);
      }
    }
    MergedAcyclicIffNoContentCycle(g, ids, entries);
  }

  // ---------------------------------------------------------------- indexing over earlier edges

  /** The entries of a fixture set. */
  function EntriesOf(g: Fixtures, ids: CatalogIds): set<Id>
    requires Indexed(g, ids)
  {
    set f | f in g :: ids[f]
  }

  /** What is left of earlier edges: those whose child is not indexed anew. */
  function KeptEdges(prior: Edges, g: Fixtures, ids: CatalogIds): Edges
    requires Indexed(g, ids)
  {
    set e | e in prior && e.1 !in EntriesOf(g, ids)
  }

  /** catalog_dependencies after an indexing run over the edges of earlier ones. */
  function Reindexed(prior: Edges, g: Fixtures, ids: CatalogIds): Edges
    requires Indexed(g, ids)
  {
    KeptEdges(prior, g, ids) + IndexEdges(g, ids)
  }

  lemma IndexEdgesInside(g: Fixtures, ids: CatalogIds)
    requires Closed(g) && Indexed(g, ids)
    ensures forall e :: e in IndexEdges(g, ids) ==> e.0 in EntriesOf(g, ids) && e.1 in EntriesOf(g, ids)
  {
    forall e | e in IndexEdges(g, ids) ensures e.0 in EntriesOf(g, ids) && e.1 in EntriesOf(g, ids) {
      var f, d :| f in g && d in g[f] && e == (ids[d], ids[f]);
      assert d in g;
    }
  }

  /** Going up from an entry indexed anew, one never leaves the entries indexed anew. */
  lemma {:induction false} AncestorsInside(prior: Edges, g: Fixtures, ids: CatalogIds, p: seq<Id>, i: nat, j: nat)
    requires Closed(g) && Indexed(g, ids) && Descends(Reindexed(prior, g, ids), p)
    requires i <= j < |p| && p[j] in EntriesOf(g, ids)
    ensures p[i] in EntriesOf(g, ids)
    decreases j - i
  {
    if i < j {
      IndexEdgesInside(g, ids);
      var k := j - 1;
      assert (p[k], p[k + 1]) in Reindexed(prior, g, ids);
      AncestorsInside(prior, g, ids, p, i, k);
    }
  }

  lemma MoreEdgesReach(edges: Edges, more: Edges, a: Id, b: Id)
    requires edges <= more && Reaches(edges, a, b)
    ensures Reaches(more, a, b)
  {
    var p :| Descends(edges, p) && p[0] == a && p[|p| - 1] == b;
    assert Descends(more, p);
  }

  /**
   * Edges of earlier runs add no cycle with the new ones: after an indexing run the
   * dependencies are acyclic exactly when the new edges are, and the kept ones are.
   */
  lemma ReindexedAcyclicIff(prior: Edges, g: Fixtures, ids: CatalogIds)
    requires Closed(g) && Indexed(g, ids)
    ensures (forall e :: !Reaches(Reindexed(prior, g, ids), e, e)) <==>
      && (forall e :: !Reaches(IndexEdges(g, ids), e, e))
      && (forall e :: !Reaches(KeptEdges(prior, g, ids), e, e))
  {
    hide Reaches;
    var all, kept, added := Reindexed(prior, g, ids), KeptEdges(prior, g, ids), IndexEdges(g, ids);
    forall e | Reaches(added, e, e) || Reaches(kept, e, e) ensures Reaches(all, e, e) {
      if Reaches(added, e, e) { MoreEdgesReach(added, all, e, e); } else { MoreEdgesReach(kept, all, e, e); }
    }
    forall e | Reaches(all, e, e) ensures Reaches(added, e, e) || Reaches(kept, e, e) {
      CycleOnOneSide(prior, g, ids, e);
    }
  }

  lemma CycleOnOneSide(prior: Edges, g: Fixtures, ids: CatalogIds, e: Id)
    requires Closed(g) && Indexed(g, ids) && Reaches(Reindexed(prior, g, ids), e, e)
    ensures Reaches(IndexEdges(g, ids), e, e) || Reaches(KeptEdges(prior, g, ids), e, e)
  {
    var all, kept, added := Reindexed(prior, g, ids), KeptEdges(prior, g, ids), IndexEdges(g, ids);
    var p :| Descends(all, p) && p[0] == e && p[|p| - 1] == e;
    var last := |p| - 1;
    IndexEdgesInside(g, ids);
    if e in EntriesOf(g, ids) {
      forall i | 0 <= i < last ensures (p[i], p[i + 1]) in added {
        AncestorsInside(prior, g, ids, p, i + 1, last);
        assert (p[i], p[i + 1]) in all;
      }
      assert Descends(added, p);
    } else {
      forall i | 0 <= i < last ensures (p[i], p[i + 1]) in kept {
        if p[i + 1] in EntriesOf(g, ids) { AncestorsInside(prior, g, ids, p, 0, i + 1); }
        assert (p[i], p[i + 1]) in all;
      }
      assert Descends(kept, p);
    }
  }

  // ---------------------------------------------------------------- transitive invalidation

  datatype RowStatus = Valid | Stale | Invalid

  datatype Reason = Given(text: string) | DependencyInvalidated(root: Id)

  datatype Row = Row(
    status: RowStatus, contentDigest: int, staleAt: Option<int>, invalidatedAt: Option<int>, reason: Option<Reason>)

  lemma {:induction false} ReachesStep(edges: Edges, a: Id, b: Id, c: Id)
    requires Reaches(edges, a, b) && (b, c) in edges
    ensures Reaches(edges, a, c)
  {
    var p :| Descends(edges, p) && p[0] == a && p[|p| - 1] == b;
    var q := p + [c];
    assert forall i :: 0 <= i < |q| - 1 ==> (q[i], q[i + 1]) in edges;
    assert Descends(edges, q) && q[0] == a && q[|q| - 1] == c;
  }

  /** A set that holds the root's children and is closed under children holds everything reachable. */
  lemma {:induction false} ClosedHoldsPath(edges: Edges, root: Id, found: set<Id>, p: seq<Id>, i: nat)
    requires Children(edges, root) <= found
    requires forall x :: x in found ==> Children(edges, x) <= found
    requires Descends(edges, p) && p[0] == root && 1 <= i < |p|
    ensures p[i] in found
    decreases i
  {
    assert (p[i - 1], p[i]) in edges;
    assert p[i] in Children(edges, p[i - 1]);
    if i > 1 { ClosedHoldsPath(edges, root, found, p, i - 1); }
  }

  lemma ChildrenReached(edges: Edges, root: Id, x: Id)
    requires x == root || Reaches(edges, root, x)
    ensures forall c :: c in Children(edges, x) ==> Reaches(edges, root, c)
  {
    forall c | c in Children(edges, x) ensures Reaches(edges, root, c) {
      if x == root {
        assert Descends(edges, [root, c]) && [root, c][0] == root;
      } else {
        ReachesStep(edges, root, x, c);
      }
    }
  }

  lemma ReachedAreFound(edges: Edges, root: Id, found: set<Id>)
    requires Children(edges, root) <= found
    requires forall x :: x in found ==> Children(edges, x) <= found
    ensures forall x :: Reaches(edges, root, x) ==> x in found
  {
    forall x | Reaches(edges, root, x) ensures x in found {
      var p :| Descends(edges, p) && p[0] == root && p[|p| - 1] == x;
      ClosedHoldsPath(edges, root, found, p, |p| - 1);
    }
  }

  /** The recursive query: every entry reachable from the root, the root itself if it is on a cycle. */
  method Descendants(edges: Edges, root: Id) returns (found: set<Id>)
    ensures forall x :: x in found <==> Reaches(edges, root, x)
  {
    hide Reaches;
    ghost var all := set e | e in edges :: e.1;
    found := Children(edges, root);
    ChildrenReached(edges, root, root);
    var frontier := found;
    while frontier != {}
      invariant frontier <= found <= all && Children(edges, root) <= found
      invariant forall x :: x in found ==> Reaches(edges, root, x)
      invariant forall x :: x in found && x !in frontier ==> Children(edges, x) <= found
      decreases |all| - |found|, |frontier|
    {
      SomeElement(frontier);
      var x :| x in frontier;
      var unseen := Children(edges, x) - found;
      ChildrenReached(edges, root, x);
      SubsetSize(found + unseen, all);
      found := found + unseen;
      frontier := frontier - {x} + unseen;
    }
    ReachedAreFound(edges, root, found);
  }

  /**
   * Invalidation follows dependencies: whatever depends on a fixture, directly or through
   * others, has an entry that is reached from that fixture's entry.
   */
  lemma DependentsReached(g: Fixtures, ids: CatalogIds, p: seq<Id>)
    requires Indexed(g, ids) && Path(g, p) && |p| >= 2
    ensures Reaches(IndexEdges(g, ids), ids[p[|p| - 1]], ids[p[0]])
  {
    var n := |p|;
    var q := seq(n, i requires 0 <= i < n => ids[p[n - 1 - i]]);
    forall i | 0 <= i < n - 1 ensures (q[i], q[i + 1]) in IndexEdges(g, ids) {
      var j := n - 2 - i;
      var f, d := p[j], p[j + 1];
      assert f in g && d in g[f];
    }
    assert Descends(IndexEdges(g, ids), q) && q[0] == ids[p[n - 1]] && q[n - 1] == ids[p[0]];
  }

  /** What invalidating `root` does to one row. */
  ghost function InvalidatedRow(edges: Edges, root: Id, reason: string, now: int, id: Id, row: Row): Row {
    if id == root then Row(Invalid, row.contentDigest, None, Some(now), Some(Given(reason)))
    else if Reaches(edges, root, id) && row.status != Invalid
    then row.(status := Stale, staleAt := Some(now), reason := Some(DependencyInvalidated(root)))
    else row
  }

  class EvidenceCatalog {
    var rows: map<Id, Row>
    var edges: Edges

    /** The foreign keys of catalog_dependencies. */
    ghost predicate ForeignKeys()
      reads this
    {
      forall e :: e in edges ==> e.0 in rows && e.1 in rows
    }

    /**
     * `invalidate`, on any dependency graph, cyclic ones included: the root becomes
     * invalid, whatever is reachable from it becomes stale unless already invalid, and
     * nothing else changes. `reason` is the reason without surrounding whitespace; an empty
     * or overlong one, or an unknown entry, changes nothing.
     */
    method Invalidate(root: Id, reason: string, now: int) returns (ok: bool, staleDependents: set<Id>)
      requires ForeignKeys()
      modifies this`rows
      ensures ok <==> 1 <= |reason| <= 500 && root in old(rows)
      ensures !ok ==> rows == old(rows)
      ensures ok ==> rows.Keys == old(rows).Keys
                     && forall id :: id in rows ==>
                          rows[id] == InvalidatedRow(edges, root, reason, now, id, old(rows)[id])
      ensures ok ==> forall id :: id in staleDependents <==>
                     id in old(rows) && id != root && Reaches(edges, root, id) && old(rows)[id].status != Invalid
      ensures ForeignKeys()
    {
      hide Reaches;
      staleDependents := {};
      if |reason| == 0 || |reason| > 500 || root !in rows { return false, staleDependents; }
      var descendants := Descendants(edges, root);
      assert descendants <= rows.Keys by { DescendantsHaveRows(descendants, root); }
      rows := rows[root := Row(Invalid, rows[root].contentDigest, None, Some(now), Some(Given(reason)))];
      var remaining := descendants;
      while remaining != {}
        invariant remaining <= descendants <= rows.Keys == old(rows).Keys
        invariant forall id :: id in rows ==>
          rows[id] == if id in remaining && id != root then old(rows)[id]
                      else InvalidatedRow(edges, root, reason, now, id, old(rows)[id])
        invariant forall id :: id in staleDependents <==>
          id in descendants && id !in remaining && id != root && old(rows)[id].status != Invalid
        decreases |remaining|
      {
        var id :| id in remaining;
        remaining := remaining - {id};
        if rows[id].status != Invalid {
          var row := rows[id].(status := Stale, staleAt := Some(now), reason := Some(DependencyInvalidated(root)));
          rows := rows[id := row];
          staleDependents := staleDependents + {id};
        }
      }
      ok := true;
    }

    lemma DescendantsHaveRows(descendants: set<Id>, root: Id)
      requires ForeignKeys()
      requires forall x :: x in descendants ==> Reaches(edges, root, x)
      ensures descendants <= rows.Keys
    {
      forall x | x in descendants ensures x in rows {
        var p :| Descends(edges, p) && p[0] == root && p[|p| - 1] == x;
        assert (p[|p| - 2], p[|p| - 1]) in edges;
      }
    }
  }
}
