/** The Neo4j knowledge graph as the Cypher statements of the core see it: `Entity` nodes keyed by
    `name`, each with an optional `scope` property, and `RELATION` edges whose identity is
    (subject, type, scope, object). `MERGE` matches on exactly those keys, so a node per name and an
    edge per key are the only shapes the writers can create: a map and a set. */
module GraphStore {
  import opened Wrappers

  datatype Relation = Relation(subject: string, rtype: string, scope: string, obj: string)

  datatype Graph = Graph(entities: map<string, Option<string>>, relations: set<Relation>)

  /** Every edge joins two existing nodes. */
  predicate WellFormed(g: Graph) {
    forall r :: r in g.relations ==> r.subject in g.entities && r.obj in g.entities
  }

  const EmptyGraph := Graph(map[], {})

  /** Node merge by name: a missing node is created, tagged with the scope when `tag` is given;
      an existing node is left exactly as it is. */
  function MergeEntity(g: Graph, name: string, tag: Option<string>): Graph {
    if name in g.entities then g else Graph(g.entities[name := tag], g.relations)
  }

  /** Edge merge: the edge with this type and scope between the two nodes exists afterwards, once. */
  function MergeRelation(g: Graph, rel: Relation): Graph {
    Graph(g.entities, g.relations + {rel})
  }

  /** The three `MERGE` clauses of one triple insert; `tagged` says whether new nodes get the scope. */
  function MergeTriple(g: Graph, s: string, p: string, o: string, scope: string, tagged: bool): Graph {
    var tag := if tagged then Some(scope) else None;
    MergeRelation(MergeEntity(MergeEntity(g, s, tag), o, tag), Relation(s, p, scope, o))
  }

  /** What an insert adds: the two nodes (new ones tagged as requested), the one edge, nothing else,
      and no existing node's tag is overwritten. */
  lemma {:induction false} MergeTripleEffect(g: Graph, s: string, p: string, o: string, scope: string, tagged: bool)
    ensures var r := MergeTriple(g, s, p, o, scope, tagged);
      && r.entities.Keys == g.entities.Keys + {s, o}
      && r.relations == g.relations + {Relation(s, p, scope, o)}
      && (forall n :: n in g.entities ==> r.entities[n] == g.entities[n])
      && (forall n :: n in r.entities && n !in g.entities ==> r.entities[n] == (if tagged then Some(scope) else None))
      && (WellFormed(g) ==> WellFormed(r))
  {
  }

  /** Inserting the same triple twice is the same as inserting it once. */
  lemma {:induction false} MergeTripleIdempotent(g: Graph, s: string, p: string, o: string, scope: string, tagged: bool)
    ensures var once := MergeTriple(g, s, p, o, scope, tagged);
      MergeTriple(once, s, p, o, scope, tagged) == once
  {
    var once := MergeTriple(g, s, p, o, scope, tagged);
    MergeTripleEffect(g, s, p, o, scope, tagged);
    assert s in once.entities && o in once.entities;
    assert Relation(s, p, scope, o) in once.relations;
    assert once.relations + {Relation(s, p, scope, o)} == once.relations;
  }

  /** Relation deletion by scope: every edge tagged with the scope goes. The two UIs write the
      statement differently, one matching `Entity` endpoints and one any nodes, which comes to the
      same here because every node is an `Entity` and every edge a `RELATION`. */
  function DeleteScopeRelations(g: Graph, scope: string): (r: Graph)
    ensures r.entities == g.entities
    ensures forall rel :: rel in r.relations <==> rel in g.relations && rel.scope != scope
    ensures WellFormed(g) ==> WellFormed(r)
  {
    Graph(g.entities, set rel | rel in g.relations && rel.scope != scope)
  }

  /** The node takes part in some edge: `(n)--()`. */
  predicate HasEdge(g: Graph, n: string) {
    exists rel :: rel in g.relations && (rel.subject == n || rel.obj == n)
  }

  /** Orphan deletion: every node without an edge goes. */
  function DeleteOrphans(g: Graph): (r: Graph)
    ensures r.relations == g.relations
    ensures forall n :: n in r.entities <==> n in g.entities && HasEdge(g, n)
    ensures forall n :: n in r.entities ==> r.entities[n] == g.entities[n]
  {
    Graph(map n | n in g.entities && HasEdge(g, n) :: g.entities[n], g.relations)
  }

  /** Tagged-node deletion: every node tagged with the scope goes. Neo4j refuses to delete a node that still has
      edges, so the statement fails (and deletes nothing) when a tagged node has one. */
  function DeleteTaggedNodes(g: Graph, scope: string): (r: Option<Graph>)
    ensures r.None? <==> exists n :: n in g.entities && g.entities[n] == Some(scope) && HasEdge(g, n)
    ensures r.Some? ==> r.value.relations == g.relations
    ensures r.Some? ==> forall n :: n in r.value.entities <==> n in g.entities && g.entities[n] != Some(scope)
  {
    if exists n :: n in g.entities && g.entities[n] == Some(scope) && HasEdge(g, n) then None
    else Some(Graph(map n | n in g.entities && g.entities[n] != Some(scope) :: g.entities[n], g.relations))
  }

  /** Deleting a scope's edges and then the orphans: the scope has no edge left, every other edge
      stays, every node left has an edge, and a node still used by another scope's edge survives
      with its tag. */
  lemma {:induction false} DeleteScopeThenOrphans(g: Graph, scope: string)
    requires WellFormed(g)
    ensures var r := DeleteOrphans(DeleteScopeRelations(g, scope));
      && WellFormed(r)
      && (forall rel :: rel in r.relations ==> rel.scope != scope)
      && (forall rel :: rel in g.relations && rel.scope != scope ==> rel in r.relations)
      && (forall n :: n in r.entities ==> HasEdge(r, n))
      && (forall rel :: rel in g.relations && rel.scope != scope ==>
            rel.subject in r.entities && r.entities[rel.subject] == g.entities[rel.subject] &&
            rel.obj in r.entities && r.entities[rel.obj] == g.entities[rel.obj])
  {
    var d := DeleteScopeRelations(g, scope);
    var r := DeleteOrphans(d);
    forall rel | rel in r.relations
      ensures rel.subject in r.entities && rel.obj in r.entities
    {
      assert HasEdge(d, rel.subject) && HasEdge(d, rel.obj);
    }
    forall n | n in r.entities
      ensures HasEdge(r, n)
    {
      var rel :| rel in d.relations && (rel.subject == n || rel.obj == n);
      assert rel in r.relations;
    }
  }

  /** The Neo4j database. Every statement raises when the server cannot be reached; a failed
      statement changes nothing. */
  class GraphDatabase {
    var graph: Graph
    const reachable: bool

    constructor (g: Graph, reachable: bool)
      ensures graph == g && this.reachable == reachable
    {
      graph := g;
      this.reachable := reachable;
    }

    predicate Valid()
      reads this
    {
      WellFormed(graph)
    }

    /** One triple insert in one `session.run`. */
    method RunMergeTriple(s: string, p: string, o: string, scope: string, tagged: bool) returns (ok: bool)
      requires Valid()
      modifies this
      ensures Valid()
      ensures ok == reachable
      ensures graph == if ok then MergeTriple(old(graph), s, p, o, scope, tagged) else old(graph)
    {
      ok := reachable;
      if ok {
        MergeTripleEffect(graph, s, p, o, scope, tagged);
        graph := MergeTriple(graph, s, p, o, scope, tagged);
      }
    }

    method RunDeleteScopeRelations(scope: string) returns (ok: bool)
      requires Valid()
      modifies this
      ensures Valid()
      ensures ok == reachable
      ensures graph == if ok then DeleteScopeRelations(old(graph), scope) else old(graph)
    {
      ok := reachable;
      if ok {
        graph := DeleteScopeRelations(graph, scope);
      }
    }

    method RunDeleteOrphans() returns (ok: bool)
      requires Valid()
      modifies this
      ensures Valid()
      ensures ok == reachable
      ensures graph == if ok then DeleteOrphans(old(graph)) else old(graph)
    {
      ok := reachable;
      if ok {
        var r := DeleteOrphans(graph);
        forall rel | rel in r.relations
          ensures rel.subject in r.entities && rel.obj in r.entities
        {
          assert HasEdge(graph, rel.subject) && HasEdge(graph, rel.obj);
        }
        graph := r;
      }
    }

    method RunDeleteTaggedNodes(scope: string) returns (ok: bool)
      requires Valid()
      modifies this
      ensures Valid()
      ensures ok == (reachable && DeleteTaggedNodes(old(graph), scope).Some?)
      ensures graph == if ok then DeleteTaggedNodes(old(graph), scope).value else old(graph)
    {
      var r := DeleteTaggedNodes(graph, scope);
      ok := reachable && r.Some?;
      if ok {
        forall rel | rel in r.value.relations
          ensures rel.subject in r.value.entities && rel.obj in r.value.entities
        {
          if graph.entities[rel.subject] == Some(scope) { assert HasEdge(graph, rel.subject); }
          if graph.entities[rel.obj] == Some(scope) { assert HasEdge(graph, rel.obj); }
        }
        graph := r.value;
      }
    }
  }
}
