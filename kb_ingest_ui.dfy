/** `delete_scope` of the knowledge-base ingestion UI: like the data-ingestion variant, but the
    graph part runs three statements: the scope's edges, the nodes tagged with the scope, then the
    nodes left without an edge. */
module KbIngestUi {
  import opened Wrappers
  import opened PyText
  import opened LedgerStore
  import opened GraphStore

  /** The three statements on a reachable server. `DELETE n` fails on a tagged node that still
      has an edge; the exception leaves the first statement's effect and skips the third. */
  function KbDeleteGraph(g: Graph, scope: string): Graph {
    var d := DeleteScopeRelations(g, scope);
    match DeleteTaggedNodes(d, scope)
    case None => d
    case Some(e) => DeleteOrphans(e)
  }

  /** `delete_scope(scope_name)`, returning the number of ledger keys removed. */
  method DeleteScope(scopeName: string, ledger: HashTrackFile, db: GraphDatabase) returns (r: Result<nat>)
    requires db.Valid()
    modifies ledger, db
    ensures db.Valid()
    ensures r.Err? <==> old(ledger.file).Unreadable?
    ensures r.Err? ==> ledger.file == old(ledger.file) && db.graph == old(db.graph)
    ensures old(ledger.file).Absent? ==> r == Ok(0) && ledger.file == Absent
    ensures old(ledger.file).Present? ==>
      && r == Ok(|PrefixKeys(old(ledger.file).entries, Strip(scopeName) + "/")|)
      && ledger.file == Present(WithoutPrefix(old(ledger.file).entries, Strip(scopeName) + "/"))
    ensures r.Ok? && db.reachable ==> db.graph == KbDeleteGraph(old(db.graph), Strip(scopeName))
    ensures r.Ok? && !db.reachable ==> db.graph == old(db.graph)
  {
    var scope := Strip(scopeName);
    r := DeleteScopeEntries(ledger, scope);
    if r.Err? {
      return;
    }
    var ok := db.RunDeleteScopeRelations(scope);
    if ok {
      ok := db.RunDeleteTaggedNodes(scope);
      if ok {
        ok := db.RunDeleteOrphans();
      }
    }
  }

  /** The node exists and carries the scope as its tag. */
  predicate Tagged(g: Graph, n: string, scope: string) {
    n in g.entities && g.entities[n] == Some(scope)
  }

  /** A node is tagged with the scope and still joined by an edge of another scope. */
  predicate SharedTaggedNode(g: Graph, scope: string) {
    exists rel :: rel in g.relations && rel.scope != scope && (Tagged(g, rel.subject, scope) || Tagged(g, rel.obj, scope))
  }

  /** The second statement fails exactly when a node created by this scope is also used by an edge
      of another scope. */
  lemma {:induction false} TaggedDeleteFails(g: Graph, scope: string)
    requires WellFormed(g)
    ensures DeleteTaggedNodes(DeleteScopeRelations(g, scope), scope).None? <==> SharedTaggedNode(g, scope)
  {
    var d := DeleteScopeRelations(g, scope);
    if DeleteTaggedNodes(d, scope).None? {
      var n :| n in d.entities && d.entities[n] == Some(scope) && HasEdge(d, n);
      var rel :| rel in d.relations && (rel.subject == n || rel.obj == n);
      assert rel in g.relations && rel.scope != scope;
    }
    if SharedTaggedNode(g, scope) {
      var rel :| rel in g.relations && rel.scope != scope && (Tagged(g, rel.subject, scope) || Tagged(g, rel.obj, scope));
      assert rel in d.relations;
      if Tagged(g, rel.subject, scope) {
        assert HasEdge(d, rel.subject);
      } else {
        assert HasEdge(d, rel.obj);
      }
    }
  }

  /** When every statement succeeds, the scope has no edge and no tagged node left, every other
      scope's edge stays, and every node left has an edge. */
  lemma {:induction false} KbDeleteClears(g: Graph, scope: string)
    requires WellFormed(g) && !SharedTaggedNode(g, scope)
    ensures var r := KbDeleteGraph(g, scope);
      && WellFormed(r)
      && (forall rel :: rel in r.relations <==> rel in g.relations && rel.scope != scope)
      && (forall n :: n in r.entities ==> r.entities[n] != Some(scope) && HasEdge(r, n))
  {
    TaggedDeleteFails(g, scope);
    var d := DeleteScopeRelations(g, scope);
    var e := DeleteTaggedNodes(d, scope).value;
    var r := DeleteOrphans(e);
    forall rel | rel in r.relations
      ensures rel.subject in r.entities && rel.obj in r.entities
    {
      assert rel.subject in e.entities && rel.obj in e.entities;
      assert HasEdge(e, rel.subject) && HasEdge(e, rel.obj);
    }
    forall n | n in r.entities
      ensures HasEdge(r, n)
    {
      var rel :| rel in e.relations && (rel.subject == n || rel.obj == n);
      assert rel in r.relations;
    }
  }
}
