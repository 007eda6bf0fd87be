/** `delete_scope` of the data-ingestion UI: forget a knowledge base by trimming its name, removing
    its ledger entries, then deleting its edges and every node left without one. */
module DataIngestUi {
  import opened Wrappers
  import opened PyText
  import opened LedgerStore
  import opened GraphStore

  /** The two Cypher statements, in order: the scope's `RELATION` edges, then the orphan nodes. */
  function DeleteScopeGraph(g: Graph, scope: string): Graph {
    DeleteOrphans(DeleteScopeRelations(g, scope))
  }

  /** `delete_scope(scope_name)`. The returned count is the number of ledger keys removed. A ledger
      that cannot be decoded raises before the graph is touched; a failing graph statement is
      caught, and the count does not depend on it. Removing the scope's directories is not
      modelled. */
  method DeleteScope(scopeName: string, ledger: HashTrackFile, db: GraphDatabase) returns (r: Result<nat>)
    requires db.Valid()
    modifies ledger, db
    ensures db.Valid()
    ensures r.Err? <==> old(ledger.file).Unreadable?
    ensures r.Err? ==> ledger.file == old(ledger.file) && db.graph == old(db.graph)
    ensures old(ledger.file).Absent? ==> r == Ok(0) && ledger.file == Absent
    ensures old(ledger.file).Present? ==>
      && r == Ok(|PrefixKeys(old(ledger.file).entries, Strip(scopeName) + "/")|)
      && ledger.file == Present(WithoutPrefix(old(ledger.file).entries, Strip(scopeName) + "/"))
    ensures r.Ok? && db.reachable ==> db.graph == DeleteScopeGraph(old(db.graph), Strip(scopeName))
    ensures r.Ok? && !db.reachable ==> db.graph == old(db.graph)
  {
    var scope := Strip(scopeName);
    r := DeleteScopeEntries(ledger, scope);
    if r.Err? {
      return;
    }
    var ok := db.RunDeleteScopeRelations(scope);
    if ok {
      ok := db.RunDeleteOrphans();
    }
  }

  /** The name is trimmed but ingestion keys are not: the entries of a scope whose name carries
      surrounding whitespace are never under the trimmed prefix, so deleting that scope leaves
      them behind. */
  lemma {:induction false} UntrimmedScopeKeysSurvive(scope: string, name: string)
    requires '/' !in scope && Strip(scope) != scope
    ensures !StartsWith(Key(scope, name), Strip(scope) + "/")
  {
    var r := Strip(scope);
    StripShape(scope);
    var i :| 0 <= i <= |scope| - |r| && r == scope[i..i + |r|] && AllSpace(scope[..i]) && AllSpace(scope[i + |r|..]);
    forall m | 0 <= m < |r|
      ensures r[m] != '/'
    {
      assert r[m] == scope[i + m];
      assert scope[i + m] in scope;
    }
    OtherScopeKeySurvives(r, scope, name);
  }
}
