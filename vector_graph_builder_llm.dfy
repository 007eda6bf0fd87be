/** The second graph builder of the vector package (`graph_builder_llm`). It shares the retrying
    extraction of `llm_graph_builder` but differs in four ways: every chunk text is sent to the
    model as it is, with no strip and no blank test; the insert test is Python truthiness of the
    raw fields; new entities get no scope tag; and only `total` and `inserted` are counted. */
module VectorGraphBuilder {
  import opened Wrappers
  import opened PyText
  import opened Json
  import opened Documents
  import opened GraphStore
  import opened TripleExtraction
  import Llm = VectorLlmGraphBuilder

  /** A field of a triple that passed validation: the raw, unstripped string. */
  function RawField(t: JsonValue, k: string): string {
    if HasStringField(t, k) then t.fields[k].s else ""
  }

  /** The insert test: all three raw fields are present and truthy. */
  predicate Insertable(t: JsonValue) {
    t.JObject? && Truthy(Get(t.fields, "subject")) && Truthy(Get(t.fields, "predicate")) && Truthy(Get(t.fields, "object"))
  }

  /** On a validated triple the test is that no raw field is empty, whitespace or not. */
  lemma {:induction false} InsertableValidated(t: JsonValue)
    requires IsTripleObject(t)
    ensures Insertable(t) <==> RawField(t, "subject") != "" && RawField(t, "predicate") != "" && RawField(t, "object") != ""
  {
  }

  /** One `insert_triple` on the abstract graph: names trimmed and lower-cased, no tag. */
  function InsertSpec(g: Graph, t: JsonValue, scope: string): Graph {
    MergeTriple(g, Llm.Normalize(RawField(t, "subject")), Llm.Normalize(RawField(t, "predicate")),
                Llm.Normalize(RawField(t, "object")), scope, false)
  }

  /** An insert adds its two nodes untagged, keeps every existing node and its tag, and adds the
      one edge of the triple's scope. */
  lemma {:induction false} InsertUntagged(g: Graph, t: JsonValue, scope: string)
    ensures var r := InsertSpec(g, t, scope);
      && (forall n :: n in g.entities ==> n in r.entities && r.entities[n] == g.entities[n])
      && (forall n :: n in r.entities && n !in g.entities ==> r.entities[n] == None)
      && r.relations == g.relations +
           {Relation(Llm.Normalize(RawField(t, "subject")), Llm.Normalize(RawField(t, "predicate")), scope, Llm.Normalize(RawField(t, "object")))}
      && (WellFormed(g) ==> WellFormed(r))
  {
    MergeTripleEffect(g, Llm.Normalize(RawField(t, "subject")), Llm.Normalize(RawField(t, "predicate")),
                      Llm.Normalize(RawField(t, "object")), scope, false);
  }

  /** The relation is merged on its type and scope, so inserting a triple again adds nothing. */
  lemma {:induction false} InsertTwice(g: Graph, t: JsonValue, scope: string)
    ensures InsertSpec(InsertSpec(g, t, scope), t, scope) == InsertSpec(g, t, scope)
  {
    MergeTripleIdempotent(g, Llm.Normalize(RawField(t, "subject")), Llm.Normalize(RawField(t, "predicate")),
                          Llm.Normalize(RawField(t, "object")), scope, false);
  }

  /** A whitespace-only subject passes the raw test, which `llm_graph_builder` would have failed,
      and is stored as the entity named `""`. */
  lemma {:induction false} BlankSubjectStoredEmpty(g: Graph, t: JsonValue, scope: string)
    requires IsTripleObject(t) && Insertable(t) && AllSpace(RawField(t, "subject"))
    ensures !Llm.Insertable(t)
    ensures "" in InsertSpec(g, t, scope).entities
    ensures Relation("", Llm.Normalize(RawField(t, "predicate")), scope, Llm.Normalize(RawField(t, "object")))
              in InsertSpec(g, t, scope).relations
  {
    StripBlank(RawField(t, "subject"));
    assert Llm.Field(t, "subject") == [];
    assert Llm.Normalize(RawField(t, "subject")) == [];
    InsertUntagged(g, t, scope);
  }

  /** The graph after one triple of the inner loop: only an insertable triple is inserted. */
  function StepGraph(g: Graph, t: JsonValue, scope: string): Graph {
    if Insertable(t) then InsertSpec(g, t, scope) else g
  }

  /** The graph after the inner loop over `ts`, from left to right. */
  function TriplesGraph(g: Graph, ts: seq<JsonValue>, scope: string): Graph {
    if ts == [] then g else StepGraph(TriplesGraph(g, ts[..|ts| - 1], scope), ts[|ts| - 1], scope)
  }

  lemma {:induction false} TriplesGraphStep(g: Graph, ts: seq<JsonValue>, j: nat, scope: string)
    requires j < |ts|
    ensures TriplesGraph(g, ts[..j + 1], scope) == StepGraph(TriplesGraph(g, ts[..j], scope), ts[j], scope)
  {
    assert ts[..j + 1][..j] == ts[..j];
  }

  /** The triples the model yields for a chunk: its raw text, with the default single attempt. */
  function ChunkTriples(generate: Generator, parse: Parser, model: string, chunk: Document): seq<JsonValue> {
    RetrySpec(VectorOutcomes(generate, parse, model, chunk.pageContent), 1, Llm.DefaultMaxRetries, Llm.DefaultBackoffSecs).triples
  }

  /** With `max_retries = 1`, as both vector builders call the extraction, there is exactly one
      attempt and no delay: its triples on success, `[]` on failure. */
  lemma {:induction false} DefaultSingleAttempt(generate: Generator, parse: Parser, model: string, text: string)
    ensures var x := RetrySpec(VectorOutcomes(generate, parse, model, text), 1, Llm.DefaultMaxRetries, Llm.DefaultBackoffSecs);
      && x.attempts == 1 && x.sleeps == []
      && x.triples == (var o := Attempt(generate(model, text, 1), parse); if o.Ok? then o.value else [])
  {
    var run := VectorOutcomes(generate, parse, model, text);
    assert run(1) == Attempt(generate(model, text, 1), parse);
    assert RetrySpec(run, 2, 1, 1.0) == Extraction([], [], 0);
  }

  /** The triples of every chunk, in chunk order. */
  function ChunkTripleLists(generate: Generator, parse: Parser, model: string, chunks: seq<Document>): (r: seq<seq<JsonValue>>)
    ensures |r| == |chunks|
  {
    if chunks == [] then []
    else ChunkTripleLists(generate, parse, model, chunks[..|chunks| - 1]) + [ChunkTriples(generate, parse, model, chunks[|chunks| - 1])]
  }

  lemma {:induction false} ChunkTripleListsStep(generate: Generator, parse: Parser, model: string, chunks: seq<Document>, i: nat)
    requires i < |chunks|
    ensures ChunkTripleLists(generate, parse, model, chunks[..i + 1])
      == ChunkTripleLists(generate, parse, model, chunks[..i]) + [ChunkTriples(generate, parse, model, chunks[i])]
  {
    assert chunks[..i + 1][..i] == chunks[..i];
  }

  /** Chunk `k` contributes exactly its own triples. */
  lemma {:induction false} ChunkTripleListsAt(generate: Generator, parse: Parser, model: string, chunks: seq<Document>, k: nat)
    requires k < |chunks|
    ensures ChunkTripleLists(generate, parse, model, chunks)[k] == ChunkTriples(generate, parse, model, chunks[k])
  {
    if k < |chunks| - 1 {
      ChunkTripleListsAt(generate, parse, model, chunks[..|chunks| - 1], k);
    }
  }

  /** The graph after the outer loop, given the triples of each chunk, from left to right. */
  function ChunksGraph(g: Graph, tss: seq<seq<JsonValue>>, scope: string): Graph {
    if tss == [] then g else TriplesGraph(ChunksGraph(g, tss[..|tss| - 1], scope), tss[|tss| - 1], scope)
  }

  /** `total` and `inserted` of `process_chunks`. */
  datatype Counters = Counters(total: nat, inserted: nat)

  /** The counters after one chunk: all its triples count towards `total`, the insertable ones
      towards `inserted`. */
  function ChunkCounters(c: Counters, ts: seq<JsonValue>): Counters {
    Counters(c.total + |ts|, c.inserted + CountWhere(Insertable, ts))
  }

  /** The counters after the outer loop, given the triples of each chunk. */
  function ChunksCounters(tss: seq<seq<JsonValue>>): Counters {
    if tss == [] then Counters(0, 0) else ChunkCounters(ChunksCounters(tss[..|tss| - 1]), tss[|tss| - 1])
  }

  lemma {:induction false} ChunksStep(g: Graph, tss: seq<seq<JsonValue>>, ts: seq<JsonValue>, scope: string)
    ensures ChunksGraph(g, tss + [ts], scope) == TriplesGraph(ChunksGraph(g, tss, scope), ts, scope)
    ensures ChunksCounters(tss + [ts]) == ChunkCounters(ChunksCounters(tss), ts)
  {
    assert (tss + [ts])[..|tss|] == tss;
  }

  /** `inserted` never exceeds `total`, and `total` is the number of triples extracted. */
  lemma {:induction false} InsertedAtMostTotal(tss: seq<seq<JsonValue>>)
    ensures ChunksCounters(tss).inserted <= ChunksCounters(tss).total
    ensures ChunksCounters(tss).total == 0 <==> forall k :: 0 <= k < |tss| ==> tss[k] == []
  {
    if tss != [] {
      var front := tss[..|tss| - 1];
      InsertedAtMostTotal(front);
      assert forall k :: 0 <= k < |front| ==> front[k] == tss[k];
    }
  }

  lemma {:induction false} InsertedPrefix(tss: seq<seq<JsonValue>>, k: nat)
    requires k <= |tss|
    ensures ChunksCounters(tss[..k]).inserted <= ChunksCounters(tss).inserted
    decreases |tss| - k
  {
    if k < |tss| {
      InsertedPrefix(tss[..|tss| - 1], k);
      assert tss[..|tss| - 1][..k] == tss[..k];
    } else {
      assert tss[..k] == tss;
    }
  }

  /** A prefix run that inserted something keeps its insert in the whole run. */
  lemma {:induction false} ChunkRunInserts(generate: Generator, parse: Parser, model: string, chunks: seq<Document>, k: nat, prefix: seq<seq<JsonValue>>)
    requires 0 < k <= |chunks| && prefix == ChunkTripleLists(generate, parse, model, chunks[..k])
    requires CountWhere(Insertable, prefix[k - 1]) > 0
    ensures ChunksCounters(ChunkTripleLists(generate, parse, model, chunks)).inserted > 0
  {
    var all := ChunkTripleLists(generate, parse, model, chunks);
    ChunkTripleListsAt(generate, parse, model, chunks[..k], k - 1);
    ChunkTripleListsAt(generate, parse, model, chunks, k - 1);
    assert all[..k][..k - 1] == all[..k - 1];
    InsertedPrefix(all, k);
  }

  /** `GraphBuilderLLM` of `graph_builder_llm`, over its Neo4j database and model endpoint. */
  class GraphBuilderLLM {
    const db: GraphDatabase
    const model: string
    const generate: Generator
    const parse: Parser

    constructor (db: GraphDatabase, model: string, generate: Generator, parse: Parser)
      ensures this.db == db && this.model == model && this.generate == generate && this.parse == parse
    {
      this.db := db;
      this.model := model;
      this.generate := generate;
      this.parse := parse;
    }

    /** `insert_triple`: normalize the three names, then merge the triple without tagging new
        nodes; `false` when the database raises. */
    method InsertTriple(subject: string, pred: string, obj: string, scope: string) returns (ok: bool)
      requires db.Valid()
      modifies db
      ensures db.Valid()
      ensures ok == db.reachable
      ensures db.graph == if ok then MergeTriple(old(db.graph), Llm.Normalize(subject), Llm.Normalize(pred), Llm.Normalize(obj), scope, false)
                          else old(db.graph)
    {
      var s := Llm.Normalize(subject);
      var p := Llm.Normalize(pred);
      var o := Llm.Normalize(obj);
      ok := db.RunMergeTriple(s, p, o, scope, false);
    }

    /** `extract_triples_with_llm`: the same retrying extraction as `llm_graph_builder`. */
    method ExtractTriplesWithLlm(text: string, maxRetries: int, backoffSecs: real)
      returns (triples: seq<JsonValue>, ghost sleeps: seq<real>, ghost attempts: nat)
      ensures Extraction(triples, sleeps, attempts) == RetrySpec(VectorOutcomes(generate, parse, model, text), 1, maxRetries, backoffSecs)
      ensures forall t :: t in triples ==> IsTripleObject(t)
    {
      triples, sleeps, attempts := ExtractTriplesWithRetry(generate, parse, model, text, maxRetries, backoffSecs);
    }

    /** One iteration of the inner loop: a triple with an empty field is passed over, any other is
        inserted, and an insert the database refuses raises. */
    method InsertOne(t: JsonValue, scope: string, inserted: nat) returns (r: Result<nat>)
      requires db.Valid() && IsTripleObject(t)
      modifies db
      ensures db.Valid()
      ensures r.Ok? ==> r.value == inserted + if Insertable(t) then 1 else 0
      ensures db.reachable ==> r.Ok? && db.graph == StepGraph(old(db.graph), t, scope)
      ensures !db.reachable ==> db.graph == old(db.graph) && (r.Err? <==> Insertable(t))
    {
      if t.JObject? {
        var s := Get(t.fields, "subject");
        var p := Get(t.fields, "predicate");
        var o := Get(t.fields, "object");
        if Truthy(s) && Truthy(p) && Truthy(o) {
          var ok := InsertTriple(RawField(t, "subject"), RawField(t, "predicate"), RawField(t, "object"), scope);
          if !ok {
            return Err("graph database unavailable");
          }
          return Ok(inserted + 1);
        }
      }
      r := Ok(inserted);
    }

    /** The inner loop over the triples of one chunk: the graph of `TriplesGraph` and one more
        `inserted` per insertable triple, or an error at the first insertable triple when the
        database is unreachable. */
    method InsertTriples(triples: seq<JsonValue>, scope: string, inserted: nat) returns (r: Result<nat>)
      requires db.Valid() && forall t :: t in triples ==> IsTripleObject(t)
      modifies db
      ensures db.Valid()
      ensures r.Ok? ==> r.value == inserted + CountWhere(Insertable, triples)
      ensures db.reachable ==> r.Ok? && db.graph == TriplesGraph(old(db.graph), triples, scope)
      ensures !db.reachable ==> db.graph == old(db.graph) && (r.Err? <==> CountWhere(Insertable, triples) > 0)
    {
      ghost var g0 := db.graph;
      var n := inserted;
      var j := 0;
      assert triples[..j] == [];
      while j < |triples|
        invariant 0 <= j <= |triples| && db.Valid()
        invariant n == inserted + CountWhere(Insertable, triples[..j])
        invariant db.reachable ==> db.graph == TriplesGraph(g0, triples[..j], scope)
        invariant !db.reachable ==> db.graph == g0 && CountWhere(Insertable, triples[..j]) == 0
      {
        TriplesGraphStep(g0, triples, j, scope);
        CountWhereStep(Insertable, triples, j);
        var res := InsertOne(triples[j], scope, n);
        if res.Err? {
          CountWherePrefix(Insertable, triples, j + 1);
          return Err(res.error);
        }
        n := res.value;
        j := j + 1;
      }
      assert triples[..j] == triples;
      r := Ok(n);
    }

    /** One iteration of the outer loop: the raw chunk text goes to the model, whatever it holds,
        and the triples it yields are counted and inserted. `prompt` is what was sent. */
    method ProcessChunk(chunk: Document, scope: string, c: Counters) returns (r: Result<Counters>, ghost prompt: string)
      requires db.Valid()
      modifies db
      ensures db.Valid()
      ensures prompt == chunk.pageContent
      ensures r.Ok? ==> r.value == ChunkCounters(c, ChunkTriples(generate, parse, model, chunk))
      ensures db.reachable ==> r.Ok? && db.graph == TriplesGraph(old(db.graph), ChunkTriples(generate, parse, model, chunk), scope)
      ensures !db.reachable ==> db.graph == old(db.graph)
      ensures !db.reachable ==> (r.Err? <==> CountWhere(Insertable, ChunkTriples(generate, parse, model, chunk)) > 0)
    {
      prompt := chunk.pageContent;
      var triples;
      ghost var sleeps, attempts;
      triples, sleeps, attempts := ExtractTriplesWithLlm(chunk.pageContent, Llm.DefaultMaxRetries, Llm.DefaultBackoffSecs);
      var total := c.total + |triples|;
      var res := InsertTriples(triples, scope, c.inserted);
      if res.Err? {
        return Err(res.error), prompt;
      }
      r := Ok(Counters(total, res.value));
    }

    /** `process_chunks`: the graph and counters of `ChunksGraph` and `ChunksCounters` over the
        triples of each chunk, or an error at the first insert when the database cannot be reached.
        `prompts` are the texts sent to the model: every chunk's, up to the one that failed. */
    method ProcessChunks(chunks: seq<Document>, scope: string) returns (r: Result<Counters>, ghost prompts: seq<string>)
      requires db.Valid()
      modifies db
      ensures db.Valid()
      ensures SentInOrder(prompts, chunks)
      ensures r.Ok? ==> |prompts| == |chunks| && r.value == ChunksCounters(ChunkTripleLists(generate, parse, model, chunks))
      ensures db.reachable ==> r.Ok? && db.graph == ChunksGraph(old(db.graph), ChunkTripleLists(generate, parse, model, chunks), scope)
      ensures !db.reachable ==> db.graph == old(db.graph)
      ensures !db.reachable ==> (r.Err? <==> ChunksCounters(ChunkTripleLists(generate, parse, model, chunks)).inserted > 0)
    {
      ghost var g0 := db.graph;
      ghost var tss: seq<seq<JsonValue>> := [];
      var counters := Counters(0, 0);
      prompts := [];
      var i := 0;
      assert chunks[..i] == [];
      while i < |chunks|
        invariant 0 <= i <= |chunks| && db.Valid()
        invariant |prompts| == i && SentInOrder(prompts, chunks)
        invariant tss == ChunkTripleLists(generate, parse, model, chunks[..i])
        invariant counters == ChunksCounters(tss)
        invariant db.reachable ==> db.graph == ChunksGraph(g0, tss, scope)
        invariant !db.reachable ==> db.graph == g0 && counters.inserted == 0
      {
        ghost var ts := ChunkTriples(generate, parse, model, chunks[i]);
        ChunkTripleListsStep(generate, parse, model, chunks, i);
        ChunksStep(g0, tss, ts, scope);
        var res;
        ghost var prompt;
        res, prompt := ProcessChunk(chunks[i], scope, counters);
        SentInOrderStep(prompts, chunks);
        prompts := prompts + [prompt];
        if res.Err? {
          ChunkRunInserts(generate, parse, model, chunks, i + 1, tss + [ts]);
          return Err(res.error), prompts;
        }
        counters := res.value;
        tss := tss + [ts];
        i := i + 1;
      }
      assert chunks[..i] == chunks;
      r := Ok(counters);
    }
  }
}
