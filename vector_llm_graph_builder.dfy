/** The graph builder of the vector package (`llm_graph_builder`): triples extracted with retries,
    names trimmed and lower-cased, new entities tagged with the scope, and three counters. */
module VectorLlmGraphBuilder {
  import opened Wrappers
  import opened PyText
  import opened Json
  import opened Documents
  import opened GraphStore
  import opened TripleExtraction

  /** `max_retries` and `backoff_secs` as `process_chunks` leaves them. */
  const DefaultMaxRetries: int := 1
  const DefaultBackoffSecs: real := 1.0

  /** The merge key of a name: stripped, then lower-cased. */
  function Normalize(x: string): string {
    Lower(Strip(x))
  }

  /** A normalized name neither starts nor ends with whitespace. */
  lemma {:induction false} NormalizeEnds(x: string)
    ensures var r := Normalize(x); r == [] || (!IsSpace(r[0]) && !IsSpace(r[|r| - 1]))
  {
    var y := Strip(x);
    StripShape(x);
    if y != [] {
      LowerCharKeepsSpace(y[0]);
      LowerCharKeepsSpace(y[|y| - 1]);
    }
  }

  /** Normalizing a stored name again changes nothing, so re-inserting what the graph holds is a
      no-op. */
  lemma {:induction false} NormalizeIdempotent(x: string)
    ensures Normalize(Normalize(x)) == Normalize(x)
  {
    var n := Normalize(x);
    NormalizeEnds(x);
    StripNoop(n);
    LowerIdempotent(Strip(x));
  }

  /** A field of a validated triple, stripped; `""` when it is missing. */
  function Field(t: JsonValue, k: string): string {
    if HasStringField(t, k) then Strip(t.fields[k].s) else ""
  }

  /** The three stripped names of a triple. */
  datatype Names = Names(subject: string, pred: string, obj: string)

  function Fields(t: JsonValue): Names {
    Names(Field(t, "subject"), Field(t, "predicate"), Field(t, "object"))
  }

  /** The insert test: none of the three stripped fields is empty. */
  predicate Insertable(t: JsonValue) {
    var n := Fields(t);
    n.subject != "" && n.pred != "" && n.obj != ""
  }

  /** The triples the model yields for a stripped chunk text; a blank text is not sent. */
  function TextTriples(generate: Generator, parse: Parser, model: string, text: string): seq<JsonValue> {
    if text == [] then []
    else RetrySpec(VectorOutcomes(generate, parse, model, text), 1, DefaultMaxRetries, DefaultBackoffSecs).triples
  }

  /** The triples a chunk yields. */
  function ChunkTriples(generate: Generator, parse: Parser, model: string, chunk: Document): seq<JsonValue> {
    TextTriples(generate, parse, model, Strip(chunk.pageContent))
  }

  /** The texts sent to the model, one per non-blank chunk, in chunk order. */
  function ModelInputs(chunks: seq<Document>): (r: seq<string>)
    ensures |r| <= |chunks|
  {
    if chunks == [] then []
    else
      var text := Strip(chunks[|chunks| - 1].pageContent);
      ModelInputs(chunks[..|chunks| - 1]) + (if text == [] then [] else [text])
  }

  /** Every model input is the non-blank stripped text of some chunk. */
  lemma {:induction false} ModelInputsAreChunkTexts(chunks: seq<Document>)
    ensures forall x :: x in ModelInputs(chunks) ==> x != [] && exists c :: c in chunks && x == Strip(c.pageContent)
  {
    if chunks != [] {
      var front := chunks[..|chunks| - 1];
      ModelInputsAreChunkTexts(front);
      assert forall c :: c in front ==> c in chunks;
    }
  }

  /** Each chunk adds its own model input, if any. */
  lemma {:induction false} ModelInputsStep(chunks: seq<Document>, i: nat)
    requires i < |chunks|
    ensures ModelInputs(chunks[..i + 1]) == ModelInputs(chunks[..i]) + ModelInputs([chunks[i]])
  {
    assert chunks[..i + 1][..i] == chunks[..i];
    assert [chunks[i]][..0] == [];
  }

  lemma {:induction false} ModelInputsPrefix(chunks: seq<Document>, k: nat)
    requires k <= |chunks|
    ensures ModelInputs(chunks[..k]) <= ModelInputs(chunks)
    decreases |chunks| - k
  {
    if k < |chunks| {
      var front := chunks[..|chunks| - 1];
      ModelInputsPrefix(front, k);
      assert front[..k] == chunks[..k];
    } else {
      assert chunks[..k] == chunks;
    }
  }

  /** One `insert_triple` on the abstract graph. */
  function InsertSpec(g: Graph, t: JsonValue, scope: string): Graph {
    var n := Fields(t);
    MergeTriple(g, Normalize(n.subject), Normalize(n.pred), Normalize(n.obj), scope, true)
  }

  /** Inserting, with tagging, keeps every existing node's tag and what an earlier insert stored. */
  lemma {:induction false} InsertKeepsTags(g: Graph, t: JsonValue, scope: string)
    ensures forall n :: n in g.entities ==> n in InsertSpec(g, t, scope).entities && InsertSpec(g, t, scope).entities[n] == g.entities[n]
  {
    var n := Fields(t);
    MergeTripleEffect(g, Normalize(n.subject), Normalize(n.pred), Normalize(n.obj), scope, true);
  }

  /** The graph after one triple of the inner loop: only an insertable triple is inserted. */
  function StepGraph(g: Graph, t: JsonValue, scope: string): Graph {
    if Insertable(t) then InsertSpec(g, t, scope) else g
  }

  /** The graph after the inner loop over `ts`, from left to right. */
  function TriplesGraph(g: Graph, ts: seq<JsonValue>, scope: string): Graph {
    if ts == [] then g else StepGraph(TriplesGraph(g, ts[..|ts| - 1], scope), ts[|ts| - 1], scope)
  }

  lemma {:induction false} TriplesGraphStep(g: Graph, ts: seq<JsonValue>, j: nat, scope: string)
    requires j < |ts|
    ensures TriplesGraph(g, ts[..j + 1], scope) == StepGraph(TriplesGraph(g, ts[..j], scope), ts[j], scope)
  {
    assert ts[..j + 1][..j] == ts[..j];
  }

  /** `total`, `inserted` and `skipped` of `process_chunks`. */
  datatype Counters = Counters(total: nat, inserted: nat, skipped: nat)

  /** The counters after one triple of the inner loop. */
  function StepCounters(c: Counters, t: JsonValue): Counters {
    if Insertable(t) then c.(inserted := c.inserted + 1) else c.(skipped := c.skipped + 1)
  }

  /** The counters after the inner loop over `ts`, from left to right. */
  function TriplesCounters(ts: seq<JsonValue>, c: Counters): Counters {
    if ts == [] then c else StepCounters(TriplesCounters(ts[..|ts| - 1], c), ts[|ts| - 1])
  }

  lemma {:induction false} TriplesCountersStep(ts: seq<JsonValue>, j: nat, c: Counters)
    requires j < |ts|
    ensures TriplesCounters(ts[..j + 1], c) == StepCounters(TriplesCounters(ts[..j], c), ts[j])
  {
    assert ts[..j + 1][..j] == ts[..j];
  }

  /** The inner loop counts each triple once, as inserted exactly when it is insertable. */
  lemma {:induction false} TriplesCountersClosed(ts: seq<JsonValue>, c: Counters)
    ensures TriplesCounters(ts, c) == Counters(c.total, c.inserted + CountWhere(Insertable, ts), c.skipped + |ts| - CountWhere(Insertable, ts))
  {
    if ts != [] {
      TriplesCountersClosed(ts[..|ts| - 1], c);
    }
  }

  /** The triples of every chunk, in chunk order. */
  function ChunkTripleLists(generate: Generator, parse: Parser, model: string, chunks: seq<Document>): (r: seq<seq<JsonValue>>)
    ensures |r| == |chunks|
  {
    if chunks == [] then []
    else ChunkTripleLists(generate, parse, model, chunks[..|chunks| - 1]) + [ChunkTriples(generate, parse, model, chunks[|chunks| - 1])]
  }

  lemma {:induction false} ChunkTripleListsStep(generate: Generator, parse: Parser, model: string, chunks: seq<Document>, i: nat)
    requires i < |chunks|
    ensures ChunkTripleLists(generate, parse, model, chunks[..i + 1])
      == ChunkTripleLists(generate, parse, model, chunks[..i]) + [ChunkTriples(generate, parse, model, chunks[i])]
  {
    assert chunks[..i + 1][..i] == chunks[..i];
  }

  /** Chunk `k` contributes exactly its own triples. */
  lemma {:induction false} ChunkTripleListsAt(generate: Generator, parse: Parser, model: string, chunks: seq<Document>, k: nat)
    requires k < |chunks|
    ensures ChunkTripleLists(generate, parse, model, chunks)[k] == ChunkTriples(generate, parse, model, chunks[k])
  {
    if k < |chunks| - 1 {
      ChunkTripleListsAt(generate, parse, model, chunks[..|chunks| - 1], k);
    }
  }

  /** The graph after the outer loop, given the triples of each chunk, from left to right. */
  function ChunksGraph(g: Graph, tss: seq<seq<JsonValue>>, scope: string): Graph {
    if tss == [] then g else TriplesGraph(ChunksGraph(g, tss[..|tss| - 1], scope), tss[|tss| - 1], scope)
  }

  /** The counters after one chunk: its triples are added to `total`, then counted one by one. */
  function ChunkCounters(c: Counters, ts: seq<JsonValue>): Counters {
    TriplesCounters(ts, Counters(c.total + |ts|, c.inserted, c.skipped))
  }

  /** The counters after the outer loop, given the triples of each chunk, from left to right. */
  function ChunksCounters(tss: seq<seq<JsonValue>>): Counters {
    if tss == [] then Counters(0, 0, 0) else ChunkCounters(ChunksCounters(tss[..|tss| - 1]), tss[|tss| - 1])
  }

  lemma {:induction false} ChunksStep(g: Graph, tss: seq<seq<JsonValue>>, ts: seq<JsonValue>, scope: string)
    ensures ChunksGraph(g, tss + [ts], scope) == TriplesGraph(ChunksGraph(g, tss, scope), ts, scope)
    ensures ChunksCounters(tss + [ts]) == ChunkCounters(ChunksCounters(tss), ts)
  {
    assert (tss + [ts])[..|tss|] == tss;
  }

  /** The counters of one chunk, in closed form. */
  lemma {:induction false} ChunkCountersClosed(c: Counters, ts: seq<JsonValue>)
    ensures ChunkCounters(c, ts) == Counters(c.total + |ts|, c.inserted + CountWhere(Insertable, ts), c.skipped + |ts| - CountWhere(Insertable, ts))
  {
    var c0 := Counters(c.total + |ts|, c.inserted, c.skipped);
    TriplesCountersClosed(ts, c0);
    var n := CountWhere(Insertable, ts);
    calc {
      ChunkCounters(c, ts);
      TriplesCounters(ts, c0);
      Counters(c0.total, c0.inserted + n, c0.skipped + |ts| - n);
    }
  }

  /** `inserted + skipped == total` after any number of chunks. */
  lemma {:induction false} CountersAddUp(tss: seq<seq<JsonValue>>)
    ensures ChunksCounters(tss).inserted + ChunksCounters(tss).skipped == ChunksCounters(tss).total
  {
    if tss != [] {
      var front := tss[..|tss| - 1];
      CountersAddUp(front);
      ChunkCountersClosed(ChunksCounters(front), tss[|tss| - 1]);
    }
  }

  /** A chunk whose text is blank yields no triple, so it changes neither the graph nor the
      counters, and it is not sent to the model. */
  lemma {:induction false} BlankChunkSkipped(generate: Generator, parse: Parser, model: string, chunks: seq<Document>, i: nat)
    requires i < |chunks| && Strip(chunks[i].pageContent) == []
    ensures ChunkTriples(generate, parse, model, chunks[i]) == []
    ensures ModelInputs(chunks[..i + 1]) == ModelInputs(chunks[..i])
  {
    assert chunks[..i + 1][..i] == chunks[..i];
  }

  /** A chunk without triples changes neither the graph nor the counters. */
  lemma {:induction false} EmptyChunkStep(g: Graph, tss: seq<seq<JsonValue>>, scope: string)
    ensures ChunksGraph(g, tss + [[]], scope) == ChunksGraph(g, tss, scope)
    ensures ChunksCounters(tss + [[]]) == ChunksCounters(tss)
  {
    ChunksStep(g, tss, [], scope);
    var c := ChunksCounters(tss);
    assert Counters(c.total + 0, c.inserted, c.skipped) == c;
  }

  /** Total of the insertable triples over all chunks. */
  function InsertableOf(tss: seq<seq<JsonValue>>): nat {
    if tss == [] then 0 else InsertableOf(tss[..|tss| - 1]) + CountWhere(Insertable, tss[|tss| - 1])
  }

  /** The inserted counter is the number of insertable triples. */
  lemma {:induction false} ChunksInserted(tss: seq<seq<JsonValue>>)
    ensures ChunksCounters(tss).inserted == InsertableOf(tss)
  {
    if tss != [] {
      var front := tss[..|tss| - 1];
      ChunksInserted(front);
      ChunkCountersClosed(ChunksCounters(front), tss[|tss| - 1]);
    }
  }

  lemma {:induction false} InsertableOfPrefix(tss: seq<seq<JsonValue>>, k: nat)
    requires k <= |tss|
    ensures InsertableOf(tss[..k]) <= InsertableOf(tss)
    decreases |tss| - k
  {
    if k < |tss| {
      InsertableOfPrefix(tss[..|tss| - 1], k);
      assert tss[..|tss| - 1][..k] == tss[..k];
    } else {
      assert tss[..k] == tss;
    }
  }

  /** When chunk `i` holds an insertable triple, the whole run inserts at least one. */
  lemma {:induction false} NoReachErr(tss: seq<seq<JsonValue>>, i: nat)
    requires i < |tss| && CountWhere(Insertable, tss[i]) > 0
    ensures ChunksCounters(tss).inserted > 0
  {
    assert tss[..i + 1][..i] == tss[..i];
    InsertableOfPrefix(tss, i + 1);
    ChunksInserted(tss);
  }

  /** A prefix run that inserted something keeps its insert in the whole run. */
  lemma {:induction false} ChunkRunInserts(generate: Generator, parse: Parser, model: string, chunks: seq<Document>, k: nat, prefix: seq<seq<JsonValue>>)
    requires 0 < k <= |chunks| && prefix == ChunkTripleLists(generate, parse, model, chunks[..k])
    requires CountWhere(Insertable, prefix[k - 1]) > 0
    ensures ChunksCounters(ChunkTripleLists(generate, parse, model, chunks)).inserted > 0
  {
    var all := ChunkTripleLists(generate, parse, model, chunks);
    ChunkTripleListsAt(generate, parse, model, chunks[..k], k - 1);
    ChunkTripleListsAt(generate, parse, model, chunks, k - 1);
    NoReachErr(all, k - 1);
  }

  /** `GraphBuilderLLM` of the vector package, over its Neo4j database and model endpoint. */
  class GraphBuilderLLM {
    const db: GraphDatabase
    const model: string
    const generate: Generator
    const parse: Parser

    constructor (db: GraphDatabase, model: string, generate: Generator, parse: Parser)
      ensures this.db == db && this.model == model && this.generate == generate && this.parse == parse
    {
      this.db := db;
      this.model := model;
      this.generate := generate;
      this.parse := parse;
    }

    /** `insert_triple`: normalize the three names, then merge the triple with scope tags on new
        nodes; `false` when the database raises. */
    method InsertTriple(subject: string, pred: string, obj: string, scope: string) returns (ok: bool)
      requires db.Valid()
      modifies db
      ensures db.Valid()
      ensures ok == db.reachable
      ensures db.graph == if ok then MergeTriple(old(db.graph), Normalize(subject), Normalize(pred), Normalize(obj), scope, true)
                          else old(db.graph)
    {
      var s := Normalize(subject);
      var p := Normalize(pred);
      var o := Normalize(obj);
      ok := db.RunMergeTriple(s, p, o, scope, true);
    }

    /** `extract_triples_with_llm`. */
    method ExtractTriplesWithLlm(text: string, maxRetries: int, backoffSecs: real)
      returns (triples: seq<JsonValue>, ghost sleeps: seq<real>, ghost attempts: nat)
      ensures Extraction(triples, sleeps, attempts) == RetrySpec(VectorOutcomes(generate, parse, model, text), 1, maxRetries, backoffSecs)
      ensures forall t :: t in triples ==> IsTripleObject(t)
    {
      triples, sleeps, attempts := ExtractTriplesWithRetry(generate, parse, model, text, maxRetries, backoffSecs);
    }

    /** One iteration of the inner loop of `process_chunks`: a triple with a blank field is skipped,
        any other is inserted, and an insert the database refuses raises. */
    method InsertOne(t: JsonValue, scope: string, c: Counters) returns (r: Result<Counters>)
      requires db.Valid()
      modifies db
      ensures db.Valid()
      ensures r.Ok? ==> r.value == StepCounters(c, t)
      ensures db.reachable ==> r.Ok? && db.graph == StepGraph(old(db.graph), t, scope)
      ensures !db.reachable ==> db.graph == old(db.graph) && (r.Err? <==> Insertable(t))
    {
      var n := Fields(t);
      var s, p, o := n.subject, n.pred, n.obj;
      if s != [] && p != [] && o != [] {
        var ok := InsertTriple(s, p, o, scope);
        if !ok {
          return Err("graph database unavailable");
        }
        r := Ok(c.(inserted := c.inserted + 1));
      } else {
        r := Ok(c.(skipped := c.skipped + 1));
      }
    }

    /** The inner loop of `process_chunks` over the triples of one chunk: the graph and counters of
        `TriplesGraph` and `TriplesCounters`, or an error at the first insertable triple when the
        database is unreachable. */
    method InsertTriples(triples: seq<JsonValue>, scope: string, start: Counters) returns (r: Result<Counters>)
      requires db.Valid()
      modifies db
      ensures db.Valid()
      ensures r.Ok? ==> r.value == TriplesCounters(triples, start)
      ensures db.reachable ==> r.Ok? && db.graph == TriplesGraph(old(db.graph), triples, scope)
      ensures !db.reachable ==> db.graph == old(db.graph) && (r.Err? <==> CountWhere(Insertable, triples) > 0)
    {
      ghost var g0 := db.graph;
      var counters := start;
      var j := 0;
      assert triples[..j] == [];
      while j < |triples|
        invariant 0 <= j <= |triples| && db.Valid()
        invariant counters == TriplesCounters(triples[..j], start)
        invariant db.reachable ==> db.graph == TriplesGraph(g0, triples[..j], scope)
        invariant !db.reachable ==> db.graph == g0 && CountWhere(Insertable, triples[..j]) == 0
      {
        TriplesGraphStep(g0, triples, j, scope);
        TriplesCountersStep(triples, j, start);
        CountWhereStep(Insertable, triples, j);
        var res := InsertOne(triples[j], scope, counters);
        if res.Err? {
          CountWherePrefix(Insertable, triples, j + 1);
          return Err(res.error);
        }
        counters := res.value;
        j := j + 1;
      }
      assert triples[..j] == triples;
      r := Ok(counters);
    }

    /** One iteration of the outer loop of `process_chunks`: a blank chunk is skipped, any other
        is sent to the model and its triples are inserted. `prompt` is what was sent. */
    method ProcessChunk(chunk: Document, scope: string, c: Counters) returns (r: Result<Counters>, ghost prompt: seq<string>)
      requires db.Valid()
      modifies db
      ensures db.Valid()
      ensures prompt == ModelInputs([chunk])
      ensures r.Ok? ==> r.value == ChunkCounters(c, ChunkTriples(generate, parse, model, chunk))
      ensures db.reachable ==> r.Ok? && db.graph == TriplesGraph(old(db.graph), ChunkTriples(generate, parse, model, chunk), scope)
      ensures !db.reachable ==> db.graph == old(db.graph)
      ensures !db.reachable ==> (r.Err? <==> CountWhere(Insertable, ChunkTriples(generate, parse, model, chunk)) > 0)
    {
      assert [chunk][..0] == [];
      var text := Strip(chunk.pageContent);
      if text == [] {
        assert Counters(c.total + 0, c.inserted, c.skipped) == c;
        return Ok(c), [];
      }
      prompt := [text];
      r := ProcessText(text, scope, c);
    }

    /** The non-blank case of one chunk: extract the triples of its text and insert them. */
    method ProcessText(text: string, scope: string, c: Counters) returns (r: Result<Counters>)
      requires db.Valid() && text != []
      modifies db
      ensures db.Valid()
      ensures r.Ok? ==> r.value == ChunkCounters(c, TextTriples(generate, parse, model, text))
      ensures db.reachable ==> r.Ok? && db.graph == TriplesGraph(old(db.graph), TextTriples(generate, parse, model, text), scope)
      ensures !db.reachable ==> db.graph == old(db.graph)
      ensures !db.reachable ==> (r.Err? <==> CountWhere(Insertable, TextTriples(generate, parse, model, text)) > 0)
    {
      var triples;
      ghost var sleeps, attempts;
      triples, sleeps, attempts := ExtractTriplesWithLlm(text, DefaultMaxRetries, DefaultBackoffSecs);
      assert triples == TextTriples(generate, parse, model, text);
      r := InsertTriples(triples, scope, Counters(c.total + |triples|, c.inserted, c.skipped));
    }

    /** `process_chunks`: the graph and counters of `ChunksGraph` and `ChunksCounters` over the
        triples of each chunk, or an error at the first insert when the database cannot be reached.
        `prompts` are the texts sent to the model. */
    method ProcessChunks(chunks: seq<Document>, scope: string) returns (r: Result<Counters>, ghost prompts: seq<string>)
      requires db.Valid()
      modifies db
      ensures db.Valid()
      ensures prompts <= ModelInputs(chunks) && (r.Ok? ==> prompts == ModelInputs(chunks))
      ensures r.Ok? ==> r.value == ChunksCounters(ChunkTripleLists(generate, parse, model, chunks))
      ensures db.reachable ==> r.Ok? && db.graph == ChunksGraph(old(db.graph), ChunkTripleLists(generate, parse, model, chunks), scope)
      ensures !db.reachable ==> db.graph == old(db.graph)
      ensures !db.reachable ==> (r.Err? <==> ChunksCounters(ChunkTripleLists(generate, parse, model, chunks)).inserted > 0)
    {
      ghost var g0 := db.graph;
      ghost var tss: seq<seq<JsonValue>> := [];
      var counters := Counters(0, 0, 0);
      prompts := [];
      var i := 0;
      assert chunks[..i] == [];
      while i < |chunks|
        invariant 0 <= i <= |chunks| && db.Valid()
        invariant prompts == ModelInputs(chunks[..i])
        invariant tss == ChunkTripleLists(generate, parse, model, chunks[..i])
        invariant counters == ChunksCounters(tss)
        invariant db.reachable ==> db.graph == ChunksGraph(g0, tss, scope)
        invariant !db.reachable ==> db.graph == g0 && counters.inserted == 0
      {
        ghost var ts := ChunkTriples(generate, parse, model, chunks[i]);
        ChunkTripleListsStep(generate, parse, model, chunks, i);
        ModelInputsStep(chunks, i);
        ChunksStep(g0, tss, ts, scope);
        ChunkCountersClosed(counters, ts);
        var res;
        ghost var prompt;
        res, prompt := ProcessChunk(chunks[i], scope, counters);
        prompts := prompts + prompt;
        if res.Err? {
          ChunkRunInserts(generate, parse, model, chunks, i + 1, tss + [ts]);
          ModelInputsPrefix(chunks, i + 1);
          return Err(res.error), prompts;
        }
        counters := res.value;
        tss := tss + [ts];
        i := i + 1;
      }
      assert chunks[..i] == chunks;
      r := Ok(counters);
    }
  }
}
