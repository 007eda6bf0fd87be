/** The graph builder of the data-ingestion package: one model call per chunk with no retry, the
    first bracketed run of the reply parsed after a light clean-up, the parsed list returned
    unfiltered, and names stored exactly as the model wrote them, without scope tags. A failed
    request, an element that is not a dict, or an insert the database refuses raises and ends the
    run; inserts made before that stay in the graph. */
module IngestionGraphBuilder {
  import opened Wrappers
  import opened PyText
  import opened Json
  import opened Documents
  import opened GraphStore
  import opened Seqs

  // ---------------------------------------------------------------------------------------------
  // Finding the first bracketed span of the reply: from an opening bracket to the nearest closing
  // bracket after it, across newlines.

  /** `s[i..e]` matches `\[.*?\]` with `.` matching every character. */
  predicate IsBracketMatch(s: string, i: nat, e: nat) {
    i + 2 <= e <= |s| && s[i] == '[' && s[e - 1] == ']'
  }

  /** The first index at or after `k` holding `c`. */
  function Find(s: string, c: char, k: nat): (r: Option<nat>)
    requires k <= |s|
    ensures r.Some? ==> k <= r.value < |s| && s[r.value] == c && c !in s[k..r.value]
    ensures r.None? ==> c !in s[k..]
    decreases |s| - k
  {
    if k == |s| then None
    else if s[k] == c then Some(k)
    else
      var r := Find(s, c, k + 1);
      assert s[k..] == [s[k]] + s[k + 1..];
      if r.Some? then assert s[k..r.value] == [s[k]] + s[k + 1..r.value]; r
      else r
  }

  /** The leftmost match, and the shortest one there: the first `[` and the first `]` after it. */
  function FirstArray(s: string): (r: Option<(nat, nat)>)
    ensures r.None? <==> forall i: nat, e: nat :: !IsBracketMatch(s, i, e)
    ensures r.Some? ==> IsBracketMatch(s, r.value.0, r.value.1) && ']' !in s[r.value.0..r.value.1 - 1]
    ensures r.Some? ==> forall i: nat, e: nat :: IsBracketMatch(s, i, e) ==>
      r.value.0 < i || (r.value.0 == i && r.value.1 <= e)
  {
    match Find(s, '[', 0)
    case None =>
      NotInSlice(s, '[', 0, |s|);
      None
    case Some(i) =>
      match Find(s, ']', i + 1)
      case None =>
        FirstArrayNone(s, i);
        None
      case Some(j) =>
        FirstArraySome(s, i, j);
        Some((i, j + 1))
  }

  /** No `]` after the first `[`: nothing matches. */
  lemma {:induction false} FirstArrayNone(s: string, i: nat)
    requires i < |s| && s[i] == '[' && '[' !in s[0..i] && ']' !in s[i + 1..]
    ensures forall i': nat, e: nat :: !IsBracketMatch(s, i', e)
  {
    NotInSlice(s, '[', 0, i);
    NotInSlice(s, ']', i + 1, |s|);
  }

  /** First `[` at `i`, first `]` after it at `j`: `s[i..j + 1]` is the leftmost-shortest match. */
  lemma {:induction false} FirstArraySome(s: string, i: nat, j: nat)
    requires i < j < |s| && s[i] == '[' && s[j] == ']' && '[' !in s[0..i] && ']' !in s[i + 1..j]
    ensures IsBracketMatch(s, i, j + 1) && ']' !in s[i..j]
    ensures forall i': nat, e: nat :: IsBracketMatch(s, i', e) ==> i < i' || (i == i' && j + 1 <= e)
  {
    assert s[i..j] == [s[i]] + s[i + 1..j];
    NotInSlice(s, '[', 0, i);
    NotInSlice(s, ']', i + 1, j);
  }

  // ---------------------------------------------------------------------------------------------
  // The clean-up before parsing

  /** Each newline, together with the whitespace run that follows it, becomes one space (the
      pattern `\n\s*`). */
  function CollapseNewlines(s: string): (r: string)
    ensures '\n' !in r
    ensures |r| <= |s|
    decreases |s|
  {
    if s == [] then []
    else if s[0] == '\n' then [' '] + CollapseNewlines(s[SkipSpace(s, 1)..])
    else [s[0]] + CollapseNewlines(s[1..])
  }

  /** The collapse only adds spaces, and keeps every character that is not whitespace. */
  lemma {:induction false} CollapseNewlinesChars(s: string)
    ensures forall c :: c in CollapseNewlines(s) ==> c in s || c == ' '
    ensures forall c :: c in s && !IsSpace(c) ==> c in CollapseNewlines(s)
    decreases |s|
  {
    if s != [] {
      if s[0] == '\n' {
        var k := SkipSpace(s, 1);
        CollapseNewlinesChars(s[k..]);
        forall c | c in s && !IsSpace(c)
          ensures c in s[k..]
        {
          var m :| 0 <= m < |s| && s[m] == c;
          if m >= k {
            assert s[k..][m - k] == c;
          }
        }
        assert forall c :: c in s[k..] ==> c in s;
      } else {
        CollapseNewlinesChars(s[1..]);
        assert s == [s[0]] + s[1..];
      }
    }
  }

  /** A text without newlines is left as it is. */
  lemma {:induction false} CollapseNewlinesNoop(s: string)
    requires '\n' !in s
    ensures CollapseNewlines(s) == s
    decreases |s|
  {
    if s != [] {
      assert s[1..] == s[1..];
      assert '\n' !in s[1..] by {
        forall c | c in s[1..] ensures c in s { }
      }
      CollapseNewlinesNoop(s[1..]);
    }
  }

  /** The clean-up before parsing: every plus sign is removed, then newlines are collapsed. */
  function CleanText(js: string): string {
    CollapseNewlines(RemoveChar(js, '+'))
  }

  /** The cleaned text holds neither a `+` nor a newline. */
  lemma {:induction false} CleanTextShape(js: string)
    ensures '+' !in CleanText(js) && '\n' !in CleanText(js)
  {
    CollapseNewlinesChars(RemoveChar(js, '+'));
  }

  // ---------------------------------------------------------------------------------------------
  // `extract_triples_with_llm`

  /** `requests.post(...).json().get("response", "")` for a model and a prompt text; `None` when
      the request or its decoding raises. */
  type Responder = (string, string) -> Option<string>

  /** What `extract_triples_with_llm` returns for a reply: a failed request raises; a blank reply,
      a reply without a bracketed run, a parse error and a non-list all give `[]`; a list is
      returned as it is. */
  function ExtractSpec(reply: Option<string>, parse: Parser): (r: Result<seq<JsonValue>>)
    ensures r.Err? <==> reply.None?
    ensures reply.Some? && Strip(reply.value) == [] ==> r == Ok([])
    ensures reply.Some? && FirstArray(Strip(reply.value)).None? ==> r == Ok([])
  {
    if reply.None? then Err("request failed")
    else
      var raw := Strip(reply.value);
      if raw == [] then Ok([])
      else match FirstArray(raw)
        case None => Ok([])
        case Some((i, e)) =>
          match parse(CleanText(raw[i..e]))
          case None => Ok([])
          case Some(v) => if v.JArray? then Ok(v.items) else Ok([])
  }

  /** A non-empty result is exactly the parsed list of the cleaned first bracketed run, whatever
      its elements are. */
  lemma {:induction false} ExtractUnfiltered(reply: Option<string>, parse: Parser)
    requires ExtractSpec(reply, parse).Ok? && ExtractSpec(reply, parse).value != []
    ensures var raw := Strip(reply.value);
      && FirstArray(raw).Some?
      && var m := FirstArray(raw).value;
      && ']' !in raw[m.0..m.1 - 1]
      && parse(CleanText(raw[m.0..m.1])) == Some(JArray(ExtractSpec(reply, parse).value))
  {
  }

  // ---------------------------------------------------------------------------------------------
  // `insert_triple` and `process_chunks`

  /** The insert test: all three fields are present and truthy, for the string values the graph
      can name entities by. */
  predicate Insertable(t: JsonValue) {
    && t.JObject?
    && Truthy(Get(t.fields, "subject")) && Truthy(Get(t.fields, "predicate")) && Truthy(Get(t.fields, "object"))
    && HasStringField(t, "subject") && HasStringField(t, "predicate") && HasStringField(t, "object")
  }

  /** One `insert_triple`: the names exactly as given, no tag. */
  function InsertSpec(g: Graph, t: JsonValue, scope: string): Graph
    requires Insertable(t)
  {
    MergeTriple(g, t.fields["subject"].s, t.fields["predicate"].s, t.fields["object"].s, scope, false)
  }

  /** The names are stored verbatim: the entities are the old ones plus the subject and object as
      written, new ones untagged, and the one edge is added. */
  lemma {:induction false} InsertVerbatim(g: Graph, t: JsonValue, scope: string)
    requires Insertable(t)
    ensures var r := InsertSpec(g, t, scope);
      var s, p, o := t.fields["subject"].s, t.fields["predicate"].s, t.fields["object"].s;
      && r.entities.Keys == g.entities.Keys + {s, o}
      && (forall n :: n in r.entities && n !in g.entities ==> r.entities[n] == None)
      && r.relations == g.relations + {Relation(s, p, scope, o)}
  {
    MergeTripleEffect(g, t.fields["subject"].s, t.fields["predicate"].s, t.fields["object"].s, scope, false);
  }

  /** The graph so far and whether the run is still going; once `ok` is false nothing changes. */
  datatype Progress = Progress(graph: Graph, ok: bool)

  /** One triple of the inner loop: a non-dict raises (`.get` is missing), an insertable triple is
      merged or raises when the database is unreachable, any other is passed over. */
  function TripleStep(p: Progress, t: JsonValue, scope: string, reachable: bool): Progress {
    if !p.ok then p
    else if !t.JObject? then Progress(p.graph, false)
    else if !Insertable(t) then p
    else if reachable then Progress(InsertSpec(p.graph, t, scope), true)
    else Progress(p.graph, false)
  }

  /** A repeated identical insert changes nothing. */
  lemma {:induction false} TripleStepTwice(p: Progress, t: JsonValue, scope: string, reachable: bool)
    ensures var once := TripleStep(p, t, scope, reachable);
      TripleStep(once, t, scope, reachable) == once
  {
    if p.ok && Insertable(t) && reachable {
      MergeTripleIdempotent(p.graph, t.fields["subject"].s, t.fields["predicate"].s, t.fields["object"].s, scope, false);
    }
  }

  /** The inner loop over `ts`, from left to right. */
  function TriplesRun(p: Progress, ts: seq<JsonValue>, scope: string, reachable: bool): Progress {
    if ts == [] then p else TripleStep(TriplesRun(p, ts[..|ts| - 1], scope, reachable), ts[|ts| - 1], scope, reachable)
  }

  lemma {:induction false} TriplesRunStep(p: Progress, ts: seq<JsonValue>, j: nat, scope: string, reachable: bool)
    requires j < |ts|
    ensures TriplesRun(p, ts[..j + 1], scope, reachable) == TripleStep(TriplesRun(p, ts[..j], scope, reachable), ts[j], scope, reachable)
  {
    assert ts[..j + 1][..j] == ts[..j];
  }

  /** A run that failed on a prefix ends the way the prefix ended. */
  lemma {:induction false} TriplesRunStops(p: Progress, ts: seq<JsonValue>, k: nat, scope: string, reachable: bool)
    requires k <= |ts| && !TriplesRun(p, ts[..k], scope, reachable).ok
    ensures TriplesRun(p, ts, scope, reachable) == TriplesRun(p, ts[..k], scope, reachable)
    decreases |ts| - k
  {
    if k < |ts| {
      var front := ts[..|ts| - 1];
      assert front[..k] == ts[..k];
      TriplesRunStops(p, front, k, scope, reachable);
    } else {
      assert ts[..k] == ts;
    }
  }

  /** With the database unreachable the graph never changes. */
  lemma {:induction false} TriplesRunUnreachable(p: Progress, ts: seq<JsonValue>, scope: string)
    ensures TriplesRun(p, ts, scope, false).graph == p.graph
  {
    if ts != [] {
      TriplesRunUnreachable(p, ts[..|ts| - 1], scope);
    }
  }

  /** One chunk: its raw text goes to the model; a failed request raises, otherwise its triples
      are run. */
  function ChunkRun(p: Progress, reply: Option<string>, parse: Parser, scope: string, reachable: bool): Progress {
    if !p.ok then p
    else match ExtractSpec(reply, parse)
      case Err(_) => Progress(p.graph, false)
      case Ok(ts) => TriplesRun(p, ts, scope, reachable)
  }

  /** The outer loop over the chunks, from left to right. */
  function ChunksRun(p: Progress, respond: Responder, parse: Parser, model: string, chunks: seq<Document>,
                     scope: string, reachable: bool): Progress {
    if chunks == [] then p
    else ChunkRun(ChunksRun(p, respond, parse, model, chunks[..|chunks| - 1], scope, reachable),
                  respond(model, chunks[|chunks| - 1].pageContent), parse, scope, reachable)
  }

  lemma {:induction false} ChunksRunStep(p: Progress, respond: Responder, parse: Parser, model: string,
                                         chunks: seq<Document>, i: nat, scope: string, reachable: bool)
    requires i < |chunks|
    ensures ChunksRun(p, respond, parse, model, chunks[..i + 1], scope, reachable)
      == ChunkRun(ChunksRun(p, respond, parse, model, chunks[..i], scope, reachable),
                  respond(model, chunks[i].pageContent), parse, scope, reachable)
  {
    assert chunks[..i + 1][..i] == chunks[..i];
  }

  /** A run that failed on some chunk ends the way it ended there. */
  lemma {:induction false} ChunksRunStops(p: Progress, respond: Responder, parse: Parser, model: string,
                                          chunks: seq<Document>, k: nat, scope: string, reachable: bool)
    requires k <= |chunks| && !ChunksRun(p, respond, parse, model, chunks[..k], scope, reachable).ok
    ensures ChunksRun(p, respond, parse, model, chunks, scope, reachable) == ChunksRun(p, respond, parse, model, chunks[..k], scope, reachable)
    decreases |chunks| - k
  {
    if k < |chunks| {
      var front := chunks[..|chunks| - 1];
      assert front[..k] == chunks[..k];
      ChunksRunStops(p, respond, parse, model, front, k, scope, reachable);
    } else {
      assert chunks[..k] == chunks;
    }
  }

  /** With the database unreachable a whole run leaves the graph as it was. */
  lemma {:induction false} ChunksRunUnreachable(p: Progress, respond: Responder, parse: Parser, model: string,
                                                chunks: seq<Document>, scope: string)
    ensures ChunksRun(p, respond, parse, model, chunks, scope, false).graph == p.graph
  {
    if chunks != [] {
      var q := ChunksRun(p, respond, parse, model, chunks[..|chunks| - 1], scope, false);
      ChunksRunUnreachable(p, respond, parse, model, chunks[..|chunks| - 1], scope);
      var reply := respond(model, chunks[|chunks| - 1].pageContent);
      if q.ok && ExtractSpec(reply, parse).Ok? {
        TriplesRunUnreachable(q, ExtractSpec(reply, parse).value, scope);
      }
    }
  }

  /** `GraphBuilderLLM` of the data-ingestion package, over its Neo4j database and model endpoint. */
  class GraphBuilderLLM {
    const db: GraphDatabase
    const model: string
    const respond: Responder
    const parse: Parser

    constructor (db: GraphDatabase, model: string, respond: Responder, parse: Parser)
      ensures this.db == db && this.model == model && this.respond == respond && this.parse == parse
    {
      this.db := db;
      this.model := model;
      this.respond := respond;
      this.parse := parse;
    }

    /** `insert_triple`: one merge of the names as given, without tags; `false` when the database
        raises. */
    method InsertTriple(subject: string, pred: string, obj: string, scope: string) returns (ok: bool)
      requires db.Valid()
      modifies db
      ensures db.Valid()
      ensures ok == db.reachable
      ensures db.graph == if ok then MergeTriple(old(db.graph), subject, pred, obj, scope, false) else old(db.graph)
    {
      ok := db.RunMergeTriple(subject, pred, obj, scope, false);
    }

    /** `extract_triples_with_llm`: one request, then the clean-up and parse of `ExtractSpec`. */
    method ExtractTriplesWithLlm(text: string) returns (r: Result<seq<JsonValue>>)
      ensures r == ExtractSpec(respond(model, text), parse)
    {
      var reply := respond(model, text);
      if reply.None? {
        return Err("request failed");
      }
      var raw := Strip(reply.value);
      if raw == [] {
        return Ok([]);
      }
      var m := FirstArray(raw);
      if m.None? {
        return Ok([]);
      }
      var jsonStr := raw[m.value.0..m.value.1];
      jsonStr := RemoveChar(jsonStr, '+');
      jsonStr := CollapseNewlines(jsonStr);
      var triples := parse(jsonStr);
      if triples.None? || !triples.value.JArray? {
        return Ok([]);
      }
      r := Ok(triples.value.items);
    }

    /** One triple of the inner loop of `process_chunks`. */
    method InsertOne(t: JsonValue, scope: string) returns (ok: bool)
      requires db.Valid()
      modifies db
      ensures db.Valid()
      ensures Progress(db.graph, ok) == TripleStep(Progress(old(db.graph), true), t, scope, db.reachable)
    {
      if !t.JObject? {
        return false;
      }
      var s := Get(t.fields, "subject");
      var p := Get(t.fields, "predicate");
      var o := Get(t.fields, "object");
      if Truthy(s) && Truthy(p) && Truthy(o) && s.JString? && p.JString? && o.JString? {
        ok := InsertTriple(s.s, p.s, o.s, scope);
      } else {
        ok := true;
      }
    }

    /** The inner loop of `process_chunks` over one chunk's triples, stopping at the first raise. */
    method InsertTriples(triples: seq<JsonValue>, scope: string) returns (ok: bool)
      requires db.Valid()
      modifies db
      ensures db.Valid()
      ensures Progress(db.graph, ok) == TriplesRun(Progress(old(db.graph), true), triples, scope, db.reachable)
    {
      ghost var p0 := Progress(db.graph, true);
      var j := 0;
      assert triples[..j] == [];
      while j < |triples|
        invariant 0 <= j <= |triples| && db.Valid()
        invariant Progress(db.graph, true) == TriplesRun(p0, triples[..j], scope, db.reachable)
      {
        TriplesRunStep(p0, triples, j, scope, db.reachable);
        var res := InsertOne(triples[j], scope);
        if !res {
          TriplesRunStops(p0, triples, j + 1, scope, db.reachable);
          return false;
        }
        j := j + 1;
      }
      assert triples[..j] == triples;
      ok := true;
    }

    /** One chunk of `process_chunks`: its raw text goes to the model, then its triples are
        inserted. `prompt` is what was sent. */
    method ProcessChunk(chunk: Document, scope: string) returns (ok: bool, ghost prompt: string)
      requires db.Valid()
      modifies db
      ensures db.Valid()
      ensures prompt == chunk.pageContent
      ensures Progress(db.graph, ok) == ChunkRun(Progress(old(db.graph), true), respond(model, chunk.pageContent), parse, scope, db.reachable)
    {
      prompt := chunk.pageContent;
      var triples := ExtractTriplesWithLlm(chunk.pageContent);
      if triples.Err? {
        return false, prompt;
      }
      ok := InsertTriples(triples.value, scope);
    }

    /** `process_chunks`: the run of `ChunksRun`, up to the first raise. `prompts` are the texts
        sent to the model: every chunk's, up to the one whose run raised. */
    method ProcessChunks(chunks: seq<Document>, scope: string) returns (ok: bool, ghost prompts: seq<string>)
      requires db.Valid()
      modifies db
      ensures db.Valid()
      ensures SentInOrder(prompts, chunks) && (ok ==> |prompts| == |chunks|)
      ensures Progress(db.graph, ok) == ChunksRun(Progress(old(db.graph), true), respond, parse, model, chunks, scope, db.reachable)
    {
      ghost var p0 := Progress(db.graph, true);
      prompts := [];
      var i := 0;
      assert chunks[..i] == [];
      while i < |chunks|
        invariant 0 <= i <= |chunks| && db.Valid()
        invariant |prompts| == i && SentInOrder(prompts, chunks)
        invariant Progress(db.graph, true) == ChunksRun(p0, respond, parse, model, chunks[..i], scope, db.reachable)
      {
        ChunksRunStep(p0, respond, parse, model, chunks, i, scope, db.reachable);
        var res;
        ghost var prompt;
        res, prompt := ProcessChunk(chunks[i], scope);
        SentInOrderStep(prompts, chunks);
        prompts := prompts + [prompt];
        if !res {
          ChunksRunStops(p0, respond, parse, model, chunks, i + 1, scope, db.reachable);
          return false, prompts;
        }
        i := i + 1;
      }
      assert chunks[..i] == chunks;
      ok := true;
    }
  }
}
