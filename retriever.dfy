/** `KnowledgeBaseRetriever`: rewrite the question with the model, fetch the closest chunks from the
    scope's FAISS index, look TF-IDF keywords of those chunks up among the scope's graph edges, and
    ask the model to answer from both, in chat mode with the caller's history. */
module Retriever {
  import opened Wrappers
  import opened PyText
  import opened Documents
  import opened GraphStore
  import opened KeywordSearch
  import opened TextSanitizer
  import Config

  /** One chat message `{"role": ..., "content": ...}`. */
  datatype Message = Message(role: string, content: string)

  /** `requests.post` to `/api/generate` with the model and the prompt: the `response` field of the
      reply for the given attempt (`""` when the field is missing); `None` when the request or its
      decoding raises. */
  type Completion = (string, string, nat) -> Option<string>

  /** `requests.post` to `/api/chat` with the model and the messages: `message.content` of the
      reply for the given attempt; `None` when the request raises or the field is missing. */
  type Chat = (string, seq<Message>, nat) -> Option<string>

  /** `FAISS.load_local(path)` followed by `similarity_search(question, k)`; `None` when loading
      the index raises. */
  type IndexSearch = (Config.Path, string, nat) -> Option<seq<Document>>

  /** The `unicode_escape` decoding of a chunk's UTF-8 bytes; `None` when the text holds an escape
      the codec rejects (a trailing backslash, `\x` without two hex digits, an unknown `\N{...}`
      name), where the source raises and nothing catches it. */
  type Decoder = string -> Option<string>

  /** The answer prompt: the f-string around the question and the Python `repr`s of the rows and
      of the cleaned chunks. */
  type Render = (string, seq<Row>, seq<string>) -> string

  /** The outside services the retriever talks to. */
  datatype Services = Services(generate: Completion, chat: Chat, search: IndexSearch, tfidf: Tfidf,
                               decode: Decoder, render: Render)

  // ---------------------------------------------------------------------------------------------
  // The three-attempt loop of both model helpers

  const Attempts: nat := 3

  /** The seconds slept after a failed attempt, the last one included: 1.5 times the attempt
      number counted from one. */
  function Delay(attempt: nat): real {
    (attempt + 1) as real * 1.5
  }

  /** The reply of the first successful attempt (or `None`), the delays slept, the attempts made. */
  datatype Tried = Tried(reply: Option<string>, sleeps: seq<real>, attempts: nat)

  /** The attempts from number `attempt` (counted from zero) up to the third. */
  function Tries(tryAt: nat -> Option<string>, attempt: nat): Tried
    decreases Attempts - attempt
  {
    if attempt >= Attempts then Tried(None, [], 0)
    else match tryAt(attempt)
      case Some(t) => Tried(Some(t), [], 1)
      case None =>
        var rest := Tries(tryAt, attempt + 1);
        Tried(rest.reply, [Delay(attempt)] + rest.sleeps, rest.attempts + 1)
  }

  /** The delays after the failed attempts `from..to-1`. */
  function Delays(from: nat, to: nat): seq<real>
    decreases to - from
  {
    if from >= to then [] else [Delay(from)] + Delays(from + 1, to)
  }

  /** The first attempt that succeeds ends the loop with its reply, after one delay per earlier
      failure. */
  lemma {:induction false} TriesFirstSuccess(tryAt: nat -> Option<string>, a: nat, k: nat)
    requires a <= k < Attempts && tryAt(k).Some?
    requires forall j :: a <= j < k ==> tryAt(j).None?
    ensures Tries(tryAt, a) == Tried(tryAt(k), Delays(a, k), k - a + 1)
    decreases k - a
  {
    if a < k {
      TriesFirstSuccess(tryAt, a + 1, k);
    }
  }

  /** When every attempt fails the reply is `None`, after one delay per attempt: 1.5, 3 and 4.5
      seconds. */
  lemma {:induction false} TriesAllFail(tryAt: nat -> Option<string>, a: nat)
    requires a <= Attempts
    requires forall j :: a <= j < Attempts ==> tryAt(j).None?
    ensures Tries(tryAt, a) == Tried(None, Delays(a, Attempts), Attempts - a)
    ensures a == 0 ==> Tries(tryAt, a).sleeps == [1.5, 3.0, 4.5]
    decreases Attempts - a
  {
    if a < Attempts {
      TriesAllFail(tryAt, a + 1);
    }
    if a == 0 {
      assert Delays(3, 3) == [];
      assert Delays(2, 3) == [4.5];
      assert Delays(1, 3) == [3.0, 4.5];
    }
  }

  /** The text a helper returns: the stripped reply, or `""` after three failures. */
  function ReplyText(t: Tried): string {
    if t.reply.Some? then Strip(t.reply.value) else ""
  }

  /** Python truthiness of an optional string argument. */
  predicate Given(s: Option<string>) {
    s.Some? && s.value != ""
  }

  // ---------------------------------------------------------------------------------------------
  // Stateless mode

  /** The text sent in stateless mode: with a system prompt, both stripped and joined by a blank
      line; without one, the prompt as given. */
  function FullPrompt(prompt: string, system: Option<string>): string {
    if Given(system) then Strip(system.value) + "\n\n" + Strip(prompt) else prompt
  }

  /** The outcome of each attempt of the stateless call. */
  function GenerateAt(generate: Completion, model: string, prompt: string): nat -> Option<string> {
    (a: nat) => generate(model, prompt, a)
  }

  /** With a system prompt, the prompt sent starts with the stripped system prompt and ends with
      the stripped prompt, a blank line between them; without one it is the prompt untouched. */
  lemma {:induction false} FullPromptShape(prompt: string, system: Option<string>)
    ensures var f := FullPrompt(prompt, system);
      && (Given(system) ==> StartsWith(f, Strip(system.value) + "\n\n") && f[|f| - |Strip(prompt)|..] == Strip(prompt))
      && (!Given(system) ==> f == prompt)
  {
    if Given(system) {
      var f := FullPrompt(prompt, system);
      var head := Strip(system.value) + "\n\n";
      assert f == head + Strip(prompt);
      assert f[..|head|] == head;
    }
  }

  // ---------------------------------------------------------------------------------------------
  // Chat mode

  /** Some message already has the role `system`. */
  predicate HasSystem(msgs: seq<Message>) {
    exists i :: 0 <= i < |msgs| && msgs[i].role == "system"
  }

  /** The messages `_get_model` sends: a copy of the history, the system prompt in front when given
      and no message is a system message yet, the user turn at the end when the prompt is given. */
  function PrepareMessages(history: seq<Message>, prompt: Option<string>, system: Option<string>): seq<Message> {
    var withSystem := if Given(system) && !HasSystem(history) then [Message("system", system.value)] + history else history;
    if Given(prompt) then withSystem + [Message("user", prompt.value)] else withSystem
  }

  /** The history comes through whole and in place, behind at most one new system message; a system
      message is present whenever one is given; the user turn is last exactly when the prompt is
      given. */
  lemma {:induction false} PrepareShape(history: seq<Message>, prompt: Option<string>, system: Option<string>)
    ensures var m := PrepareMessages(history, prompt, system);
      var front := if Given(system) && !HasSystem(history) then 1 else 0;
      var back := if Given(prompt) then 1 else 0;
      && |m| == front + |history| + back
      && m[front..front + |history|] == history
      && (front == 1 ==> m[0] == Message("system", system.value))
      && (Given(system) ==> HasSystem(m))
      && (Given(prompt) ==> m[|m| - 1] == Message("user", prompt.value))
  {
    var m := PrepareMessages(history, prompt, system);
    var front := if Given(system) && !HasSystem(history) then 1 else 0;
    if Given(system) && HasSystem(history) {
      var i :| 0 <= i < |history| && history[i].role == "system";
      assert m[i] == history[i];
    }
    if Given(system) && !HasSystem(history) {
      assert m[0].role == "system";
    }
  }

  /** The outcome of each attempt of the chat call. */
  function ChatAt(chat: Chat, model: string, msgs: seq<Message>): nat -> Option<string> {
    (a: nat) => chat(model, msgs, a)
  }

  /** The history `_get_model` returns: the messages sent plus the assistant turn on success, the
      messages sent alone after three failures. */
  function ChatHistory(msgs: seq<Message>, t: Tried): seq<Message> {
    if t.reply.Some? then msgs + [Message("assistant", Strip(t.reply.value))] else msgs
  }

  /** After three failures the reply is `""` and the returned history is the messages sent, new
      user turn included, with no assistant turn. */
  lemma {:induction false} ChatFailureKeepsMessages(chat: Chat, model: string, msgs: seq<Message>)
    requires forall j :: 0 <= j < Attempts ==> ChatAt(chat, model, msgs)(j).None?
    ensures var t := Tries(ChatAt(chat, model, msgs), 0);
      ReplyText(t) == "" && ChatHistory(msgs, t) == msgs
  {
    var f := ChatAt(chat, model, msgs);
    TriesNone(f, 0);
  }

  lemma {:induction false} TriesNone(tryAt: nat -> Option<string>, a: nat)
    requires a <= Attempts
    requires forall j :: a <= j < Attempts ==> tryAt(j).None?
    ensures Tries(tryAt, a).reply.None?
    decreases Attempts - a
  {
    if a < Attempts {
      TriesNone(tryAt, a + 1);
    }
  }

  /** On success the stripped reply is returned and becomes the last message of the history. */
  lemma {:induction false} ChatSuccessAppendsReply(msgs: seq<Message>, t: Tried)
    requires t.reply.Some?
    ensures var h := ChatHistory(msgs, t);
      && h[..|msgs|] == msgs && |h| == |msgs| + 1
      && h[|msgs|] == Message("assistant", ReplyText(t))
      && Strip(ReplyText(t)) == ReplyText(t)
  {
    StripIdempotent(t.reply.value);
    assert ChatHistory(msgs, t)[..|msgs|] == msgs;
  }

  // ---------------------------------------------------------------------------------------------
  // `rewrite_question`

  const RewriteSystem: string :=
    "You are an AI assistant that rewrites vague or informal user questions "
    + "into clearer, more specific ones suitable for knowledge base search. "
    + "Do not add any comments, explanations, or labels — return only the improved question."

  function RewritePrompt(question: string): string {
    "\n        Original Question:\n        " + question
    + "\n\n        Improved Question (return only the question, no other text):\n        "
  }

  /** The question `rewrite_question` returns. */
  function RewriteSpec(generate: Completion, question: string, model: string): string {
    Strip(ReplyText(Tries(GenerateAt(generate, model, FullPrompt(RewritePrompt(question), Some(RewriteSystem))), 0)))
  }

  /** The rewrite is the model's stripped reply; when all three attempts fail it is `""`, not the
      original question. */
  lemma {:induction false} RewriteOutcome(generate: Completion, question: string, model: string)
    ensures var t := Tries(GenerateAt(generate, model, FullPrompt(RewritePrompt(question), Some(RewriteSystem))), 0);
      && RewriteSpec(generate, question, model) == ReplyText(t)
      && (t.reply.None? ==> RewriteSpec(generate, question, model) == "")
  {
    var t := Tries(GenerateAt(generate, model, FullPrompt(RewritePrompt(question), Some(RewriteSystem))), 0);
    if t.reply.Some? {
      StripIdempotent(t.reply.value);
    }
  }

  // ---------------------------------------------------------------------------------------------
  // `retrieve_docs`

  /** The index directory the retriever opens: the scope name appended to `data/gold/` as text. */
  function IndexPath(scope: string): string {
    "data/gold/" + scope
  }

  const SearchK: nat := 3

  const IndexError: string := "FAISS index cannot be loaded"

  /** The retriever opens the scope's gold path whenever the scope is relative. */
  lemma {:induction false} IndexPathIsGold(scope: string)
    requires scope == [] || scope[0] != '/'
    ensures Config.ParsePath(IndexPath(scope)) == Config.GetScopePaths(scope).gold
  {
    IndexPathParts(scope);
    Config.GoldDirParts();
    assert IndexPath(scope)[0] == 'd';
  }

  /** The parts of the retriever's index path. */
  lemma {:induction false} IndexPathParts(scope: string)
    ensures Config.Parts(IndexPath(scope)) == ["data", "gold"] + Config.Parts(scope)
  {
    var tail := "gold" + "/" + scope;
    assert IndexPath(scope) == "data" + "/" + tail;
    Config.PartsOfPlainPrefix("data", tail);
    Config.PartsOfPlainPrefix("gold", scope);
    assert ["data"] + (["gold"] + Config.Parts(scope)) == ["data", "gold"] + Config.Parts(scope);
  }

  /** An absolute scope breaks the agreement: `pathlib` puts the gold index at the scope itself. */
  lemma {:induction false} AbsoluteScopeMissesGold()
    ensures Config.ParsePath(IndexPath("/x")) != Config.GetScopePaths("/x").gold
  {
    assert IndexPath("/x")[0] == 'd';
    assert Config.GetScopePaths("/x").gold == Config.ParsePath("/x");
  }

  // ---------------------------------------------------------------------------------------------
  // `answer_with_keywords_and_chunks`

  const GraphError: string := "graph query failed"

  const NoInformation: string := "Sorry, I couldn’t find any relevant information."

  const AnswerSystem: string :=
    "\n        You are a helpful assistant called Local-First AI, developed by Anish Khadka.\n\n"
    + "        Your primary role is to help users answer questions based on:\n"
    + "        - A list of structured triples from a graph database\n"
    + "        - A list of retrieved text documents\n\n"
    + "        If the user's message is a greeting, respond accordingly.\n\n"
    + "        Otherwise, use ONLY the provided data to answer. Never guess or hallucinate.\n        "

  const DecodeError: string := "unicode_escape cannot decode a chunk"

  /** Every chunk decoded and sanitised, in order; `None` as soon as one chunk cannot be decoded,
      since the comprehension stops at the first raise. */
  function Cleaned(decode: Decoder, chunks: seq<string>): (r: Option<seq<string>>)
    ensures r.None? <==> exists i :: 0 <= i < |chunks| && decode(chunks[i]).None?
    ensures r.Some? ==> |r.value| == |chunks|
    ensures r.Some? ==> forall i :: 0 <= i < |chunks| ==> r.value[i] == CleanTextChunk(decode(chunks[i]).value)
  {
    if chunks == [] then Some([])
    else match decode(chunks[0])
      case None => None
      case Some(t) =>
        match Cleaned(decode, chunks[1..])
        case None => None
        case Some(rest) => Some([CleanTextChunk(t)] + rest)
  }

  /** The answer and the history to keep in the session. */
  datatype Answer = Answer(result: Result<string>, history: seq<Message>)

  /** The last step: no rows and no chunks give the fixed apology without a chat call; a chunk the
      decoder rejects raises; otherwise the model answers in chat mode from the rendered question,
      rows and cleaned chunks. */
  function AnswerFromRows(s: Services, rewritten: string, rows: seq<Row>, chunks: seq<string>, model: string,
                          history: seq<Message>): Answer
  {
    if rows == [] && chunks == [] then Answer(Ok(NoInformation), history)
    else match Cleaned(s.decode, chunks)
      case None => Answer(Err(DecodeError), history)
      case Some(cleaned) =>
      var msgs := PrepareMessages(history, Some(s.render(rewritten, rows, cleaned)), Some(AnswerSystem));
      var t := Tries(ChatAt(s.chat, model, msgs), 0);
      Answer(Ok(Strip(ReplyText(t))), ChatHistory(msgs, t))
  }

  /** From the retrieved chunks on: chunks without any vocabulary and an unreachable graph raise,
      and the history is then not updated. */
  function AnswerFromChunks(s: Services, reachable: bool, order: seq<Relation>, rewritten: string, chunks: seq<string>,
                            scope: string, model: string, history: seq<Message>): Answer
  {
    match KeywordsFor(s.tfidf, chunks, DefaultTopK)
    case Err(e) => Answer(Err(e), history)
    case Ok(keywords) =>
      if !reachable then Answer(Err(GraphError), history)
      else AnswerFromRows(s, rewritten, KeywordQuery(keywords, order, scope), chunks, model, history)
  }

  /** The whole pipeline; an index that cannot be loaded raises. */
  function AnswerSpec(s: Services, reachable: bool, order: seq<Relation>, question: string, scope: string,
                      model: string, history: seq<Message>): Answer
  {
    var rewritten := RewriteSpec(s.generate, question, model);
    match s.search(Config.ParsePath(IndexPath(scope)), rewritten, SearchK)
    case None => Answer(Err(IndexError), history)
    case Some(docs) => AnswerFromChunks(s, reachable, order, rewritten, PageContents(docs), scope, model, history)
  }

  /** With the keyword guard, a search that finds no chunk on a reachable graph yields the fixed
      apology and leaves the history alone. */
  lemma {:induction false} NoChunksNoInformation(s: Services, order: seq<Relation>, question: string, scope: string,
                                                model: string, history: seq<Message>)
    requires s.search(Config.ParsePath(IndexPath(scope)), RewriteSpec(s.generate, question, model), SearchK) == Some([])
    ensures AnswerSpec(s, true, order, question, scope, model, history) == Answer(Ok(NoInformation), history)
  {
    assert PageContents([]) == [];
    KeywordQueryRows([], order, scope);
  }

  /** As written, the keyword step raises on an empty chunk list, so the apology is unreachable:
      every pipeline that gets past the keywords has at least one chunk. */
  lemma {:induction false} ApologyUnreachableAsWritten(tfidf: Tfidf, chunks: seq<string>)
    requires ExtractKeywordsAsWritten(tfidf, chunks, DefaultTopK).Ok?
    ensures chunks != []
  {
    NoTextsRaise(tfidf, DefaultTopK);
  }

  /** Whenever the model is asked, the system prompt is in the conversation, the last message sent
      is the rendered question, and the answer is stripped. */
  lemma {:induction false} AnswerAsksWithContext(s: Services, order: seq<Relation>, question: string, scope: string,
                                                model: string, history: seq<Message>, docs: seq<Document>, keywords: seq<string>)
    requires s.search(Config.ParsePath(IndexPath(scope)), RewriteSpec(s.generate, question, model), SearchK) == Some(docs)
    requires KeywordsFor(s.tfidf, PageContents(docs), DefaultTopK) == Ok(keywords)
    requires KeywordQuery(keywords, order, scope) != [] || docs != []
    requires Cleaned(s.decode, PageContents(docs)).Some?
    ensures var rewritten := RewriteSpec(s.generate, question, model);
      var rows := KeywordQuery(keywords, order, scope);
      var prompt := s.render(rewritten, rows, Cleaned(s.decode, PageContents(docs)).value);
      var msgs := PrepareMessages(history, Some(prompt), Some(AnswerSystem));
      var a := AnswerSpec(s, true, order, question, scope, model, history);
      && a.result.Ok?
      && HasSystem(msgs)
      && (prompt != "" ==> msgs[|msgs| - 1] == Message("user", prompt))
      && Strip(a.result.value) == a.result.value
  {
    var rewritten := RewriteSpec(s.generate, question, model);
    var rows := KeywordQuery(keywords, order, scope);
    var prompt := s.render(rewritten, rows, Cleaned(s.decode, PageContents(docs)).value);
    var msgs := PrepareMessages(history, Some(prompt), Some(AnswerSystem));
    PrepareShape(history, Some(prompt), Some(AnswerSystem));
    assert AnswerSystem != [];
    var t := Tries(ChatAt(s.chat, model, msgs), 0);
    StripIdempotent(ReplyText(t));
  }

  /** A retrieved chunk the decoder rejects makes the answer raise, before the model is asked and
      without touching the history, whenever the apology guard lets the pipeline reach the
      clean-up. */
  lemma {:induction false} DecodeFailureRaises(s: Services, order: seq<Relation>, question: string, scope: string,
                                              model: string, history: seq<Message>, docs: seq<Document>, i: nat)
    requires s.search(Config.ParsePath(IndexPath(scope)), RewriteSpec(s.generate, question, model), SearchK) == Some(docs)
    requires KeywordsFor(s.tfidf, PageContents(docs), DefaultTopK).Ok?
    requires i < |docs| && s.decode(docs[i].pageContent).None?
    ensures AnswerSpec(s, true, order, question, scope, model, history) == Answer(Err(DecodeError), history)
  {
    assert PageContents(docs)[i] == docs[i].pageContent;
  }

  /** The edges in the order the server scans them: each edge of the graph once. */
  ghost predicate ScanOf(order: seq<Relation>, g: Graph) {
    (forall rel :: rel in order <==> rel in g.relations)
    && (forall i, j :: 0 <= i < j < |order| ==> order[i] != order[j])
  }

  /** The retriever, over the Neo4j database it holds a driver to and the services it calls. */
  class KnowledgeBaseRetriever {
    const db: GraphDatabase
    const services: Services

    constructor (db: GraphDatabase, services: Services)
      ensures this.db == db && this.services == services
    {
      this.db := db;
      this.services := services;
    }

    /** `_get_model_no_memory(prompt, model, system_prompt)`. */
    method GetModelNoMemory(prompt: string, model: string, system: Option<string>)
      returns (reply: string, ghost sleeps: seq<real>, ghost attempts: nat)
      ensures var t := Tries(GenerateAt(services.generate, model, FullPrompt(prompt, system)), 0);
        reply == ReplyText(t) && sleeps == t.sleeps && attempts == t.attempts
    {
      var fullPrompt := if Given(system) then Strip(system.value) + "\n\n" + Strip(prompt) else prompt;
      var r;
      r, sleeps, attempts := RetryThree(GenerateAt(services.generate, model, fullPrompt));
      reply := if r.Some? then Strip(r.value) else "";
    }

    /** `_get_model(prompt, model, system_prompt, history)`: the reply and the updated history. */
    method GetModel(prompt: Option<string>, model: string, system: Option<string>, history: seq<Message>)
      returns (reply: string, messages: seq<Message>, ghost sleeps: seq<real>, ghost attempts: nat)
      ensures var msgs := PrepareMessages(history, prompt, system);
        var t := Tries(ChatAt(services.chat, model, msgs), 0);
        reply == ReplyText(t) && messages == ChatHistory(msgs, t) && sleeps == t.sleeps && attempts == t.attempts
    {
      messages := history;
      if Given(system) && !HasSystem(messages) {
        messages := [Message("system", system.value)] + messages;
      }
      if Given(prompt) {
        messages := messages + [Message("user", prompt.value)];
      }
      var r;
      r, sleeps, attempts := RetryThree(ChatAt(services.chat, model, messages));
      if r.Some? {
        reply := Strip(r.value);
        messages := messages + [Message("assistant", reply)];
      } else {
        reply := "";
      }
    }

    /** `rewrite_question(question, model_name)`. */
    method RewriteQuestion(question: string, model: string) returns (r: string)
      ensures r == RewriteSpec(services.generate, question, model)
    {
      var reply;
      ghost var sleeps, attempts;
      reply, sleeps, attempts := GetModelNoMemory(RewritePrompt(question), model, Some(RewriteSystem));
      r := Strip(reply);
    }

    /** `retrieve_docs(question, scope)`: the texts of the three nearest chunks of the scope's index;
        an index that cannot be loaded raises. */
    method RetrieveDocs(question: string, scope: string) returns (r: Result<seq<string>>)
      ensures services.search(Config.ParsePath(IndexPath(scope)), question, SearchK).None? <==> r.Err?
      ensures r.Ok? ==> r.value == PageContents(services.search(Config.ParsePath(IndexPath(scope)), question, SearchK).value)
    {
      var docs := services.search(Config.ParsePath(IndexPath(scope)), question, SearchK);
      if docs.None? {
        return Err(IndexError);
      }
      r := Ok(PageContents(docs.value));
    }

    /** `_run_cypher` with the keyword query; an unreachable server raises. */
    method RunKeywordQuery(keywords: seq<string>, scope: string, order: seq<Relation>) returns (r: Result<seq<Row>>)
      requires ScanOf(order, db.graph)
      ensures r.Ok? <==> db.reachable
      ensures r.Ok? ==> r.value == KeywordQuery(keywords, order, scope)
    {
      if !db.reachable {
        return Err(GraphError);
      }
      r := Ok(KeywordQuery(keywords, order, scope));
    }

    /** `answer_with_keywords_and_chunks(question, scope, model_name)` with the session's chat
        history passed in and the history to store returned. */
    method AnswerWithKeywordsAndChunks(question: string, scope: string, model: string, history: seq<Message>,
                                       order: seq<Relation>)
      returns (r: Result<string>, messages: seq<Message>)
      requires ScanOf(order, db.graph)
      ensures Answer(r, messages) == AnswerSpec(services, db.reachable, order, question, scope, model, history)
    {
      var rewritten := RewriteQuestion(question, model);
      var textChunks := RetrieveDocs(rewritten, scope);
      if textChunks.Err? {
        return Err(IndexError), history;
      }
      r, messages := AnswerFromTexts(rewritten, textChunks.value, scope, model, history, order);
    }

    /** The steps after retrieval. */
    method AnswerFromTexts(rewritten: string, textChunks: seq<string>, scope: string, model: string,
                            history: seq<Message>, order: seq<Relation>)
      returns (r: Result<string>, messages: seq<Message>)
      requires ScanOf(order, db.graph)
      ensures Answer(r, messages) == AnswerFromChunks(services, db.reachable, order, rewritten, textChunks, scope, model, history)
    {
      var keywords := KeywordsFor(services.tfidf, textChunks, DefaultTopK);
      if keywords.Err? {
        return Err(keywords.error), history;
      }
      var graphTriples := RunKeywordQuery(keywords.value, scope, order);
      if graphTriples.Err? {
        return Err(GraphError), history;
      }
      if graphTriples.value == [] && textChunks == [] {
        return Ok(NoInformation), history;
      }
      var cleanedChunks := Cleaned(services.decode, textChunks);
      if cleanedChunks.None? {
        return Err(DecodeError), history;
      }
      var userPrompt := services.render(rewritten, graphTriples.value, cleanedChunks.value);
      var answer;
      ghost var sleeps, attempts;
      answer, messages, sleeps, attempts := GetModel(Some(userPrompt), model, Some(AnswerSystem), history);
      r := Ok(Strip(answer));
    }
  }

  /** Up to three attempts: on a failure sleep and go on; the first reply ends the loop. */
  method RetryThree(tryAt: nat -> Option<string>) returns (reply: Option<string>, ghost sleeps: seq<real>, ghost attempts: nat)
    ensures Tried(reply, sleeps, attempts) == Tries(tryAt, 0)
  {
    sleeps := [];
    attempts := 0;
    var attempt: nat := 0;
    while attempt < Attempts
      invariant attempt <= Attempts && attempts == attempt
      invariant Tries(tryAt, 0) == Tried(Tries(tryAt, attempt).reply, sleeps + Tries(tryAt, attempt).sleeps,
                                         attempts + Tries(tryAt, attempt).attempts)
    {
      var outcome := tryAt(attempt);
      attempts := attempts + 1;
      if outcome.Some? {
        return outcome, sleeps, attempts;
      }
      var rest := Tries(tryAt, attempt + 1);
      assert sleeps + ([Delay(attempt)] + rest.sleeps) == (sleeps + [Delay(attempt)]) + rest.sleeps;
      sleeps := sleeps + [Delay(attempt)];
      attempt := attempt + 1;
    }
    reply := None;
  }
}
