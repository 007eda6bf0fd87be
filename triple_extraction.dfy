/** Text post-processing shared by the three LLM graph builders: locating the JSON array in the
    model's reply with a lazy regular expression, the character clean-up before `json.loads`, the
    per-element validation of the parsed triples, and the bounded retry loop with linear backoff. */
module TripleExtraction {
  import opened Wrappers
  import opened PyText
  import opened Json

  // ---------------------------------------------------------------------------------------------
  // Finding the first JSON array of objects in the reply: an opening bracket, blanks, a brace,
  // the shortest run of any characters up to a closing brace, blanks and a closing bracket.

  /** A match of the pattern with its two inner positions spelled out: `[` at `i`, blanks, `{` at
      `j`, anything, `}` at `m`, blanks, `]` at `e - 1`. */
  predicate ObjectArrayShape(s: string, i: nat, j: nat, m: nat, e: nat) {
    && i < j < m && m + 1 < e <= |s|
    && s[i] == '[' && AllSpace(s[i + 1..j]) && s[j] == '{'
    && s[m] == '}' && AllSpace(s[m + 1..e - 1]) && s[e - 1] == ']'
  }

  /** `s[i..e]` matches the pattern. */
  ghost predicate IsObjectArrayMatch(s: string, i: nat, e: nat) {
    exists j: nat, m: nat :: ObjectArrayShape(s, i, j, m, e)
  }

  /** A `}` at `m` that blanks and a `]` can follow. */
  predicate Closes(s: string, m: nat) {
    m < |s| && s[m] == '}' && SkipSpace(s, m + 1) < |s| && s[SkipSpace(s, m + 1)] == ']'
  }

  /** The lazy `.*?`: the first closing `}` at or after `k`. */
  function CloseFrom(s: string, k: nat): (r: Option<nat>)
    requires k <= |s|
    ensures r.Some? ==> k <= r.value && Closes(s, r.value)
    ensures forall m: nat :: k <= m && Closes(s, m) ==> r.Some? && r.value <= m
    decreases |s| - k
  {
    if k == |s| then None
    else if Closes(s, k) then Some(k)
    else CloseFrom(s, k + 1)
  }

  /** The end of the match that the regex engine finds when it starts at `i`. */
  function MatchAt(s: string, i: nat): Option<nat>
    requires i <= |s|
  {
    if i < |s| && s[i] == '[' then
      var j := SkipSpace(s, i + 1);
      if j < |s| && s[j] == '{' then
        match CloseFrom(s, j + 1)
        case None => None
        case Some(m) => Some(SkipSpace(s, m + 1) + 1)
      else None
    else None
  }

  /** What the engine finds at `i` really is a match. */
  lemma {:induction false} MatchAtSound(s: string, i: nat)
    requires i <= |s| && MatchAt(s, i).Some?
    ensures IsObjectArrayMatch(s, i, MatchAt(s, i).value)
  {
    var j := SkipSpace(s, i + 1);
    var m := CloseFrom(s, j + 1).value;
    assert ObjectArrayShape(s, i, j, m, MatchAt(s, i).value);
  }

  /** The blanks and `]` after the `}` of a match are what `Closes` skips over. */
  lemma {:induction false} ClosesAtShape(s: string, i: nat, j: nat, m: nat, e: nat)
    requires ObjectArrayShape(s, i, j, m, e)
    ensures Closes(s, m) && SkipSpace(s, m + 1) == e - 1
  {
    SkipSpaceExact(s, m + 1, e - 1);
  }

  /** A closing `}` no later than `m` ends the match no later than `m`'s does. */
  lemma {:induction false} EarlierCloseShorter(s: string, m0: nat, m: nat)
    requires m0 <= m && Closes(s, m0) && Closes(s, m)
    ensures SkipSpace(s, m0 + 1) <= SkipSpace(s, m + 1)
  {
    if m0 < m {
      SkipSpaceStopsAt(s, m0 + 1, m);
    }
  }

  /** Whenever some match starts at `i`, the engine finds one there, and no longer than it. */
  lemma {:induction false} MatchAtShortest(s: string, i: nat, e': nat)
    requires i <= |s| && IsObjectArrayMatch(s, i, e')
    ensures MatchAt(s, i).Some? && MatchAt(s, i).value <= e'
  {
    var j: nat, m: nat :| ObjectArrayShape(s, i, j, m, e');
    SkipSpaceExact(s, i + 1, j);
    ClosesAtShape(s, i, j, m, e');
    EarlierCloseShorter(s, CloseFrom(s, j + 1).value, m);
  }

  /** `re.search`: the first start position at which the engine finds a match. */
  function SearchFrom(s: string, k: nat): (r: Option<(nat, nat)>)
    requires k <= |s|
    ensures r.Some? ==> k <= r.value.0 < |s| && MatchAt(s, r.value.0) == Some(r.value.1)
    ensures r.Some? ==> forall i: nat :: k <= i < r.value.0 ==> MatchAt(s, i).None?
    ensures r.None? ==> forall i: nat :: k <= i <= |s| ==> MatchAt(s, i).None?
    decreases |s| - k
  {
    if k == |s| then None
    else match MatchAt(s, k)
      case Some(e) => Some((k, e))
      case None => SearchFrom(s, k + 1)
  }

  /** The match is the leftmost one, and the shortest of those that start there; with no result,
      the reply contains no match at all. */
  lemma {:induction false} SearchSpec(s: string)
    ensures var r := SearchFrom(s, 0);
      && (r.Some? ==> IsObjectArrayMatch(s, r.value.0, r.value.1))
      && (r.Some? ==> forall i: nat, e: nat :: IsObjectArrayMatch(s, i, e) ==> r.value.0 <= i)
      && (r.Some? ==> forall e: nat :: IsObjectArrayMatch(s, r.value.0, e) ==> r.value.1 <= e)
      && (r.None? ==> forall i: nat, e: nat :: !IsObjectArrayMatch(s, i, e))
  {
    var r := SearchFrom(s, 0);
    if r.Some? {
      MatchAtSound(s, r.value.0);
    }
    forall i: nat, e: nat | IsObjectArrayMatch(s, i, e)
      ensures r.Some? && r.value.0 <= i
      ensures r.Some? && i == r.value.0 ==> r.value.1 <= e
    {
      assert i < e <= |s|;
      MatchAtShortest(s, i, e);
    }
  }

  // ---------------------------------------------------------------------------------------------
  // Cleaning the matched text: newlines become spaces, plus signs go, and the ends are stripped.

  lemma {:induction false} RemoveCharAppend(s: string, t: string, c: char)
    ensures RemoveChar(s + t, c) == RemoveChar(s, c) + RemoveChar(t, c)
  {
    if s == [] {
      assert s + t == t;
    } else {
      assert (s + t)[0] == s[0] && (s + t)[1..] == s[1..] + t;
      RemoveCharAppend(s[1..], t, c);
    }
  }

  /** Removing a character keeps a first and last character that differ from it. */
  lemma {:induction false} RemoveCharEnds(s: string, c: char)
    requires |s| >= 2 && s[0] != c && s[|s| - 1] != c
    ensures var r := RemoveChar(s, c); |r| >= 2 && r[0] == s[0] && r[|r| - 1] == s[|s| - 1]
  {
    assert s == [s[0]] + s[1..|s| - 1] + [s[|s| - 1]];
    RemoveCharAppend([s[0]] + s[1..|s| - 1], [s[|s| - 1]], c);
    RemoveCharAppend([s[0]], s[1..|s| - 1], c);
    assert RemoveChar([s[0]], c) == [s[0]];
    assert RemoveChar([s[|s| - 1]], c) == [s[|s| - 1]];
  }

  /** The clean-up of the two vector builders. */
  function CleanArrayText(t: string): string {
    Strip(RemoveChar(ReplaceChar(t, '\n', ' '), '+'))
  }

  /** On a matched array the clean-up leaves no newline and no `+`, the final `strip` has nothing
      to remove, and the text still runs from `[` to `]`. */
  lemma {:induction false} CleanArrayTextSpec(t: string)
    requires |t| >= 2 && t[0] == '[' && t[|t| - 1] == ']'
    ensures var r := CleanArrayText(t);
      && '\n' !in r && '+' !in r
      && r == RemoveChar(ReplaceChar(t, '\n', ' '), '+')
      && |r| >= 2 && r[0] == '[' && r[|r| - 1] == ']'
  {
    var u := ReplaceChar(t, '\n', ' ');
    assert |u| == |t| && u[0] == '[' && u[|u| - 1] == ']';
    assert '\n' !in u by {
      forall k | 0 <= k < |u| ensures u[k] != '\n' {
        assert u[k] == (if t[k] == '\n' then ' ' else t[k]);
      }
    }
    var v := RemoveChar(u, '+');
    RemoveCharEnds(u, '+');
    assert '\n' !in v;
    assert !IsSpace(v[0]) && !IsSpace(v[|v| - 1]);
    StripNoop(v);
  }

  // ---------------------------------------------------------------------------------------------
  // Keeping the parsed elements that hold a string under each of the three triple keys.

  /** `k in t` in Python: key test on a dict, substring test on a str, element test on a list;
      on a number, a bool or `None` it raises `TypeError`. */
  function Membership(t: JsonValue, k: string): Result<bool> {
    match t
    case JObject(fields) => Ok(k in fields)
    case JString(s) => Ok(Contains(s, k))
    case JArray(items) => Ok(JString(k) in items)
    case _ => Err("argument is not iterable")
  }

  /** `t[k]` once `k in t` held: a dict lookup; a str or list indexed by a str raises `TypeError`. */
  function Index(t: JsonValue, k: string): Result<JsonValue> {
    match t
    case JObject(fields) => if k in fields then Ok(fields[k]) else Err("key error")
    case _ => Err("indices must be integers")
  }

  /** The per-key test: the key is present and its value is a string. */
  function KeyTest(t: JsonValue, k: string): Result<bool> {
    match Membership(t, k)
    case Err(e) => Err(e)
    case Ok(present) =>
      if !present then Ok(false)
      else match Index(t, k)
        case Err(e) => Err(e)
        case Ok(v) => Ok(v.JString?)
  }

  /** A dict whose subject, predicate and object are all strings. */
  predicate IsTripleObject(t: JsonValue) {
    HasStringField(t, "subject") && HasStringField(t, "predicate") && HasStringField(t, "object")
  }

  /** The element test: kept exactly for well-formed triple dicts; it raises for a str that contains
      "subject", a list holding "subject", and for numbers, booleans and null. */
  function ValidateElement(t: JsonValue): (r: Result<bool>)
    ensures r == Ok(true) <==> IsTripleObject(t)
    ensures r.Err? <==>
      || (t.JString? && Contains(t.s, "subject"))
      || (t.JArray? && JString("subject") in t.items)
      || t.JNumber? || t.JBool? || t.JNull?
  {
    // The three keys are checked in order, and the check stops at the first failure or raise.
    match KeyTest(t, "subject")
    case Err(e) => Err(e)
    case Ok(b1) =>
      if !b1 then Ok(false)
      else match KeyTest(t, "predicate")
        case Err(e) => Err(e)
        case Ok(b2) => if !b2 then Ok(false) else KeyTest(t, "object")
  }

  /** The comprehension; an element that raises makes the whole attempt fail. */
  function FilterValid(ts: seq<JsonValue>): (r: Result<seq<JsonValue>>)
    ensures r.Ok? <==> forall i :: 0 <= i < |ts| ==> ValidateElement(ts[i]).Ok?
    ensures r.Ok? ==> forall t :: t in r.value ==> IsTripleObject(t) && t in ts
    ensures r.Ok? ==> forall t :: t in ts && IsTripleObject(t) ==> t in r.value
    ensures r.Ok? ==> |r.value| <= |ts|
  {
    if ts == [] then Ok([])
    else match ValidateElement(ts[0])
      case Err(e) => Err(e)
      case Ok(keep) =>
        match FilterValid(ts[1..])
        case Err(e) =>
          assert !ValidateElement(ts[1..][|ts[1..]| - 1]).Ok? || exists i :: 0 <= i < |ts[1..]| && !ValidateElement(ts[1..][i]).Ok?;
          Err(e)
        case Ok(rest) =>
          assert forall t :: t in ts ==> t == ts[0] || t in ts[1..];
          Ok((if keep then [ts[0]] else []) + rest)
  }

  // ---------------------------------------------------------------------------------------------
  // One attempt and the retry loop of the vector builders

  /** `requests.post(...)` to the model with the prompt built from the text, producing the
      `response` field of the reply for that attempt; `None` when the request or its decoding
      raises. */
  type Generator = (string, string, nat) -> Option<string>

  /** The text the vector builders hand to `json.loads`, or the reason the attempt raised first. */
  function ArrayText(reply: Option<string>): Result<string> {
    if reply.None? then Err("request failed")
    else
      var raw := Strip(reply.value);
      if raw == [] then Err("Empty response from LLM")
      else match SearchFrom(raw, 0)
        case None => Err("No valid JSON array found in model output")
        case Some((i, e)) => Ok(CleanArrayText(raw[i..e]))
  }

  /** What is parsed is the cleaned leftmost-shortest match of the stripped reply: no newline, no
      `+`, from `[` to `]`. */
  lemma {:induction false} ArrayTextParsesFirstMatch(reply: Option<string>)
    requires ArrayText(reply).Ok?
    ensures var raw := Strip(reply.value);
      var m := SearchFrom(raw, 0).value;
      && IsObjectArrayMatch(raw, m.0, m.1)
      && (forall i: nat, e: nat :: IsObjectArrayMatch(raw, i, e) ==> m.0 < i || (m.0 == i && m.1 <= e))
      && ArrayText(reply).value == CleanArrayText(raw[m.0..m.1])
  {
    var raw := Strip(reply.value);
    SearchSpec(raw);
  }

  /** The parsed text holds no newline and no `+` and runs from `[` to `]`. */
  lemma {:induction false} ArrayTextClean(reply: Option<string>)
    requires ArrayText(reply).Ok?
    ensures var js := ArrayText(reply).value;
      '\n' !in js && '+' !in js && |js| >= 2 && js[0] == '[' && js[|js| - 1] == ']'
  {
    var raw := Strip(reply.value);
    var m := SearchFrom(raw, 0).value;
    assert ArrayText(reply).value == CleanArrayText(raw[m.0..m.1]);
    MatchAtSound(raw, m.0);
    SliceEnds(raw, m.0, m.1);
  }

  lemma {:induction false} SliceEnds(s: string, i: nat, e: nat)
    requires IsObjectArrayMatch(s, i, e)
    ensures var js := CleanArrayText(s[i..e]);
      '\n' !in js && '+' !in js && |js| >= 2 && js[0] == '[' && js[|js| - 1] == ']'
  {
    MatchEnds(s, i, e);
    var t := s[i..e];
    assert t[0] == s[i] && t[|t| - 1] == s[e - 1];
    CleanArrayTextSpec(t);
  }

  lemma {:induction false} MatchEnds(s: string, i: nat, e: nat)
    requires IsObjectArrayMatch(s, i, e)
    ensures i + 2 <= e <= |s| && s[i] == '[' && s[e - 1] == ']'
  {
  }

  /** A reply that is blank or holds no match fails the attempt before anything is parsed. */
  lemma {:induction false} ArrayTextFails(reply: Option<string>)
    requires reply.Some?
    ensures ArrayText(reply).Err? <==>
      Strip(reply.value) == [] || forall i: nat, e: nat :: !IsObjectArrayMatch(Strip(reply.value), i, e)
  {
    SearchSpec(Strip(reply.value));
  }

  /** One pass through the `try` block: `Ok` with the valid triples, or `Err` when it raised. */
  function Attempt(reply: Option<string>, parse: Parser): (r: Result<seq<JsonValue>>)
    ensures r.Ok? ==> forall t :: t in r.value ==> IsTripleObject(t)
  {
    match ArrayText(reply)
    case Err(e) => Err(e)
    case Ok(js) =>
      match parse(js)
      case None => Err("JSON decode error")
      case Some(v) => if v.JArray? then FilterValid(v.items) else Err("Parsed JSON is not a list")
  }

  /** The outcome of attempt number `a`. */
  type Outcomes = nat -> Result<seq<JsonValue>>

  datatype Extraction = Extraction(triples: seq<JsonValue>, sleeps: seq<real>, attempts: nat)

  /** Attempts `attempt..maxRetries`: the first success is returned; after a failure the loop
      sleeps `backoffSecs * attempt` unless it was the last attempt; `[]` once all fail. */
  function RetrySpec(run: Outcomes, attempt: nat, maxRetries: int, backoffSecs: real): Extraction
    decreases maxRetries - attempt
  {
    if attempt > maxRetries then Extraction([], [], 0)
    else match run(attempt)
      case Ok(ts) => Extraction(ts, [], 1)
      case Err(_) =>
        var rest := RetrySpec(run, attempt + 1, maxRetries, backoffSecs);
        Extraction(rest.triples, (if attempt < maxRetries then [backoffSecs * attempt as real] else []) + rest.sleeps,
                   rest.attempts + 1)
  }

  /** At most `maxRetries - first + 1` attempts, and one delay after each failed attempt except
      the last possible one, so always one delay fewer than attempts. */
  lemma {:induction false} RetryCounts(run: Outcomes, first: nat, maxRetries: int, backoffSecs: real)
    ensures var x := RetrySpec(run, first, maxRetries, backoffSecs);
      && x.attempts <= (if maxRetries >= first then maxRetries - first + 1 else 0)
      && |x.sleeps| == (if x.attempts == 0 then 0 else x.attempts - 1)
    decreases maxRetries - first
  {
    if first <= maxRetries && run(first).Err? {
      RetryCounts(run, first + 1, maxRetries, backoffSecs);
    }
  }

  /** The `k`-th delay is `backoffSecs * (first + k)`: linear in the attempt number. */
  lemma {:induction false} RetryDelaysLinear(run: Outcomes, first: nat, maxRetries: int, backoffSecs: real)
    ensures forall k :: 0 <= k < |RetrySpec(run, first, maxRetries, backoffSecs).sleeps| ==>
      RetrySpec(run, first, maxRetries, backoffSecs).sleeps[k] == backoffSecs * (first + k) as real
    decreases maxRetries - first
  {
    if first <= maxRetries && run(first).Err? {
      RetryDelaysLinear(run, first + 1, maxRetries, backoffSecs);
      var rest := RetrySpec(run, first + 1, maxRetries, backoffSecs);
      var x := RetrySpec(run, first, maxRetries, backoffSecs);
      if first < maxRetries {
        assert x.sleeps == [backoffSecs * first as real] + rest.sleeps;
        forall k | 0 < k < |x.sleeps|
          ensures x.sleeps[k] == backoffSecs * (first + k) as real
        {
          var j := k - 1;
          assert x.sleeps[k] == rest.sleeps[j];
          assert 0 <= j < |rest.sleeps|;
          assert rest.sleeps[j] == backoffSecs * ((first + 1) + j) as real;
        }
      } else {
        RetryCounts(run, first + 1, maxRetries, backoffSecs);
      }
    }
  }

  /** Every attempt before the last one made failed. */
  lemma {:induction false} RetryEarlierFailed(run: Outcomes, first: nat, maxRetries: int, backoffSecs: real)
    ensures var x := RetrySpec(run, first, maxRetries, backoffSecs);
      forall a: nat :: first <= a < first + x.attempts - 1 ==> run(a).Err?
    decreases maxRetries - first
  {
    if first <= maxRetries && run(first).Err? {
      RetryEarlierFailed(run, first + 1, maxRetries, backoffSecs);
    }
  }

  /** The result is the last attempt's triples when it succeeded, and `[]` when it failed, which
      happens only at attempt `maxRetries`, or when no attempt was made. */
  lemma {:induction false} RetryOutcome(run: Outcomes, first: nat, maxRetries: int, backoffSecs: real)
    ensures var x := RetrySpec(run, first, maxRetries, backoffSecs);
      && (x.attempts == 0 ==> x.triples == [])
      && (x.attempts > 0 ==>
            var o := run(first + x.attempts - 1);
            && (o.Ok? ==> x.triples == o.value)
            && (o.Err? ==> x.triples == [] && first + x.attempts - 1 == maxRetries))
    decreases maxRetries - first
  {
    if first <= maxRetries && run(first).Err? {
      RetryOutcome(run, first + 1, maxRetries, backoffSecs);
      var rest := RetrySpec(run, first + 1, maxRetries, backoffSecs);
      if rest.attempts > 0 {
        assert first + (rest.attempts + 1) - 1 == (first + 1) + rest.attempts - 1;
      }
    }
  }

  /** The outcomes of the vector builders' attempts on one text. */
  function VectorOutcomes(generate: Generator, parse: Parser, model: string, text: string): Outcomes {
    (a: nat) => Attempt(generate(model, text, a), parse)
  }

  /** A failed attempt: the rest of the run follows the delay slept after it, if any. */
  lemma {:induction false} RetryFailStep(run: Outcomes, attempt: nat, maxRetries: int, backoffSecs: real)
    returns (pause: seq<real>)
    requires attempt <= maxRetries && run(attempt).Err?
    ensures pause == if attempt < maxRetries then [backoffSecs * attempt as real] else []
    ensures var rest := RetrySpec(run, attempt + 1, maxRetries, backoffSecs);
      RetrySpec(run, attempt, maxRetries, backoffSecs) == Extraction(rest.triples, pause + rest.sleeps, rest.attempts + 1)
  {
    pause := if attempt < maxRetries then [backoffSecs * attempt as real] else [];
  }

  /** `extract_triples_with_llm` of the two vector builders. */
  method ExtractTriplesWithRetry(generate: Generator, parse: Parser, model: string, text: string,
                                 maxRetries: int, backoffSecs: real)
    returns (triples: seq<JsonValue>, ghost sleeps: seq<real>, ghost attempts: nat)
    ensures Extraction(triples, sleeps, attempts) == RetrySpec(VectorOutcomes(generate, parse, model, text), 1, maxRetries, backoffSecs)
    ensures forall t :: t in triples ==> IsTripleObject(t)
  {
    ghost var run := VectorOutcomes(generate, parse, model, text);
    sleeps := [];
    attempts := 0;
    var attempt := 1;
    while attempt <= maxRetries
      invariant 1 <= attempt && attempts == attempt - 1
      invariant var rest := RetrySpec(run, attempt, maxRetries, backoffSecs);
        RetrySpec(run, 1, maxRetries, backoffSecs) == Extraction(rest.triples, sleeps + rest.sleeps, attempts + rest.attempts)
      decreases maxRetries - attempt
    {
      var outcome := Attempt(generate(model, text, attempt), parse);
      assert run(attempt) == outcome;
      if outcome.Ok? {
        triples := outcome.value;
        attempts := attempts + 1;
        return;
      }
      ghost var pause := RetryFailStep(run, attempt, maxRetries, backoffSecs);
      ghost var rest := RetrySpec(run, attempt + 1, maxRetries, backoffSecs);
      assert sleeps + (pause + rest.sleeps) == (sleeps + pause) + rest.sleeps;
      sleeps := sleeps + pause;
      attempts := attempts + 1;
      attempt := attempt + 1;
    }
    triples := [];
  }

  // ---------------------------------------------------------------------------------------------
  // Counting the triples a builder's insert test lets through

  /** How many triples of the list pass a builder's insert test `ok`, counted from the left as the
      insert loops of both vector builders count them. */
  function CountWhere(ok: JsonValue -> bool, ts: seq<JsonValue>): (n: nat)
    ensures n <= |ts|
  {
    if ts == [] then 0 else CountWhere(ok, ts[..|ts| - 1]) + (if ok(ts[|ts| - 1]) then 1 else 0)
  }

  /** Nothing is counted exactly when no triple passes the test. */
  lemma {:induction false} CountWhereZero(ok: JsonValue -> bool, ts: seq<JsonValue>)
    ensures CountWhere(ok, ts) == 0 <==> forall k :: 0 <= k < |ts| ==> !ok(ts[k])
  {
    if ts != [] {
      var front := ts[..|ts| - 1];
      CountWhereZero(ok, front);
      assert forall k :: 0 <= k < |front| ==> front[k] == ts[k];
    }
  }

  lemma {:induction false} CountWhereStep(ok: JsonValue -> bool, ts: seq<JsonValue>, j: nat)
    requires j < |ts|
    ensures CountWhere(ok, ts[..j + 1]) == CountWhere(ok, ts[..j]) + if ok(ts[j]) then 1 else 0
  {
    assert ts[..j + 1][..j] == ts[..j];
  }

  lemma {:induction false} CountWherePrefix(ok: JsonValue -> bool, ts: seq<JsonValue>, k: nat)
    requires k <= |ts|
    ensures CountWhere(ok, ts[..k]) <= CountWhere(ok, ts)
    decreases |ts| - k
  {
    if k < |ts| {
      CountWherePrefix(ok, ts[..|ts| - 1], k);
      assert ts[..|ts| - 1][..k] == ts[..k];
    } else {
      assert ts[..k] == ts;
    }
  }
}
