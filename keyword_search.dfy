/** The two keyword steps of the retriever: `extract_keywords` (TF-IDF top-k, with the scores
    themselves left to an oracle) and the scoped Cypher query that looks the keywords up in the
    graph. */
module KeywordSearch {
  import opened Wrappers
  import opened PyText
  import opened GraphStore
  import opened Seqs

  /** A vocabulary term with its summed TF-IDF score. */
  datatype Term = Term(name: string, score: real)

  /** `TfidfVectorizer(stop_words="english", max_features=1000).fit_transform(texts)`, reduced to the
      feature names, in the vectorizer's order, with the column sums of the matrix. */
  type Tfidf = seq<string> -> seq<Term>

  /** The default `top_k`. */
  const DefaultTopK: nat := 5

  /** Neighbouring terms never rise in score. */
  predicate Ranked(ts: seq<Term>) {
    forall i :: 0 <= i < |ts| - 1 ==> ts[i].score >= ts[i + 1].score
  }

  /** Where `InsertByScore` puts `t`: the first position whose term scores less than `t`. */
  function InsertPos(t: Term, ts: seq<Term>): (k: nat)
    ensures k <= |ts|
    ensures forall i :: 0 <= i < k ==> ts[i].score >= t.score
    ensures k < |ts| ==> ts[k].score < t.score
  {
    if ts == [] || ts[0].score < t.score then 0 else 1 + InsertPos(t, ts[1..])
  }

  /** Insert `t` into a ranked list after every term scoring at least as much: the ordering a
      stable sort gives to a later element. */
  function InsertByScore(t: Term, ts: seq<Term>): (r: seq<Term>)
    ensures |r| == |ts| + 1
    ensures multiset(r) == multiset(ts) + multiset{t}
    ensures r[0] == t || (ts != [] && r[0] == ts[0])
    ensures Ranked(ts) ==> Ranked(r)
  {
    if ts == [] then [t]
    else if ts[0].score < t.score then [t] + ts
    else
      assert ts == [ts[0]] + ts[1..];
      [ts[0]] + InsertByScore(t, ts[1..])
  }

  /** The new term goes in at `InsertPos`: after every term scoring at least as much, before the
      first one scoring less, with the rest in their order. */
  lemma {:induction false} InsertByScoreAt(t: Term, ts: seq<Term>)
    ensures InsertByScore(t, ts) == ts[..InsertPos(t, ts)] + [t] + ts[InsertPos(t, ts)..]
  {
    if ts == [] {
    } else if ts[0].score < t.score {
      assert ts[..0] == [] && ts[0..] == ts;
    } else {
      var k := InsertPos(t, ts[1..]);
      InsertByScoreAt(t, ts[1..]);
      assert InsertByScore(t, ts) == [ts[0]] + InsertByScore(t, ts[1..]);
      assert InsertPos(t, ts) == k + 1;
      InsertAfterHead(ts, t, k);
    }
  }

  /** The terms of one score, in the order they appear. */
  function OfScore(ts: seq<Term>, v: real): (r: seq<Term>)
    ensures |r| <= |ts|
    ensures forall i :: 0 <= i < |r| ==> r[i].score == v
  {
    if ts == [] then []
    else if ts[0].score == v then [ts[0]] + OfScore(ts[1..], v)
    else OfScore(ts[1..], v)
  }

  lemma {:induction false} OfScoreAppend(s: seq<Term>, t: seq<Term>, v: real)
    ensures OfScore(s + t, v) == OfScore(s, v) + OfScore(t, v)
  {
    if s == [] {
      assert s + t == t;
    } else {
      assert (s + t)[0] == s[0] && (s + t)[1..] == s[1..] + t;
      OfScoreAppend(s[1..], t, v);
    }
  }

  /** No term of a ranked list below a term scoring less than `v` has score `v`. */
  lemma {:induction false} OfScoreBelow(ts: seq<Term>, v: real)
    requires Ranked(ts) && (ts != [] ==> ts[0].score < v)
    ensures OfScore(ts, v) == []
  {
    if ts != [] {
      if |ts| > 1 {
        assert ts[1..][0] == ts[1];
      }
      OfScoreBelow(ts[1..], v);
    }
  }

  /** A term put in front of a part holding nothing of its score joins the end of its score. */
  lemma {:induction false} OfScoreInsert(a: seq<Term>, t: Term, b: seq<Term>, v: real)
    requires t.score == v ==> OfScore(b, v) == []
    ensures OfScore(a + [t] + b, v) == OfScore(a + b, v) + OfScore([t], v)
  {
    OfScoreAppend(a, b, v);
    OfScoreAppend(a + [t], b, v);
    OfScoreAppend(a, [t], v);
    assert [t][1..] == [];
  }

  /** Inserting into a ranked list puts `t` after every term of its score. */
  lemma {:induction false} InsertByScoreStable(t: Term, ts: seq<Term>, v: real)
    requires Ranked(ts)
    ensures OfScore(InsertByScore(t, ts), v) == OfScore(ts, v) + OfScore([t], v)
  {
    var k := InsertPos(t, ts);
    InsertByScoreAt(t, ts);
    assert ts == ts[..k] + ts[k..];
    if t.score == v {
      RankedSuffix(ts, k);
      OfScoreBelow(ts[k..], v);
    }
    OfScoreInsert(ts[..k], t, ts[k..], v);
  }

  lemma {:induction false} RankedSuffix(ts: seq<Term>, k: nat)
    requires Ranked(ts) && k <= |ts|
    ensures Ranked(ts[k..])
  {
    forall i | 0 <= i < |ts[k..]| - 1 ensures ts[k..][i].score >= ts[k..][i + 1].score {
      assert ts[k..][i] == ts[k + i] && ts[k..][i + 1] == ts[k + i + 1];
    }
  }

  /** The terms ranked by score, highest first, as Python's stable `sorted(..., reverse=True)`. */
  function SortByScore(ts: seq<Term>): (r: seq<Term>)
    ensures |r| == |ts|
    ensures multiset(r) == multiset(ts)
    ensures Ranked(r)
  {
    if ts == [] then []
    else
      assert ts == ts[..|ts| - 1] + [ts[|ts| - 1]];
      InsertByScore(ts[|ts| - 1], SortByScore(ts[..|ts| - 1]))
  }

  /** The sort is stable: the terms of each score come out in the order they went in. */
  lemma {:induction false} SortByScoreStable(ts: seq<Term>, v: real)
    ensures OfScore(SortByScore(ts), v) == OfScore(ts, v)
  {
    if ts != [] {
      var init, last := ts[..|ts| - 1], ts[|ts| - 1];
      assert ts == init + [last];
      SortByScoreStable(init, v);
      InsertByScoreStable(last, SortByScore(init), v);
      OfScoreAppend(init, [last], v);
    }
  }

  /** A ranked list is ordered between any two positions, not only neighbouring ones. */
  lemma {:induction false} RankedPairwise(ts: seq<Term>, i: nat, j: nat)
    requires Ranked(ts) && i <= j < |ts|
    ensures ts[i].score >= ts[j].score
    decreases j - i
  {
    if i < j {
      RankedPairwise(ts, i + 1, j);
    }
  }

  /** The names of the ranked terms, lower-cased, in rank order. */
  function LowerNames(ts: seq<Term>): (r: seq<string>)
    ensures |r| == |ts| && forall i :: 0 <= i < |ts| ==> r[i] == Lower(ts[i].name)
  {
    if ts == [] then [] else [Lower(ts[0].name)] + LowerNames(ts[1..])
  }

  function Min(a: nat, b: nat): nat { if a <= b then a else b }

  /** The vocabulary `fit_transform` learns: none at all from no documents. */
  function Vocabulary(tfidf: Tfidf, texts: seq<string>): seq<Term> {
    if texts == [] then [] else tfidf(texts)
  }

  /** `extract_keywords(texts, top_k)` as written: `fit_transform` raises `ValueError` on an empty
      vocabulary, which includes every call with no texts. */
  function ExtractKeywordsAsWritten(tfidf: Tfidf, texts: seq<string>, topK: nat): Result<seq<string>> {
    var vocab := Vocabulary(tfidf, texts);
    if vocab == [] then Err("empty vocabulary")
    else
      var ranked := SortByScore(vocab);
      Ok(LowerNames(ranked[..Min(topK, |ranked|)]))
  }

  /** Cutting a stably sorted list keeps, of each score, the terms that came first. */
  lemma {:induction false} SortedPrefixTiesFirst(ts: seq<Term>, n: nat, v: real)
    requires n <= |ts|
    ensures OfScore(SortByScore(ts)[..n], v) <= OfScore(ts, v)
  {
    var ranked := SortByScore(ts);
    SortByScoreStable(ts, v);
    assert ranked == ranked[..n] + ranked[n..];
    OfScoreAppend(ranked[..n], ranked[n..], v);
  }

  /** The keywords are the `top_k` best-scoring terms, lower-cased, in order of non-increasing
      score; the ranking is a stable reordering of the vocabulary, so where several terms tie for
      the last places, the ones earliest in the vocabulary are kept. */
  lemma {:induction false} KeywordsTopK(tfidf: Tfidf, texts: seq<string>, topK: nat)
    requires ExtractKeywordsAsWritten(tfidf, texts, topK).Ok?
    ensures var vocab := Vocabulary(tfidf, texts);
      var ranked := SortByScore(vocab);
      var kw := ExtractKeywordsAsWritten(tfidf, texts, topK).value;
      && vocab != []
      && |kw| == Min(topK, |vocab|) && |kw| <= topK
      && multiset(ranked) == multiset(vocab)
      && (forall i, j :: 0 <= i <= j < |ranked| ==> ranked[i].score >= ranked[j].score)
      && (forall i :: 0 <= i < |kw| ==> kw[i] == Lower(ranked[i].name) && Lower(kw[i]) == kw[i])
      && (forall i :: 0 <= i < |kw| ==> forall t :: t in vocab && t !in ranked[..|kw|] ==> ranked[i].score >= t.score)
      && (forall v :: OfScore(ranked, v) == OfScore(vocab, v))
      && (forall v :: OfScore(ranked[..|kw|], v) <= OfScore(vocab, v))
  {
    var vocab := Vocabulary(tfidf, texts);
    var ranked := SortByScore(vocab);
    var kw := ExtractKeywordsAsWritten(tfidf, texts, topK).value;
    forall i, j | 0 <= i <= j < |ranked| ensures ranked[i].score >= ranked[j].score {
      RankedPairwise(ranked, i, j);
    }
    forall i | 0 <= i < |kw| ensures Lower(kw[i]) == kw[i] {
      LowerIdempotent(ranked[i].name);
    }
    forall i, t | 0 <= i < |kw| && t in vocab && t !in ranked[..|kw|] ensures ranked[i].score >= t.score {
      assert t in multiset(ranked);
      assert ranked[0..|kw|] == ranked[..|kw|];
      NotInSlice(ranked, t, 0, |kw|);
      var j :| 0 <= j < |ranked| && ranked[j] == t;
      RankedPairwise(ranked, i, j);
    }
    forall v ensures OfScore(ranked, v) == OfScore(vocab, v) && OfScore(ranked[..|kw|], v) <= OfScore(vocab, v) {
      SortByScoreStable(vocab, v);
      SortedPrefixTiesFirst(vocab, |kw|, v);
    }
  }

  /** A term of the list makes its score's part non-empty. */
  lemma {:induction false} OfScoreNonEmpty(ts: seq<Term>, i: nat)
    requires i < |ts|
    ensures OfScore(ts, ts[i].score) != []
  {
    if i > 0 && ts[0].score != ts[i].score {
      assert ts[1..][i - 1] == ts[i];
      OfScoreNonEmpty(ts[1..], i - 1);
    }
  }

  /** A ranked list begins with its highest score: every score that has terms is at most the
      first term's. */
  lemma {:induction false} RankedHeadMax(ts: seq<Term>, v: real)
    requires Ranked(ts) && OfScore(ts, v) != []
    ensures ts != [] && ts[0].score >= v
  {
    if ts[0].score != v {
      RankedSuffix(ts, 1);
      RankedHeadMax(ts[1..], v);
    }
  }

  /** Two ranked lists that list the terms of every score in the same order are equal. */
  lemma {:induction false} RankedByScoresEqual(a: seq<Term>, b: seq<Term>)
    requires Ranked(a) && Ranked(b)
    requires forall v :: OfScore(a, v) == OfScore(b, v)
    ensures a == b
    decreases |a|
  {
    if a == [] {
      if b != [] {
        assert false;
      }
    } else {
      OfScoreNonEmpty(a, 0);
      RankedHeadMax(b, a[0].score);
      OfScoreNonEmpty(b, 0);
      RankedHeadMax(a, b[0].score);
      var m := a[0].score;
      assert b[0].score == m;
      assert OfScore(a, m) == [a[0]] + OfScore(a[1..], m);
      assert OfScore(b, m) == [b[0]] + OfScore(b[1..], m);
      assert a[0] == OfScore(b, m)[0];
      forall v ensures OfScore(a[1..], v) == OfScore(b[1..], v) {
        if v == m {
          assert OfScore(a[1..], m) == OfScore(a, m)[1..];
          assert OfScore(b[1..], m) == OfScore(b, m)[1..];
        } else {
          assert OfScore(a[1..], v) == OfScore(a, v);
          assert OfScore(b[1..], v) == OfScore(b, v);
        }
      }
      RankedSuffix(a, 1);
      RankedSuffix(b, 1);
      RankedByScoresEqual(a[1..], b[1..]);
      assert a == [a[0]] + a[1..] && b == [b[0]] + b[1..];
    }
  }

  /** `SortByScore` is the only stable ranking: a ranked list that keeps the terms of each score
      in their input order is the sort's result. */
  lemma {:induction false} SortByScoreUnique(ts: seq<Term>, r: seq<Term>)
    requires Ranked(r)
    requires forall v :: OfScore(r, v) == OfScore(ts, v)
    ensures r == SortByScore(ts)
  {
    forall v ensures OfScore(r, v) == OfScore(SortByScore(ts), v) {
      SortByScoreStable(ts, v);
    }
    RankedByScoresEqual(r, SortByScore(ts));
  }

  /** The keyword step raises whenever no chunk was retrieved. */
  lemma {:induction false} NoTextsRaise(tfidf: Tfidf, topK: nat)
    ensures ExtractKeywordsAsWritten(tfidf, [], topK).Err?
  {
  }

  /** The keyword step with the evidently intended guard: no texts, no keywords. */
  function KeywordsFor(tfidf: Tfidf, texts: seq<string>, topK: nat): (r: Result<seq<string>>)
    ensures texts == [] ==> r == Ok([])
    ensures texts != [] ==> r == ExtractKeywordsAsWritten(tfidf, texts, topK)
  {
    if texts == [] then Ok([]) else ExtractKeywordsAsWritten(tfidf, texts, topK)
  }

  // ---------------------------------------------------------------------------------------------
  // The scoped keyword query

  /** `RETURN s.name AS Subject, r.type AS Predicate, o.name AS Object`. */
  datatype Row = Row(subject: string, pred: string, obj: string)

  function RowOf(rel: Relation): Row {
    Row(rel.subject, rel.rtype, rel.obj)
  }

  /** An edge of the scope matches a keyword when the lower-cased name of its subject or of its
      object contains the keyword. */
  predicate RowMatches(rel: Relation, scope: string, kw: string) {
    rel.scope == scope && (Contains(Lower(rel.subject), kw) || Contains(Lower(rel.obj), kw))
  }

  const RowLimit: nat := 25

  /** The row comes from an edge, in the scan, of the scope that matches the keyword. */
  predicate MatchedBy(row: Row, order: seq<Relation>, scope: string, kw: string) {
    exists rel :: rel in order && RowMatches(rel, scope, kw) && row == RowOf(rel)
  }

  /** The row comes from an edge of the scope that matches one of the keywords. */
  predicate MatchedSome(row: Row, order: seq<Relation>, scope: string, keywords: seq<string>) {
    exists k :: k in keywords && MatchedBy(row, order, scope, k)
  }

  /** The rows one keyword contributes, in the order the server scans the edges. */
  function KeywordRows(order: seq<Relation>, scope: string, kw: string): (r: seq<Row>)
    ensures |r| <= |order|
  {
    if order == [] then []
    else
      var rest := KeywordRows(order[1..], scope, kw);
      if RowMatches(order[0], scope, kw) then [RowOf(order[0])] + rest else rest
  }

  /** Exactly the matching edges contribute a row. */
  lemma {:induction false} KeywordRowsExact(order: seq<Relation>, scope: string, kw: string)
    ensures forall row :: row in KeywordRows(order, scope, kw) <==> MatchedBy(row, order, scope, kw)
  {
    if order != [] {
      KeywordRowsExact(order[1..], scope, kw);
      forall row | MatchedBy(row, order[1..], scope, kw) ensures MatchedBy(row, order, scope, kw) {
        var rel :| rel in order[1..] && RowMatches(rel, scope, kw) && row == RowOf(rel);
        assert rel in order;
      }
      forall row | MatchedBy(row, order, scope, kw) ensures row in KeywordRows(order, scope, kw) {
        var rel :| rel in order && RowMatches(rel, scope, kw) && row == RowOf(rel);
        if rel != order[0] {
          assert rel in order[1..];
        }
      }
    }
  }

  /** `UNWIND $keywords AS kw`: the rows of each keyword in turn, concatenated, so an edge matching
      two keywords is returned twice. */
  function UnwindRows(keywords: seq<string>, order: seq<Relation>, scope: string): seq<Row> {
    if keywords == [] then []
    else KeywordRows(order, scope, keywords[0]) + UnwindRows(keywords[1..], order, scope)
  }

  /** A row is returned exactly when some keyword matches some edge of the scope that yields it. */
  lemma {:induction false} UnwindRowsExact(keywords: seq<string>, order: seq<Relation>, scope: string)
    ensures forall row :: row in UnwindRows(keywords, order, scope) <==> MatchedSome(row, order, scope, keywords)
  {
    if keywords != [] {
      KeywordRowsExact(order, scope, keywords[0]);
      UnwindRowsExact(keywords[1..], order, scope);
      forall row | MatchedSome(row, order, scope, keywords[1..]) ensures MatchedSome(row, order, scope, keywords) {
        var k :| k in keywords[1..] && MatchedBy(row, order, scope, k);
        assert k in keywords;
      }
      forall row | MatchedSome(row, order, scope, keywords) ensures row in UnwindRows(keywords, order, scope) {
        var k :| k in keywords && MatchedBy(row, order, scope, k);
        if k != keywords[0] {
          assert k in keywords[1..];
        }
      }
    }
  }

  /** The whole query with `LIMIT 25`. */
  function KeywordQuery(keywords: seq<string>, order: seq<Relation>, scope: string): seq<Row> {
    var rows := UnwindRows(keywords, order, scope);
    rows[..Min(RowLimit, |rows|)]
  }

  /** At most 25 rows, each from an edge of the scope whose lower-cased subject or object contains
      one of the keywords; below the limit, every such edge is there. No keywords, no rows. */
  lemma {:induction false} KeywordQueryRows(keywords: seq<string>, order: seq<Relation>, scope: string)
    ensures var rows := KeywordQuery(keywords, order, scope);
      && |rows| <= RowLimit
      && (forall row :: row in rows ==> MatchedSome(row, order, scope, keywords))
      && (|rows| < RowLimit ==> forall row :: MatchedSome(row, order, scope, keywords) ==> row in rows)
      && (keywords == [] ==> rows == [])
  {
    var all := UnwindRows(keywords, order, scope);
    UnwindRowsExact(keywords, order, scope);
    forall row | row in KeywordQuery(keywords, order, scope) ensures row in all {
      var i :| 0 <= i < |KeywordQuery(keywords, order, scope)| && KeywordQuery(keywords, order, scope)[i] == row;
      assert all[i] == row;
    }
    if |all| < RowLimit {
      assert KeywordQuery(keywords, order, scope) == all;
    }
  }

  /** `UNWIND` repeats rows instead of taking a union: one edge matching two keywords comes back
      twice. */
  lemma {:induction false} UnwindRepeatsRows(rel: Relation, scope: string, k1: string, k2: string)
    requires RowMatches(rel, scope, k1) && RowMatches(rel, scope, k2)
    ensures UnwindRows([k1, k2], [rel], scope) == [RowOf(rel), RowOf(rel)]
  {
    assert [rel][1..] == [];
    assert KeywordRows([rel], scope, k1) == [RowOf(rel)];
    assert KeywordRows([rel], scope, k2) == [RowOf(rel)];
    assert [k1, k2][1..] == [k2];
    assert [k2][1..] == [];
    assert UnwindRows([k2], [rel], scope) == [RowOf(rel)];
  }
}
