/**
 * utils/retrieval.py: cross-encoder reranking (`rerank_results`) and the
 * multi-query retriever (`AdvancedRetriever.__call__`).
 *
 * The cross-encoder is a parameter returning one score per candidate, the
 * vector store a parameter returning ranked candidates, and the database
 * query plan is the reasoning model's answer, passed in.
 */
module Retrieval {
  import opened Documents
  import opened Schemas
  import opened Sequences

  /** A candidate and its cross-encoder score. */
  datatype Scored = Scored(doc: Document, score: real)

  /** `zip(docs, scores)`: pairs up to the shorter of the two. */
  function Zip(docs: seq<Document>, scores: seq<real>): (r: seq<Scored>)
    ensures |r| == if |docs| <= |scores| then |docs| else |scores|
    ensures forall i :: 0 <= i < |r| ==> r[i] == Scored(docs[i], scores[i])
  {
    if |docs| == 0 || |scores| == 0 then []
    else [Scored(docs[0], scores[0])] + Zip(docs[1..], scores[1..])
  }

  /** Scores never increase along the sequence. */
  predicate SortedDesc(s: seq<Scored>)
  {
    forall i, j :: 0 <= i < j < |s| ==> s[i].score >= s[j].score
  }

  /**
   * Places `x` after every element scoring strictly higher and before every
   * other one, so it precedes the equal-scored elements that followed it.
   */
  function InsertDesc(x: Scored, s: seq<Scored>): (r: seq<Scored>)
    requires SortedDesc(s)
    ensures SortedDesc(r)
    ensures multiset(r) == multiset(s) + multiset{x}
    ensures |r| == |s| + 1
    ensures r[0] == x || (|s| > 0 && r[0] == s[0])
  {
    if |s| == 0 || x.score >= s[0].score then [x] + s
    else
      var rest := InsertDesc(x, s[1..]);
      assert multiset(s) == multiset{s[0]} + multiset(s[1..]) by {
        assert s == [s[0]] + s[1..];
      }
      assert s[0].score >= rest[0].score;
      [s[0]] + rest
  }

  /** `sorted(results, key=score, reverse=True)`: a stable sort by descending score. */
  function SortDesc(s: seq<Scored>): (r: seq<Scored>)
    ensures SortedDesc(r)
    ensures multiset(r) == multiset(s)
    ensures |r| == |s|
  {
    if |s| == 0 then []
    else
      assert s == [s[0]] + s[1..];
      InsertDesc(s[0], SortDesc(s[1..]))
  }

  /** The elements of `s` with score `v`, in their order in `s`. */
  function WithScore(s: seq<Scored>, v: real): seq<Scored>
  {
    if |s| == 0 then []
    else (if s[0].score == v then [s[0]] else []) + WithScore(s[1..], v)
  }

  /** Inserting `x` puts it first among the elements with its score. */
  lemma {:induction false} InsertDescStable(x: Scored, s: seq<Scored>, v: real)
    requires SortedDesc(s)
    ensures WithScore(InsertDesc(x, s), v) == (if x.score == v then [x] else []) + WithScore(s, v)
  {
    var r := InsertDesc(x, s);
    var xs: seq<Scored> := if x.score == v then [x] else [];
    if |s| == 0 || x.score >= s[0].score {
      assert r == [x] + s;
      assert r[1..] == s;
      assert WithScore(r, v) == xs + WithScore(r[1..], v);
    } else {
      var rest := InsertDesc(x, s[1..]);
      assert r == [s[0]] + rest;
      assert r[1..] == rest;
      InsertDescStable(x, s[1..], v);
      if s[0].score == v {
        assert xs == [];
        assert WithScore(rest, v) == WithScore(s[1..], v);
        assert WithScore(r, v) == [s[0]] + WithScore(s[1..], v);
        assert WithScore(s, v) == [s[0]] + WithScore(s[1..], v);
      } else {
        assert WithScore(r, v) == [] + WithScore(rest, v);
        assert WithScore(s, v) == [] + WithScore(s[1..], v);
        assert WithScore(r, v) == xs + WithScore(s[1..], v);
      }
    }
  }

  /**
   * The sort is stable: for every score, the elements with that score keep
   * their input order.
   */
  lemma {:induction false} SortDescStable(s: seq<Scored>, v: real)
    ensures WithScore(SortDesc(s), v) == WithScore(s, v)
  {
    if |s| > 0 {
      SortDescStable(s[1..], v);
      InsertDescStable(s[0], SortDesc(s[1..]), v);
    }
  }

  /**
   * `rerank_results`: every candidate paired with its own score, each exactly
   * once, sorted by descending score with ties in store order.
   */
  function Rerank(docs: seq<Document>, scores: seq<real>): (r: seq<Scored>)
    requires |scores| == |docs|
    ensures |r| == |docs|
    ensures multiset(r) == multiset(Zip(docs, scores))
    ensures SortedDesc(r)
  {
    SortDesc(Zip(docs, scores))
  }

  /** The documents of a scored list, in order. */
  function DocsOf(s: seq<Scored>): (r: seq<Document>)
    ensures |r| == |s|
    ensures forall i :: 0 <= i < |s| ==> r[i] == s[i].doc
  {
    if |s| == 0 then [] else [s[0].doc] + DocsOf(s[1..])
  }

  /** The size of each sub-query's candidate pool. */
  const PoolSize: nat := 15

  /** The vector store's similarity search: candidates for a query, best first. */
  type Store = (string, nat) -> seq<Document>

  /** The cross-encoder: one score per candidate for a query. */
  type Scorer = (string, seq<Document>) -> seq<real>

  /** The reranked candidate pool of one sub-query. */
  function RankedPool(q: DBQuery, store: Store, scorer: Scorer): (r: seq<Scored>)
    ensures SortedDesc(r)
    ensures multiset(r) == multiset(Zip(store(q.query, PoolSize), scorer(q.query, store(q.query, PoolSize))))
  {
    var pool := store(q.query, PoolSize);
    SortDesc(Zip(pool, scorer(q.query, pool)))
  }

  /**
   * One sub-query's contribution: the top `nResults` documents of its
   * reranked pool, a prefix scoring at least as high as everything dropped.
   */
  function RetrieveOne(q: DBQuery, store: Store, scorer: Scorer): (r: seq<Document>)
    ensures |r| <= q.nResults
    ensures |r| <= |store(q.query, PoolSize)|
    ensures var ranked := RankedPool(q, store, scorer);
      && |r| == (if q.nResults <= |ranked| then q.nResults else |ranked|)
      && (forall i :: 0 <= i < |r| ==> r[i] == ranked[i].doc)
      && (forall i, j :: 0 <= i < |r| <= j < |ranked| ==> ranked[i].score >= ranked[j].score)
  {
    DocsOf(Take(RankedPool(q, store, scorer), q.nResults))
  }

  /**
   * `AdvancedRetriever.__call__`: each sub-query's top documents,
   * concatenated in sub-query order, with no deduplication across queries.
   */
  function Retrieve(plan: seq<DBQuery>, store: Store, scorer: Scorer): seq<Document>
  {
    FlatMap(plan, q => RetrieveOne(q, store, scorer))
  }

  /** Retrieval for two runs of sub-queries is the concatenation of the two retrievals. */
  lemma {:induction false} RetrieveConcat(p1: seq<DBQuery>, p2: seq<DBQuery>, store: Store, scorer: Scorer)
    ensures Retrieve(p1 + p2, store, scorer) == Retrieve(p1, store, scorer) + Retrieve(p2, store, scorer)
  {
    FlatMapConcat(p1, p2, q => RetrieveOne(q, store, scorer));
  }

  /** The sum over the plan of min(nResults, 15). */
  function Budget(plan: seq<DBQuery>): nat
  {
    if |plan| == 0 then 0
    else (if plan[0].nResults <= PoolSize then plan[0].nResults else PoolSize) + Budget(plan[1..])
  }

  /**
   * When the store returns at most `k` candidates, the retriever returns at
   * most the sum of min(nResults, 15) documents.
   */
  lemma {:induction false} RetrieveWithinBudget(plan: seq<DBQuery>, store: Store, scorer: Scorer)
    requires forall i :: 0 <= i < |plan| ==> |store(plan[i].query, PoolSize)| <= PoolSize
    ensures |Retrieve(plan, store, scorer)| <= Budget(plan)
  {
    if |plan| > 0 {
      RetrieveWithinBudget(plan[1..], store, scorer);
    }
  }
}
