/**
 * `KeywordDensityAnalyzer`: the bounded-retry embedding call and the
 * similarity of each keyword to the target keyword.
 *
 * The embedding service is `provider(n, text)`: the reply to the `n`-th
 * request of the run (counting from 0), asking for `text`; `None` stands
 * for a request that raised. The cosine arithmetic is the parameter `cosine`.
 */
module KeywordDensityAnalyzer {
  import opened Wrappers
  import opened PageData

  type Provider = (nat, string) -> Option<Embedding>

  const MaxRetries := 3

  datatype SimilarityError =
    | TargetEmbeddingFailed   // "Failed to get embedding for target keyword"
    | NoKeywordEmbedded       // "Failed to get embeddings for all keywords."

  /** An embedding request's outcome and the number of requests it took. */
  datatype Attempts = Attempts(embedding: Option<Embedding>, calls: nat)

  /**
   * Up to `left` requests for `text`, numbered from `from`: the first reply
   * that succeeds, and how many requests were made.
   */
  function Retry(provider: Provider, text: string, from: nat, left: nat): (r: Attempts)
    ensures r.calls <= left
    ensures r.embedding.Some? ==> 1 <= r.calls
    ensures r.embedding.None? ==> r.calls == left
    decreases left
  {
    if left == 0 then Attempts(None, 0)
    else if provider(from, text).Some? then Attempts(provider(from, text), 1)
    else
      var later := Retry(provider, text, from + 1, left - 1);
      Attempts(later.embedding, later.calls + 1)
  }

  /**
   * A success is the reply to the last request made, and every request
   * before it failed; when none succeeded, all `left` were made and failed.
   */
  lemma {:induction false} RetryTrace(provider: Provider, text: string, from: nat, left: nat)
    ensures var r := Retry(provider, text, from, left);
      && (r.embedding.Some? ==> r.embedding == provider(from + r.calls - 1, text))
      && (forall n: nat :: from <= n < from + r.calls - 1 ==> provider(n, text).None?)
      && (r.embedding.None? ==> forall n: nat :: from <= n < from + left ==> provider(n, text).None?)
    decreases left
  {
    if left > 0 && provider(from, text).None? {
      RetryTrace(provider, text, from + 1, left - 1);
    }
  }

  /** What `get_embedding(text)` yields when its first request is number `from`. */
  function Embed(provider: Provider, text: string, from: nat): (r: Attempts)
    ensures 1 <= r.calls <= MaxRetries
  {
    Retry(provider, text, from, MaxRetries)
  }

  /** Requests that fail only use up attempts. */
  lemma {:induction false} RetryAfterFailures(provider: Provider, text: string, from: nat, left: nat, k: nat)
    requires k <= left
    requires forall n: nat :: from <= n < from + k ==> provider(n, text).None?
    ensures var later := Retry(provider, text, from + k, left - k);
      Retry(provider, text, from, left) == Attempts(later.embedding, later.calls + k)
    decreases k
  {
    if k > 0 {
      assert provider(from, text).None?;
      RetryAfterFailures(provider, text, from + 1, left - 1, k - 1);
    }
  }

  /** `get_embedding`: at most three requests; the first success, or `None`. */
  method GetEmbedding(provider: Provider, text: string, from: nat) returns (embedding: Option<Embedding>, calls: nat)
    ensures Attempts(embedding, calls) == Embed(provider, text, from)
  {
    var attempt := 0;
    while attempt < MaxRetries
      invariant 0 <= attempt <= MaxRetries
      invariant forall n: nat :: from <= n < from + attempt ==> provider(n, text).None?
    {
      var response := provider(from + attempt, text);
      if response.Some? {
        RetryAfterFailures(provider, text, from, MaxRetries, attempt);
        return response, attempt + 1;
      }
      attempt := attempt + 1;
    }
    RetryAfterFailures(provider, text, from, MaxRetries, MaxRetries);
    embedding, calls := None, MaxRetries;
  }

  /** Each keyword costs between one and three requests. */
  lemma {:induction false} KeywordEmbeddingsCalls(provider: Provider, keywords: seq<string>, from: nat)
    ensures var r := KeywordEmbeddings(provider, keywords, from);
      |keywords| <= r.calls <= MaxRetries * |keywords|
  {
    if keywords != [] {
      var first := Embed(provider, keywords[0], from);
      KeywordEmbeddingsCalls(provider, keywords[1..], from + first.calls);
    }
  }

  /** The outcome of embedding each keyword, and the requests made for all of them. */
  datatype Batch = Batch(outcomes: seq<Option<Embedding>>, calls: nat)

  /** Each keyword embedded in turn, its requests following the previous keyword's. */
  function KeywordEmbeddings(provider: Provider, keywords: seq<string>, from: nat): (r: Batch)
    ensures |r.outcomes| == |keywords|
  {
    if keywords == [] then Batch([], 0)
    else
      var first := Embed(provider, keywords[0], from);
      var rest := KeywordEmbeddings(provider, keywords[1..], from + first.calls);
      Batch([first.embedding] + rest.outcomes, first.calls + rest.calls)
  }

  /** The embeddings that succeeded, in order. */
  function Successes(outcomes: seq<Option<Embedding>>): (embeddings: seq<Embedding>)
    ensures |embeddings| <= |outcomes|
  {
    if outcomes == [] then []
    else (if outcomes[0].Some? then [outcomes[0].value] else []) + Successes(outcomes[1..])
  }

  /** The cosine of the target against each embedding, in order (one row of `cosine_similarity`). */
  function Scores(cosine: (Embedding, Embedding) -> real, target: Embedding, embeddings: seq<Embedding>): (scores: seq<real>)
    ensures |scores| == |embeddings|
    ensures forall i :: 0 <= i < |embeddings| ==> scores[i] == cosine(target, embeddings[i])
  {
    seq(|embeddings|, i requires 0 <= i < |embeddings| => cosine(target, embeddings[i]))
  }

  /** What `calculate_similarity` yields or raises, and the requests it makes. */
  datatype Scoring = Scoring(result: Result<seq<real>, SimilarityError>, calls: nat)

  /** What `calculate_similarity(keywords, target)` yields or raises, and how many requests it makes. */
  function Similarity(provider: Provider, cosine: (Embedding, Embedding) -> real,
                      keywords: seq<string>, target: string, from: nat): (r: Scoring)
  {
    var t := Embed(provider, target, from);
    if t.embedding.None? then Scoring(Err(TargetEmbeddingFailed), t.calls)
    else
      var batch := KeywordEmbeddings(provider, keywords, from + t.calls);
      var embeddings := Successes(batch.outcomes);
      if embeddings == [] then Scoring(Err(NoKeywordEmbedded), t.calls + batch.calls)
      else Scoring(Ok(Scores(cosine, t.embedding.value, embeddings)), t.calls + batch.calls)
  }

  lemma {:induction false} SuccessesAppend(a: seq<Option<Embedding>>, b: seq<Option<Embedding>>)
    ensures Successes(a + b) == Successes(a) + Successes(b)
  {
    if a == [] {
      assert a + b == b;
    } else {
      var head := if a[0].Some? then [a[0].value] else [];
      assert (a + b)[0] == a[0];
      assert (a + b)[1..] == a[1..] + b;
      SuccessesAppend(a[1..], b);
      calc {
        Successes(a + b);
        head + Successes(a[1..] + b);
        head + (Successes(a[1..]) + Successes(b));
        (head + Successes(a[1..])) + Successes(b);
      }
    }
  }

  /** No embedding succeeded exactly when every outcome is a failure. */
  lemma {:induction false} SuccessesEmpty(outcomes: seq<Option<Embedding>>)
    ensures Successes(outcomes) == [] <==> forall i :: 0 <= i < |outcomes| ==> outcomes[i].None?
  {
    if outcomes != [] {
      SuccessesEmpty(outcomes[1..]);
      assert forall i :: 1 <= i < |outcomes| ==> outcomes[i] == outcomes[1..][i - 1];
    }
  }

  /**
   * A failed target raises before any keyword is requested. Otherwise the
   * call raises exactly when no keyword was embedded (an empty keyword list
   * included); on success there is one score per embedded keyword, in
   * keyword order, never more than keywords.
   */
  lemma SimilarityProperties(provider: Provider, cosine: (Embedding, Embedding) -> real,
                             keywords: seq<string>, target: string, from: nat,
                             t: Attempts, batch: Batch, s: Scoring)
    requires t == Embed(provider, target, from)
    requires batch == KeywordEmbeddings(provider, keywords, from + t.calls)
    requires s == Similarity(provider, cosine, keywords, target, from)
    ensures s.result == Err(TargetEmbeddingFailed) <==> t.embedding.None?
    ensures t.embedding.Some? ==>
      (s.result == Err(NoKeywordEmbedded) <==> forall i :: 0 <= i < |keywords| ==> batch.outcomes[i].None?)
    ensures s.result.Ok? ==> |s.result.value| == |Successes(batch.outcomes)| <= |keywords|
    ensures s.result.Ok? ==> forall i :: 0 <= i < |s.result.value| ==>
      s.result.value[i] == cosine(t.embedding.value, Successes(batch.outcomes)[i])
  {
    SimilarityOf(provider, cosine, keywords, target, from, t, Successes(batch.outcomes), batch.calls);
    SuccessesEmpty(batch.outcomes);
  }

  /**
   * A failed target costs only its own requests; otherwise every keyword is
   * requested, between one and three times each.
   */
  lemma SimilarityCalls(provider: Provider, cosine: (Embedding, Embedding) -> real,
                        keywords: seq<string>, target: string, from: nat,
                        t: Attempts, batch: Batch, s: Scoring)
    requires t == Embed(provider, target, from)
    requires batch == KeywordEmbeddings(provider, keywords, from + t.calls)
    requires s == Similarity(provider, cosine, keywords, target, from)
    ensures t.embedding.None? ==> s.calls == t.calls
    ensures t.embedding.Some? ==> s.calls == t.calls + batch.calls
    ensures t.embedding.Some? ==> 1 + |keywords| <= s.calls <= MaxRetries * (1 + |keywords|)
  {
    SimilarityOf(provider, cosine, keywords, target, from, t, Successes(batch.outcomes), batch.calls);
    CallsBound(provider, keywords, from + t.calls, t.calls, batch);
  }

  lemma CallsBound(provider: Provider, keywords: seq<string>, next: nat, targetCalls: nat, batch: Batch)
    requires 1 <= targetCalls <= MaxRetries
    requires batch == KeywordEmbeddings(provider, keywords, next)
    ensures 1 + |keywords| <= targetCalls + batch.calls <= MaxRetries * (1 + |keywords|)
  {
    KeywordEmbeddingsCalls(provider, keywords, next);
    assert MaxRetries * (1 + |keywords|) == MaxRetries + MaxRetries * |keywords|;
  }


  /**
   * One keyword of `KeywordEmbeddings`: its requests come first, and its
   * embedding, when it succeeded, leads the successes.
   */
  lemma EmbedKeywordsStep(provider: Provider, todo: seq<string>, next: nat, rest: Batch,
                          embedding: Option<Embedding>, used: nat)
    requires todo != []
    requires rest == KeywordEmbeddings(provider, todo, next)
    requires Attempts(embedding, used) == Embed(provider, todo[0], next)
    ensures var later := KeywordEmbeddings(provider, todo[1..], next + used);
      && rest.calls == used + later.calls
      && (embedding.Some? ==> Successes(rest.outcomes) == [embedding.value] + Successes(later.outcomes))
      && (embedding.None? ==> Successes(rest.outcomes) == Successes(later.outcomes))
  {
    var later := KeywordEmbeddings(provider, todo[1..], next + used);
    assert rest.outcomes == [embedding] + later.outcomes;
    assert rest.outcomes[1..] == later.outcomes;
  }

  /**
   * The loop's invariant: the embeddings gathered so far, followed by the
   * successes of the keywords still to do, are those of `all`.
   */
  ghost predicate EmbeddedSoFar(provider: Provider, all: Batch, todo: seq<string>, next: nat,
                                embeddings: seq<Embedding>, calls: nat)
  {
    var rest := KeywordEmbeddings(provider, todo, next);
    all.calls == calls + rest.calls && Successes(all.outcomes) == embeddings + Successes(rest.outcomes)
  }

  lemma EmbeddedSoFarStep(provider: Provider, all: Batch, todo: seq<string>, next: nat,
                          embeddings: seq<Embedding>, calls: nat, embedding: Option<Embedding>, used: nat)
    requires todo != []
    requires EmbeddedSoFar(provider, all, todo, next, embeddings, calls)
    requires Attempts(embedding, used) == Embed(provider, todo[0], next)
    ensures EmbeddedSoFar(provider, all, todo[1..], next + used,
                          if embedding.Some? then embeddings + [embedding.value] else embeddings, calls + used)
  {
    var rest := KeywordEmbeddings(provider, todo, next);
    EmbedKeywordsStep(provider, todo, next, rest, embedding, used);
    var later := Successes(KeywordEmbeddings(provider, todo[1..], next + used).outcomes);
    if embedding.Some? {
      assert embeddings + ([embedding.value] + later) == (embeddings + [embedding.value]) + later;
    }
  }

  /** The loop of `calculate_similarity`: each keyword in turn, failures skipped. */
  method EmbedKeywords(provider: Provider, keywords: seq<string>, from: nat)
    returns (embeddings: seq<Embedding>, calls: nat)
    ensures var batch := KeywordEmbeddings(provider, keywords, from);
      embeddings == Successes(batch.outcomes) && calls == batch.calls
  {
    ghost var all := KeywordEmbeddings(provider, keywords, from);
    embeddings := [];
    calls := 0;
    var next := from;
    var todo := keywords;
    while todo != []
      invariant next == from + calls
      invariant EmbeddedSoFar(provider, all, todo, next, embeddings, calls)
      decreases |todo|
    {
      var embedding, used := GetEmbedding(provider, todo[0], next);
      EmbeddedSoFarStep(provider, all, todo, next, embeddings, calls, embedding, used);
      embeddings := if embedding.Some? then embeddings + [embedding.value] else embeddings;
      calls := calls + used;
      next := next + used;
      todo := todo[1..];
    }
    assert embeddings + [] == embeddings;
  }

  /** When the first keyword fails and the second succeeds, the second's embedding leads the successes. */
  lemma SecondLeads(provider: Provider, keywords: seq<string>, next: nat, first: Attempts, second: Attempts)
    requires 2 <= |keywords|
    requires first == Embed(provider, keywords[0], next) && first.embedding.None?
    requires second == Embed(provider, keywords[1], next + first.calls) && second.embedding.Some?
    ensures var s := Successes(KeywordEmbeddings(provider, keywords, next).outcomes);
      s != [] && s[0] == second.embedding.value
  {
    var batch := KeywordEmbeddings(provider, keywords, next);
    var tail := KeywordEmbeddings(provider, keywords[1..], next + first.calls);
    var later := KeywordEmbeddings(provider, keywords[2..], next + first.calls + second.calls);
    assert keywords[1..][1..] == keywords[2..];
    assert batch.outcomes == [first.embedding] + tail.outcomes;
    assert batch.outcomes[1..] == tail.outcomes;
    assert tail.outcomes == [second.embedding] + later.outcomes;
    assert tail.outcomes[1..] == later.outcomes;
  }

  /** `Similarity` from the target's attempts and, when it succeeded, the keywords' successes and requests. */
  lemma SimilarityOf(provider: Provider, cosine: (Embedding, Embedding) -> real,
                     keywords: seq<string>, target: string, from: nat,
                     t: Attempts, embeddings: seq<Embedding>, calls: nat)
    requires t == Embed(provider, target, from)
    requires t.embedding.Some? ==>
      var batch := KeywordEmbeddings(provider, keywords, from + t.calls);
      embeddings == Successes(batch.outcomes) && calls == batch.calls
    ensures Similarity(provider, cosine, keywords, target, from) ==
      if t.embedding.None? then Scoring(Err(TargetEmbeddingFailed), t.calls)
      else if embeddings == [] then Scoring(Err(NoKeywordEmbedded), t.calls + calls)
      else Scoring(Ok(Scores(cosine, t.embedding.value, embeddings)), t.calls + calls)
  {
  }

  /** When the first keyword fails and the second succeeds, the first score is the second keyword's. */
  lemma FirstScoreIsSecondKeywords(provider: Provider, cosine: (Embedding, Embedding) -> real,
                                   keywords: seq<string>, target: string, from: nat,
                                   t: Attempts, first: Attempts, second: Attempts)
    requires 2 <= |keywords|
    requires t == Embed(provider, target, from) && t.embedding.Some?
    requires first == Embed(provider, keywords[0], from + t.calls) && first.embedding.None?
    requires second == Embed(provider, keywords[1], from + t.calls + first.calls) && second.embedding.Some?
    ensures var s := Similarity(provider, cosine, keywords, target, from);
      s.result.Ok? && s.result.value != [] && s.result.value[0] == cosine(t.embedding.value, second.embedding.value)
  {
    SecondLeads(provider, keywords, from + t.calls, first, second);
    var batch := KeywordEmbeddings(provider, keywords, from + t.calls);
    SimilarityOf(provider, cosine, keywords, target, from, t, Successes(batch.outcomes), batch.calls);
  }

  /** `calculate_similarity`: skips keywords whose embedding fails, raises when the target's or every keyword's fails. */
  method CalculateSimilarity(provider: Provider, cosine: (Embedding, Embedding) -> real,
                             keywords: seq<string>, target: string, from: nat)
    returns (result: Result<seq<real>, SimilarityError>, calls: nat)
    ensures Scoring(result, calls) == Similarity(provider, cosine, keywords, target, from)
  {
    var targetEmbedding, n := GetEmbedding(provider, target, from);
    if targetEmbedding.None? {
      SimilarityOf(provider, cosine, keywords, target, from, Attempts(targetEmbedding, n), [], 0);
      return Err(TargetEmbeddingFailed), n;
    }
    var embeddings, m := EmbedKeywords(provider, keywords, from + n);
    SimilarityOf(provider, cosine, keywords, target, from, Attempts(targetEmbedding, n), embeddings, m);
    if embeddings == [] {
      return Err(NoKeywordEmbedded), n + m;
    }
    result, calls := Ok(Scores(cosine, targetEmbedding.value, embeddings)), n + m;
  }
}
