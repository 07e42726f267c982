/** The embedding service: a Redis cache of embedding vectors in front of the embedding provider,
    single and batched generation, top-k selection over given similarity scores, and clearing a
    document's cache entries. The provider and SHA-256 are inputs; Redis is the `cache` field. */
module Embeddings {
  import opened Wrappers
  import opened Values
  import opened Text
  import opened Seqs

  /** A lower-case hexadecimal digit, the alphabet of `hexdigest()`. */
  predicate IsLowerHex(c: char) {
    ('0' <= c <= '9') || ('a' <= c <= 'f')
  }

  /** A SHA-256 hex digest: 64 lower-case hexadecimal digits. */
  type HexDigest = s: string | |s| == 64 && forall i :: 0 <= i < |s| ==> IsLowerHex(s[i])
    witness seq(64, _ => '0')

  /** The embedding provider's answer for one text (`AzureClient.generate_embedding`). */
  type Provider = string -> Result<Vector, string>

  /** SHA-256 of the UTF-8 encoding of a text, as a hex digest. */
  type Hasher = string -> HexDigest

  /** Texts per round of parallel provider requests (`self.batch_size`). */
  const BatchSize: nat := 5

  /** `_get_cache_key`: `emb:` followed by the hex digest of the text. */
  function CacheKey(sha256: Hasher, text: string): (key: string)
    ensures |key| == 68 && StartsWith(key, "emb:")
  {
    "emb:" + sha256(text)
  }

  /** Two texts share a cache key exactly when their digests are equal; equal texts always do. */
  lemma CacheKeyCollision(sha256: Hasher, a: string, b: string)
    ensures CacheKey(sha256, a) == CacheKey(sha256, b) <==> sha256(a) == sha256(b)
  {
    if CacheKey(sha256, a) == CacheKey(sha256, b) {
      assert CacheKey(sha256, a)[4..] == sha256(a);
      assert CacheKey(sha256, b)[4..] == sha256(b);
    }
  }

  /** The Redis pattern `emb:doc:<id>:*` of `clear_document_cache`, read as a prefix. */
  predicate MatchesDocumentPattern(key: string, documentId: string) {
    StartsWith(key, "emb:doc:" + documentId + ":")
  }

  /** No key this service writes matches a document pattern: its sixth character is a hex digit,
      where the pattern has `o`. */
  lemma CacheKeyNeverCleared(sha256: Hasher, text: string, documentId: string)
    ensures !MatchesDocumentPattern(CacheKey(sha256, text), documentId)
  {
    var key := CacheKey(sha256, text);
    var pattern := "emb:doc:" + documentId + ":";
    assert key[5] == sha256(text)[1] && IsLowerHex(key[5]);
    assert pattern[5] == 'o';
  }

  /** The cache after `clear_document_cache` deleted the keys matching the document's pattern. */
  function Cleared(cache: map<string, Vector>, documentId: string): map<string, Vector> {
    map k | k in cache && !MatchesDocumentPattern(k, documentId) :: cache[k]
  }

  /** Clearing a document's entries keeps every embedding this service cached, and removes only keys
      that match the pattern. */
  lemma ClearKeepsEmbeddings(cache: map<string, Vector>, documentId: string, sha256: Hasher, text: string)
    ensures CacheKey(sha256, text) in cache ==>
      CacheKey(sha256, text) in Cleared(cache, documentId) && Cleared(cache, documentId)[CacheKey(sha256, text)] == cache[CacheKey(sha256, text)]
    ensures forall k :: k in cache && k !in Cleared(cache, documentId) ==> MatchesDocumentPattern(k, documentId)
  {
    CacheKeyNeverCleared(sha256, text, documentId);
  }

  /** `_get_cached_embedding`: the stored vector, or None when the key is absent or Redis fails. */
  function Lookup(cache: map<string, Vector>, up: bool, key: string): Option<Vector> {
    if up && key in cache then Some(cache[key]) else None
  }

  /** The cached vector for a text, with a miss read as the empty vector (both are falsy). */
  function Cached(cache: map<string, Vector>, up: bool, sha256: Hasher, text: string): Vector {
    Lookup(cache, up, CacheKey(sha256, text)).GetOr([])
  }

  /** The cache serves a text: caching is requested and the cached value is a non-empty list. */
  predicate IsHit(cache: map<string, Vector>, up: bool, sha256: Hasher, useCache: bool, text: string) {
    useCache && Cached(cache, up, sha256, text) != []
  }

  /** For each text, whether the cache serves it. */
  function HitMask(cache: map<string, Vector>, up: bool, sha256: Hasher, useCache: bool, texts: seq<string>): seq<bool> {
    seq(|texts|, i requires 0 <= i < |texts| => IsHit(cache, up, sha256, useCache, texts[i]))
  }

  function CachedAll(cache: map<string, Vector>, up: bool, sha256: Hasher, texts: seq<string>): seq<Vector> {
    seq(|texts|, i requires 0 <= i < |texts| => Cached(cache, up, sha256, texts[i]))
  }

  lemma HitMaskSnoc(cache: map<string, Vector>, up: bool, sha256: Hasher, useCache: bool, texts: seq<string>)
    requires texts != []
    ensures var n := |texts| - 1;
      HitMask(cache, up, sha256, useCache, texts) ==
        HitMask(cache, up, sha256, useCache, texts[..n]) + [IsHit(cache, up, sha256, useCache, texts[n])]
  {
  }

  lemma CachedAllSnoc(cache: map<string, Vector>, up: bool, sha256: Hasher, texts: seq<string>)
    requires texts != []
    ensures var n := |texts| - 1;
      CachedAll(cache, up, sha256, texts) == CachedAll(cache, up, sha256, texts[..n]) + [Cached(cache, up, sha256, texts[n])]
  {
  }

  /** The cached vectors of the texts the cache serves, in text order. */
  function HitVectors(cache: map<string, Vector>, up: bool, sha256: Hasher, useCache: bool, texts: seq<string>): (r: seq<Vector>)
    ensures |r| <= |texts|
  {
    if texts == [] then []
    else
      var t := texts[|texts| - 1];
      HitVectors(cache, up, sha256, useCache, texts[..|texts| - 1]) + (if IsHit(cache, up, sha256, useCache, t) then [Cached(cache, up, sha256, t)] else [])
  }

  /** The texts the cache does not serve, in text order. */
  function MissTexts(cache: map<string, Vector>, up: bool, sha256: Hasher, useCache: bool, texts: seq<string>): (r: seq<string>)
    ensures |r| <= |texts|
  {
    if texts == [] then []
    else
      var t := texts[|texts| - 1];
      MissTexts(cache, up, sha256, useCache, texts[..|texts| - 1]) + (if IsHit(cache, up, sha256, useCache, t) then [] else [t])
  }

  /** The hits are the cached vectors the hit mask selects. */
  lemma {:induction false} HitVectorsSelect(cache: map<string, Vector>, up: bool, sha256: Hasher, useCache: bool, texts: seq<string>)
    ensures HitVectors(cache, up, sha256, useCache, texts) ==
      Select(CachedAll(cache, up, sha256, texts), HitMask(cache, up, sha256, useCache, texts), true)
  {
    if texts != [] {
      var n := |texts| - 1;
      HitVectorsSelect(cache, up, sha256, useCache, texts[..n]);
      HitMaskSnoc(cache, up, sha256, useCache, texts);
      CachedAllSnoc(cache, up, sha256, texts);
      SelectAppend(CachedAll(cache, up, sha256, texts[..n]), Cached(cache, up, sha256, texts[n]),
                   HitMask(cache, up, sha256, useCache, texts[..n]), IsHit(cache, up, sha256, useCache, texts[n]), true);
    }
  }

  /** The misses are the texts the hit mask leaves out. */
  lemma {:induction false} MissTextsSelect(cache: map<string, Vector>, up: bool, sha256: Hasher, useCache: bool, texts: seq<string>)
    ensures MissTexts(cache, up, sha256, useCache, texts) == Select(texts, HitMask(cache, up, sha256, useCache, texts), false)
  {
    if texts != [] {
      var n := |texts| - 1;
      MissTextsSelect(cache, up, sha256, useCache, texts[..n]);
      HitMaskSnoc(cache, up, sha256, useCache, texts);
      SelectAppend(texts[..n], texts[n], HitMask(cache, up, sha256, useCache, texts[..n]),
                   IsHit(cache, up, sha256, useCache, texts[n]), false);
      assert texts[..n] + [texts[n]] == texts;
    }
  }

  /** With caching off every text is a miss. */
  lemma {:induction false} NoCacheAllMiss(cache: map<string, Vector>, up: bool, sha256: Hasher, texts: seq<string>)
    ensures HitVectors(cache, up, sha256, false, texts) == []
    ensures MissTexts(cache, up, sha256, false, texts) == texts
  {
    if texts != [] {
      NoCacheAllMiss(cache, up, sha256, texts[..|texts| - 1]);
      assert texts[..|texts| - 1] + [texts[|texts| - 1]] == texts;
    }
  }

  /** The provider's vector for a text (empty when it fails). */
  function Embedded(provider: Provider, text: string): Vector {
    match provider(text)
    case Success(v) => v
    case Failure(_) => []
  }

  function EmbeddedAll(provider: Provider, texts: seq<string>): seq<Vector> {
    seq(|texts|, i requires 0 <= i < |texts| => Embedded(provider, texts[i]))
  }

  lemma EmbeddedAllSnoc(provider: Provider, texts: seq<string>)
    requires texts != []
    ensures var n := |texts| - 1;
      EmbeddedAll(provider, texts) == EmbeddedAll(provider, texts[..n]) + [Embedded(provider, texts[n])]
  {
  }

  /** The provider succeeds on every text. */
  predicate AllEmbedded(provider: Provider, texts: seq<string>) {
    forall i :: 0 <= i < |texts| ==> provider(texts[i]).Success?
  }

  /** Asking the provider about two runs of texts is asking it about their concatenation. */
  lemma EmbeddedAllAppend(provider: Provider, a: seq<string>, b: seq<string>)
    ensures EmbeddedAll(provider, a + b) == EmbeddedAll(provider, a) + EmbeddedAll(provider, b)
    ensures AllEmbedded(provider, a + b) <==> AllEmbedded(provider, a) && AllEmbedded(provider, b)
  {
    if AllEmbedded(provider, a) && AllEmbedded(provider, b) {
      forall i | 0 <= i < |a + b|
        ensures provider((a + b)[i]).Success?
      {
        if i >= |a| {
          assert (a + b)[i] == b[i - |a|];
        }
      }
    }
    if AllEmbedded(provider, a + b) {
      forall i | 0 <= i < |a|
        ensures provider(a[i]).Success?
      {
        assert (a + b)[i] == a[i];
      }
      forall i | 0 <= i < |b|
        ensures provider(b[i]).Success?
      {
        assert (a + b)[|a| + i] == b[i];
      }
    }
  }

  /** The cache after `_cache_embedding` wrote each text's vector under its key, in order. */
  function Store(cache: map<string, Vector>, sha256: Hasher, texts: seq<string>, vectors: seq<Vector>): map<string, Vector>
    requires |texts| == |vectors|
  {
    if texts == [] then cache
    else Store(cache, sha256, texts[..|texts| - 1], vectors[..|texts| - 1])[CacheKey(sha256, texts[|texts| - 1]) := vectors[|texts| - 1]]
  }

  /** Writing two runs of texts one after the other is writing their concatenation. */
  lemma {:induction false} StoreAppend(cache: map<string, Vector>, sha256: Hasher, a: seq<string>, va: seq<Vector>,
                                       b: seq<string>, vb: seq<Vector>)
    requires |a| == |va| && |b| == |vb|
    ensures Store(Store(cache, sha256, a, va), sha256, b, vb) == Store(cache, sha256, a + b, va + vb)
  {
    if b != [] {
      var n := |b| - 1;
      StoreAppend(cache, sha256, a, va, b[..n], vb[..n]);
      assert (a + b)[..|a + b| - 1] == a + b[..n];
      assert (va + vb)[..|a + b| - 1] == va + vb[..n];
    } else {
      assert a + b == a && va + vb == va;
    }
  }

  /** After storing non-empty vectors, every stored text is a hit, and every earlier hit stays one. */
  lemma {:induction false} StoreHits(cache: map<string, Vector>, sha256: Hasher, texts: seq<string>, vectors: seq<Vector>)
    requires |texts| == |vectors|
    requires forall j :: 0 <= j < |vectors| ==> vectors[j] != []
    ensures forall t :: t in texts ==> Cached(Store(cache, sha256, texts, vectors), true, sha256, t) != []
    ensures forall t :: Cached(cache, true, sha256, t) != [] ==> Cached(Store(cache, sha256, texts, vectors), true, sha256, t) != []
  {
    if texts != [] {
      var n := |texts| - 1;
      StoreHits(cache, sha256, texts[..n], vectors[..n]);
      var before := Store(cache, sha256, texts[..n], vectors[..n]);
      var after := Store(cache, sha256, texts, vectors);
      assert after == before[CacheKey(sha256, texts[n]) := vectors[n]];
      forall t | Cached(before, true, sha256, t) != [] || t == texts[n]
        ensures Cached(after, true, sha256, t) != []
      {
        if CacheKey(sha256, t) == CacheKey(sha256, texts[n]) {
          assert after[CacheKey(sha256, t)] == vectors[n];
        } else {
          assert Cached(after, true, sha256, t) == Cached(before, true, sha256, t);
        }
      }
      forall t | t in texts
        ensures Cached(after, true, sha256, t) != []
      {
        if t != texts[n] {
          var j :| 0 <= j < |texts| && texts[j] == t;
          assert t in texts[..n] by {
            assert texts[..n][j] == t;
          }
        }
      }
    }
  }

  /** Selecting the failures' complement commutes with asking the provider. */
  lemma {:induction false} SelectEmbedded(provider: Provider, texts: seq<string>, mask: seq<bool>, want: bool)
    requires |texts| == |mask|
    ensures Select(EmbeddedAll(provider, texts), mask, want) == EmbeddedAll(provider, Select(texts, mask, want))
  {
    if texts != [] {
      var n := |texts| - 1;
      SelectEmbedded(provider, texts[..n], mask[..n], want);
      EmbeddedAllSnoc(provider, texts);
      SelectAppend(EmbeddedAll(provider, texts[..n]), Embedded(provider, texts[n]), mask[..n], mask[n], want);
      assert mask[..n] + [mask[n]] == mask;
      var sel := Select(texts[..n], mask[..n], want);
      SelectAppend(texts[..n], texts[n], mask[..n], mask[n], want);
      assert texts[..n] + [texts[n]] == texts;
      if mask[n] == want {
        EmbeddedAllSnoc(provider, sel + [texts[n]]);
        assert (sel + [texts[n]])[..|sel|] == sel;
      }
    }
  }

  /** Merging the selected hits with the provider's vectors for the misses gives, at every position,
      the hit's value where the mask is set and the provider's vector for that text where it is not. */
  lemma MergedBatch(provider: Provider, texts: seq<string>, mask: seq<bool>, values: seq<Vector>)
    requires |texts| == |mask| && |values| == |mask|
    ensures Merge(mask, Select(values, mask, true), EmbeddedAll(provider, Select(texts, mask, false))) ==
      Choose(mask, values, EmbeddedAll(provider, texts))
  {
    SelectEmbedded(provider, texts, mask, false);
    MergeSelect(mask, values, EmbeddedAll(provider, texts));
  }

  /** A text of `xs[lo..hi]` that fails is a text of `xs` that fails, so not all of `xs` embeds. */
  lemma FailureInSlice(provider: Provider, xs: seq<string>, lo: nat, hi: nat, e: string)
    requires lo <= hi <= |xs|
    requires exists j :: 0 <= j < hi - lo && provider(xs[lo..hi][j]) == Failure(e)
    ensures exists k :: lo <= k < hi && provider(xs[k]) == Failure(e)
    ensures !AllEmbedded(provider, xs)
  {
    var j :| 0 <= j < hi - lo && provider(xs[lo..hi][j]) == Failure(e);
    assert provider(xs[lo + j]) == Failure(e);
  }

  /** The provider succeeds on every miss exactly when it succeeds on every text the mask leaves out. */
  lemma MissesEmbedded(provider: Provider, texts: seq<string>, mask: seq<bool>)
    requires |texts| == |mask|
    ensures AllEmbedded(provider, Select(texts, mask, false)) <==>
      forall i :: 0 <= i < |texts| && !mask[i] ==> provider(texts[i]).Success?
  {
    var misses := Select(texts, mask, false);
    if AllEmbedded(provider, misses) {
      forall i | 0 <= i < |texts| && !mask[i]
        ensures provider(texts[i]).Success?
      {
        SelectAt(texts, mask, false, i);
      }
    } else {
      var j :| 0 <= j < |misses| && provider(misses[j]).Failure?;
      SelectMember(texts, mask, false, j);
    }
  }

  /** After a batch whose provider vectors are all non-empty, repeating it with a working cache is
      served entirely from the cache. */
  lemma RepeatBatchHitsCache(cache: map<string, Vector>, sha256: Hasher, provider: Provider, texts: seq<string>)
    requires forall t :: t in texts ==> Embedded(provider, t) != []
    ensures var mask := HitMask(cache, true, sha256, true, texts);
      var misses := Select(texts, mask, false);
      var warm := Store(cache, sha256, misses, EmbeddedAll(provider, misses));
      forall i :: 0 <= i < |texts| ==> HitMask(warm, true, sha256, true, texts)[i]
  {
    var mask := HitMask(cache, true, sha256, true, texts);
    var misses := Select(texts, mask, false);
    var vectors := EmbeddedAll(provider, misses);
    forall j | 0 <= j < |misses|
      ensures vectors[j] != []
    {
      SelectMember(texts, mask, false, j);
    }
    StoreHits(cache, sha256, misses, vectors);
    forall i | 0 <= i < |texts| && !mask[i]
      ensures texts[i] in misses
    {
      SelectAt(texts, mask, false, i);
    }
  }

  /** Python's `a[-k:]`: the last k elements for k > 0, all of them for k == 0 (`-0` is 0), and all
      but the first -k for k < 0; out-of-range bounds are clamped. */
  function TakeLast<T>(a: seq<T>, k: int): (r: seq<T>)
    ensures |r| <= |a| && r == a[|a| - |r|..]
  {
    var start := if k > 0 then (if k < |a| then |a| - k else 0)
                 else if k == 0 then 0
                 else (if -k < |a| then -k else |a|);
    a[start..]
  }

  function Reverse<T>(a: seq<T>): seq<T> {
    seq(|a|, i requires 0 <= i < |a| => a[|a| - 1 - i])
  }

  /** One entry of `find_most_similar`'s answer. */
  datatype Similar = Similar(index: nat, similarity: real)

  /** `order` lists every index of `scores` exactly once, by ascending score, as `np.argsort` does. */
  predicate Ascending(scores: seq<real>, order: seq<nat>) {
    && |order| == |scores|
    && (forall i :: 0 <= i < |order| ==> order[i] < |scores|)
    && (forall i, j :: 0 <= i < j < |order| ==> order[i] != order[j])
    && (forall i, j :: 0 <= i < j < |order| ==> scores[order[i]] <= scores[order[j]])
  }

  /** The elements of a sequence, as a set. */
  function Elements(s: seq<nat>): (e: set<nat>)
    ensures forall x :: x in e <==> x in s
  {
    set x | x in s
  }

  /** The elements of a sequence without repetitions are as many as its length. */
  lemma {:induction false} DistinctElements(s: seq<nat>)
    requires forall i, j :: 0 <= i < j < |s| ==> s[i] != s[j]
    ensures |Elements(s)| == |s|
  {
    if s != [] {
      var init, last := s[..|s| - 1], s[|s| - 1];
      assert s == init + [last];
      DistinctElements(init);
      assert Elements(s) == Elements(init) + {last};
      forall i | 0 <= i < |init|
        ensures init[i] != last
      {
        assert init[i] == s[i];
      }
      assert last !in Elements(init);
    }
  }

  /** A subset has at most as many elements as its superset. */
  lemma SubsetCard<T>(a: set<T>, b: set<T>)
    requires a <= b
    ensures |a| <= |b|
  {
    assert b == a + (b - a);
  }

  /** A sequence of `n` distinct naturals below `n` holds every natural below `n`. */
  lemma PermutationCovers(order: seq<nat>, x: nat)
    requires forall i :: 0 <= i < |order| ==> order[i] < |order|
    requires forall i, j :: 0 <= i < j < |order| ==> order[i] != order[j]
    requires x < |order|
    ensures x in order
  {
    var indices: seq<nat> := seq(|order|, i => i);
    DistinctElements(order);
    DistinctElements(indices);
    var others := Elements(indices) - {x};
    assert indices[x] == x && x in indices;
    assert x in Elements(indices);
    assert |others| == |order| - 1;
    if x !in order {
      forall y | y in order
        ensures y in others
      {
        var i :| 0 <= i < |order| && order[i] == y;
        assert indices[y] == y;
      }
      SubsetCard(Elements(order), others);
      assert false;
    }
  }

  /** `find_most_similar` over given scores: the last `topK` entries of the ascending order, reversed. */
  function FindMostSimilar(scores: seq<real>, order: seq<nat>, topK: int): (r: seq<Similar>)
    requires forall i :: 0 <= i < |order| ==> order[i] < |scores|
    ensures |r| <= |order|
    ensures forall j :: 0 <= j < |r| ==> r[j].index < |scores| && r[j].similarity == scores[r[j].index]
  {
    var top := Reverse(TakeLast(order, topK));
    seq(|top|, j requires 0 <= j < |top| => Similar(top[j], scores[top[j]]))
  }

  /** `top_k >= 1` gives `min(top_k, n)` entries, and `top_k == 0` gives all of them. */
  lemma TopKCount(scores: seq<real>, order: seq<nat>, topK: int)
    requires |order| == |scores| && forall i :: 0 <= i < |order| ==> order[i] < |scores|
    ensures topK >= 1 ==> |FindMostSimilar(scores, order, topK)| == if topK < |scores| then topK else |scores|
    ensures topK == 0 ==> |FindMostSimilar(scores, order, topK)| == |scores|
  {
  }

  /** The answer's j-th entry is the j-th index from the end of `order`. */
  lemma TopKIndices(scores: seq<real>, order: seq<nat>, topK: int)
    requires forall i :: 0 <= i < |order| ==> order[i] < |scores|
    ensures var r := FindMostSimilar(scores, order, topK);
      forall j :: 0 <= j < |r| ==> r[j].index == order[|order| - 1 - j]
  {
    var r := FindMostSimilar(scores, order, topK);
    var last := TakeLast(order, topK);
    var start := |order| - |last|;
    forall j | 0 <= j < |r|
      ensures r[j].index == order[|order| - 1 - j]
    {
      assert last[|last| - 1 - j] == order[start + |last| - 1 - j];
    }
  }

  /** The answer is ordered by descending similarity. */
  lemma TopKDescending(scores: seq<real>, order: seq<nat>, topK: int)
    requires Ascending(scores, order)
    ensures var r := FindMostSimilar(scores, order, topK);
      forall i, j :: 0 <= i < j < |r| ==> r[i].similarity >= r[j].similarity
  {
    TopKIndices(scores, order, topK);
  }

  /** The answer is the highest-ranked end of the ascending order, reversed, so every index of `scores`
      left out of it scores at most every similarity in it. */
  lemma TopKBest(scores: seq<real>, order: seq<nat>, topK: int)
    requires Ascending(scores, order)
    ensures var r := FindMostSimilar(scores, order, topK);
      && (forall j :: 0 <= j < |r| ==> r[j].index == order[|order| - 1 - j])
      && (forall x :: 0 <= x < |scores| && (forall j :: 0 <= j < |r| ==> r[j].index != x) ==>
            forall j :: 0 <= j < |r| ==> scores[x] <= r[j].similarity)
  {
    var r := FindMostSimilar(scores, order, topK);
    TopKIndices(scores, order, topK);
    forall x | 0 <= x < |scores| && (forall j :: 0 <= j < |r| ==> r[j].index != x)
      ensures forall j :: 0 <= j < |r| ==> scores[x] <= r[j].similarity
    {
      PermutationCovers(order, x);
      var p :| 0 <= p < |order| && order[p] == x;
      forall q | |order| - |r| <= q < |order|
        ensures order[q] != x
      {
        assert r[|order| - 1 - q].index == order[q];
      }
      forall j | 0 <= j < |r|
        ensures scores[x] <= r[j].similarity
      {
        assert scores[order[p]] <= scores[order[|order| - 1 - j]];
      }
    }
  }

  /** Asks the provider for every text of one round; the first failure in the round is the error. */
  method EmbedSlice(provider: Provider, slice: seq<string>) returns (r: Result<seq<Vector>, string>)
    ensures r.Success? <==> AllEmbedded(provider, slice)
    ensures r.Success? ==> r.value == EmbeddedAll(provider, slice)
    ensures r.Failure? ==> exists j :: 0 <= j < |slice| && provider(slice[j]) == Failure(r.error)
  {
    var vectors: seq<Vector> := [];
    for k := 0 to |slice|
      invariant AllEmbedded(provider, slice[..k])
      invariant vectors == EmbeddedAll(provider, slice[..k])
    {
      var e := provider(slice[k]);
      if e.Failure? {
        return Failure(e.error);
      }
      assert slice[..k + 1] == slice[..k] + [slice[k]];
      vectors := vectors + [e.value];
    }
    assert slice[..|slice|] == slice;
    r := Success(vectors);
  }

  /** `final_embeddings`: hits and newly computed vectors put back in text order, walking the texts and
      taking the next hit where the position is in `cached` and the next computed vector otherwise. */
  method MergeInOrder(n: nat, cached: set<nat>, results: seq<Vector>, computed: seq<Vector>) returns (out: seq<Vector>)
    requires |results| == Count(Marks(n, cached), true) && |computed| == Count(Marks(n, cached), false)
    ensures out == Merge(Marks(n, cached), results, computed)
  {
    ghost var mask := Marks(n, cached);
    ghost var merged := Merge(mask, results, computed);
    var final := new Vector[n](_ => []);
    var embeddingIdx := 0;
    var pending := computed;
    ghost var used := 0;
    for i := 0 to n
      invariant embeddingIdx == Count(mask[..i], true) && used == Count(mask[..i], false)
      invariant embeddingIdx <= |results| && used <= |computed|
      invariant pending == computed[used..]
      invariant final[..i] == merged[..i]
    {
      MergeStep(mask, results, computed, i);
      assert mask[i] == (i in cached);
      if i in cached {
        final[i] := results[embeddingIdx];
        embeddingIdx := embeddingIdx + 1;
      } else {
        final[i] := pending[0];
        pending := pending[1..];
        used := used + 1;
      }
      PrefixSnoc(merged, i);
      PrefixSnoc(final[..], i);
    }
    Whole(final[..]);
    out := final[..];
  }

  /** The mask of the positions in `cached` among the first `n`. */
  function Marks(n: nat, cached: set<nat>): seq<bool> {
    seq(n, i requires 0 <= i < n => i in cached)
  }

  /** A set holding exactly the hit positions marks the hits. */
  lemma MarksOfHits(cache: map<string, Vector>, up: bool, sha256: Hasher, useCache: bool, texts: seq<string>, cached: set<nat>)
    requires forall j: nat :: j in cached <==> j < |texts| && IsHit(cache, up, sha256, useCache, texts[j])
    ensures Marks(|texts|, cached) == HitMask(cache, up, sha256, useCache, texts)
  {
  }

  /** `EmbeddingsService`: the cache and the record of provider requests are its state. */
  class EmbeddingsService {
    const sha256: Hasher
    const provider: Provider
    /** Redis contents, held as the vectors the stored JSON decodes to. */
    var cache: map<string, Vector>
    /** Whether Redis answers; when it does not, reads miss and writes are dropped. */
    var cacheUp: bool
    /** The texts sent to the provider, one entry per round of parallel requests. */
    var requests: seq<seq<string>>

    constructor(sha256: Hasher, provider: Provider, cache: map<string, Vector>, cacheUp: bool)
      ensures this.sha256 == sha256 && this.provider == provider
      ensures this.cache == cache && this.cacheUp == cacheUp && requests == []
    {
      this.sha256 := sha256;
      this.provider := provider;
      this.cache := cache;
      this.cacheUp := cacheUp;
      requests := [];
    }

    /** `_get_cached_embedding`: a read failure is a miss. */
    method GetCachedEmbedding(text: string) returns (r: Option<Vector>)
      ensures r.Some? <==> cacheUp && CacheKey(sha256, text) in cache
      ensures r.GetOr([]) == Cached(cache, cacheUp, sha256, text)
    {
      var key := CacheKey(sha256, text);
      if cacheUp && key in cache {
        r := Some(cache[key]);
      } else {
        r := None;
      }
    }

    /** `_cache_embedding`: a write failure is ignored. */
    method CacheEmbedding(text: string, embedding: Vector)
      modifies this`cache
      ensures cache == if cacheUp then Store(old(cache), sha256, [text], [embedding]) else old(cache)
    {
      if cacheUp {
        cache := cache[CacheKey(sha256, text) := embedding];
      }
    }

    /** `_generate_single_embedding`: a hit is returned without asking the provider; a miss asks it once
        and, with caching on, stores a successful answer. */
    method GenerateSingleEmbedding(text: string, useCache: bool) returns (r: Result<Vector, string>)
      modifies this`cache, this`requests
      ensures IsHit(old(cache), cacheUp, sha256, useCache, text) ==>
        r == Success(Cached(old(cache), cacheUp, sha256, text)) && requests == old(requests) && cache == old(cache)
      ensures !IsHit(old(cache), cacheUp, sha256, useCache, text) ==>
        && r == provider(text)
        && requests == old(requests) + [[text]]
        && cache == if useCache && cacheUp && r.Success? then old(cache)[CacheKey(sha256, text) := r.value] else old(cache)
    {
      if useCache {
        var cachedEmbedding := GetCachedEmbedding(text);
        if cachedEmbedding.Some? && cachedEmbedding.value != [] {
          return Success(cachedEmbedding.value);
        }
      }
      requests := requests + [[text]];
      r := provider(text);
      if r.Success? && useCache {
        CacheEmbedding(text, r.value);
      }
    }

    /** The cache-reading loop of `_generate_batch_embeddings`: hits in order, misses in order, and the
        positions of the hits. */
    method ReadCache(texts: seq<string>, useCache: bool) returns (results: seq<Vector>, batch: seq<string>, cached: set<nat>)
      ensures results == HitVectors(cache, cacheUp, sha256, useCache, texts)
      ensures batch == MissTexts(cache, cacheUp, sha256, useCache, texts)
      ensures forall j: nat :: j in cached <==> j < |texts| && IsHit(cache, cacheUp, sha256, useCache, texts[j])
    {
      results, batch, cached := [], [], {};
      if !useCache {
        NoCacheAllMiss(cache, cacheUp, sha256, texts);
        batch := texts;
        return;
      }
      for i := 0 to |texts|
        invariant results == HitVectors(cache, cacheUp, sha256, useCache, texts[..i])
        invariant batch == MissTexts(cache, cacheUp, sha256, useCache, texts[..i])
        invariant forall j: nat :: j in cached <==> j < i && IsHit(cache, cacheUp, sha256, useCache, texts[j])
      {
        var cachedEmbedding := GetCachedEmbedding(texts[i]);
        assert texts[..i + 1][..i] == texts[..i];
        if cachedEmbedding.Some? && cachedEmbedding.value != [] {
          results := results + [cachedEmbedding.value];
          cached := cached + {i};
        } else {
          batch := batch + [texts[i]];
        }
      }
      assert texts[..|texts|] == texts;
    }

    /** Writes one round's vectors to the cache, in order. */
    method CacheSlice(slice: seq<string>, vectors: seq<Vector>)
      requires |slice| == |vectors|
      modifies this`cache
      ensures cache == if cacheUp then Store(old(cache), sha256, slice, vectors) else old(cache)
    {
      for k := 0 to |slice|
        invariant cache == if cacheUp then Store(old(cache), sha256, slice[..k], vectors[..k]) else old(cache)
      {
        CacheEmbedding(slice[k], vectors[k]);
        StoreAppend(old(cache), sha256, slice[..k], vectors[..k], [slice[k]], [vectors[k]]);
        assert slice[..k] + [slice[k]] == slice[..k + 1];
        assert vectors[..k] + [vectors[k]] == vectors[..k + 1];
      }
      assert slice[..|slice|] == slice && vectors[..|slice|] == vectors;
    }

    /** One round of the provider loop: the slice goes out as one request, and when every text of it
        embeds and caching is on, its vectors are written to the cache. */
    method EmbedRound(slice: seq<string>, useCache: bool) returns (r: Result<seq<Vector>, string>)
      modifies this`cache, this`requests
      ensures requests == old(requests) + [slice]
      ensures r.Success? <==> AllEmbedded(provider, slice)
      ensures r.Success? ==> r.value == EmbeddedAll(provider, slice)
      ensures r.Failure? ==> exists j :: 0 <= j < |slice| && provider(slice[j]) == Failure(r.error)
      ensures cache == if r.Success? && useCache && cacheUp then Store(old(cache), sha256, slice, r.value) else old(cache)
    {
      requests := requests + [slice];
      r := EmbedSlice(provider, slice);
      if r.Success? && useCache {
        CacheSlice(slice, r.value);
      }
    }

    /** The provider loop of `_generate_batch_embeddings`: the misses go out in consecutive rounds of at
        most BatchSize texts; each successful round is cached when caching is on. `sent` counts the
        misses whose round was issued and `stored` those whose round completed. */
    method EmbedMisses(misses: seq<string>, useCache: bool) returns (r: Result<seq<Vector>, string>, ghost sent: nat, ghost stored: nat)
      modifies this`cache, this`requests
      ensures stored <= sent <= |misses|
      ensures requests + Slices(misses[sent..], BatchSize) == old(requests) + Slices(misses, BatchSize)
      ensures AllEmbedded(provider, misses[..stored])
      ensures cache == if useCache && cacheUp then Store(old(cache), sha256, misses[..stored], EmbeddedAll(provider, misses[..stored])) else old(cache)
      ensures r.Success? <==> AllEmbedded(provider, misses)
      ensures r.Success? ==> stored == |misses| && r.value == EmbeddedAll(provider, misses)
      ensures r.Failure? ==>
        && stored < sent <= stored + BatchSize
        && exists j :: stored <= j < sent && provider(misses[j]) == Failure(r.error)
    {
      var all: seq<Vector> := [];
      var i := 0;
      while i < |misses|
        invariant i <= |misses|
        invariant requests + Slices(misses[i..], BatchSize) == old(requests) + Slices(misses, BatchSize)
        invariant AllEmbedded(provider, misses[..i]) && all == EmbeddedAll(provider, misses[..i])
        invariant cache == if useCache && cacheUp then Store(old(cache), sha256, misses[..i], all) else old(cache)
        decreases |misses| - i
      {
        var hi := if i + BatchSize < |misses| then i + BatchSize else |misses|;
        var slice := misses[i..hi];
        SlicesStep(misses, BatchSize, i);
        AppendAssociates(requests, [slice], Slices(misses[hi..], BatchSize));
        var embedded := EmbedRound(slice, useCache);
        if embedded.Failure? {
          FailureInSlice(provider, misses, i, hi, embedded.error);
          r, sent, stored := Failure(embedded.error), hi, i;
          return;
        }
        PrefixExtend(misses, i, hi);
        EmbeddedAllAppend(provider, misses[..i], slice);
        if useCache {
          StoreAppend(old(cache), sha256, misses[..i], all, slice, embedded.value);
        }
        all := all + embedded.value;
        i := hi;
      }
      r, sent, stored := Success(all), i, i;
      Whole(misses);
    }

    /** The second half of `_generate_batch_embeddings`: embed the misses batch by batch, then put the
        hits and the new vectors back in the order of `texts`. On failure `sent` counts the misses whose
        round was issued and `stored` those whose round completed and was cached. */
    method EmbedAndMerge(texts: seq<string>, useCache: bool, ghost mask: seq<bool>, ghost values: seq<Vector>,
                         results: seq<Vector>, batch: seq<string>, cached: set<nat>)
      returns (r: Result<seq<Vector>, string>, ghost sent: nat, ghost stored: nat)
      requires |mask| == |texts| && |values| == |texts|
      requires Marks(|texts|, cached) == mask
      requires results == Select(values, mask, true) && batch == Select(texts, mask, false)
      modifies this`cache, this`requests
      ensures (r.Success? <==> forall i :: 0 <= i < |texts| && !mask[i] ==> provider(texts[i]).Success?)
      ensures r.Success? ==>
        && r.value == Choose(mask, values, EmbeddedAll(provider, texts))
        && requests == old(requests) + Slices(batch, BatchSize)
        && cache == if useCache && cacheUp then Store(old(cache), sha256, batch, EmbeddedAll(provider, batch)) else old(cache)
      ensures r.Failure? ==>
        && stored < sent <= |batch| && sent <= stored + BatchSize
        && requests + Slices(batch[sent..], BatchSize) == old(requests) + Slices(batch, BatchSize)
        && cache == (if useCache && cacheUp then Store(old(cache), sha256, batch[..stored], EmbeddedAll(provider, batch[..stored]))
                     else old(cache))
        && exists j :: stored <= j < sent && provider(batch[j]) == Failure(r.error)
    {
      MissesEmbedded(provider, texts, mask);
      var embedded;
      embedded, sent, stored := EmbedMisses(batch, useCache);
      if embedded.Failure? {
        r := Failure(embedded.error);
        return;
      }
      Whole(batch);
      var out := MergeInOrder(|texts|, cached, results, embedded.value);
      MergedBatch(provider, texts, mask, values);
      r := Success(out);
    }

    /** `_generate_batch_embeddings`: element i of the answer is the cached vector of `texts[i]` when it
        is a hit and the provider's vector otherwise; the answer is a failure exactly when the provider
        fails on some miss, and then the rounds before the failing one are cached and nothing else is
        (`sent` and `stored` as for `EmbedAndMerge`). */
    method GenerateBatchEmbeddings(texts: seq<string>, useCache: bool)
      returns (r: Result<seq<Vector>, string>, ghost sent: nat, ghost stored: nat)
      modifies this`cache, this`requests
      ensures var mask := HitMask(old(cache), cacheUp, sha256, useCache, texts);
        var misses := Select(texts, mask, false);
        && (r.Success? <==> forall i :: 0 <= i < |texts| && !mask[i] ==> provider(texts[i]).Success?)
        && (r.Success? ==>
             && r.value == Choose(mask, CachedAll(old(cache), cacheUp, sha256, texts), EmbeddedAll(provider, texts))
             && requests == old(requests) + Slices(misses, BatchSize)
             && cache == if useCache && cacheUp then Store(old(cache), sha256, misses, EmbeddedAll(provider, misses)) else old(cache))
        && (r.Failure? ==>
             && stored < sent <= |misses| && sent <= stored + BatchSize
             && requests + Slices(misses[sent..], BatchSize) == old(requests) + Slices(misses, BatchSize)
             && cache == (if useCache && cacheUp then Store(old(cache), sha256, misses[..stored], EmbeddedAll(provider, misses[..stored]))
                          else old(cache))
             && exists j :: stored <= j < sent && provider(misses[j]) == Failure(r.error))
    {
      var results, batch, cached := ReadCache(texts, useCache);
      HitVectorsSelect(cache, cacheUp, sha256, useCache, texts);
      MissTextsSelect(cache, cacheUp, sha256, useCache, texts);
      MarksOfHits(cache, cacheUp, sha256, useCache, texts, cached);
      ghost var mask := HitMask(cache, cacheUp, sha256, useCache, texts);
      r, sent, stored := EmbedAndMerge(texts, useCache, mask, CachedAll(cache, cacheUp, sha256, texts), results, batch, cached);
    }

    /** `clear_document_cache`: deletes the keys matching the document's pattern; a Redis failure is
        raised again. */
    method ClearDocumentCache(documentId: string) returns (r: Result<(), string>)
      modifies this`cache
      ensures !cacheUp ==> r.Failure? && cache == old(cache)
      ensures cacheUp ==> r.Success? && cache == Cleared(old(cache), documentId)
    {
      if !cacheUp {
        return Failure("cache unavailable");
      }
      cache := Cleared(cache, documentId);
      r := Success(());
    }
  }
}
