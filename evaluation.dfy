/** `ResponseEvaluation`: the metrics computed for one answer (latency, lengths, citation markers, the
    mean source similarity) and the weighted confidence formula. Similarities and latencies are reals. */
module Evaluation {
  import opened Wrappers
  import opened Values
  import opened Text

  /** The citation marker `"[i]"`. */
  function CitationMarker(i: nat): (m: string)
    ensures |m| >= 3 && m[0] == '[' && m[|m| - 1] == ']'
  {
    "[" + NatToString(i) + "]"
  }

  /** Distinct source numbers have distinct markers. */
  lemma CitationMarkersDistinct(i: nat, j: nat)
    requires i != j
    ensures CitationMarker(i) != CitationMarker(j)
  {
    if CitationMarker(i) == CitationMarker(j) {
      var mi, mj := CitationMarker(i), CitationMarker(j);
      assert mi[1..|mi| - 1] == NatToString(i);
      assert mj[1..|mj| - 1] == NatToString(j);
      NatToStringInjective(i, j);
    }
  }

  /** `citations.count`: how many of the numbers 1..n have their marker somewhere in the response. */
  function CitationCount(response: string, n: nat): (count: nat)
    ensures count <= n
  {
    if n == 0 then 0
    else CitationCount(response, n - 1) + (if Contains(response, CitationMarker(n)) then 1 else 0)
  }

  /** `citations.present`: some number in 1..n has its marker in the response. */
  predicate CitationsPresent(response: string, n: nat) {
    exists i :: 1 <= i <= n && Contains(response, CitationMarker(i))
  }

  /** The citations are present exactly when at least one is counted, and all are counted exactly when
      every marker occurs. */
  lemma {:induction false} CitationsPresentIffCounted(response: string, n: nat)
    ensures CitationsPresent(response, n) <==> CitationCount(response, n) > 0
    ensures CitationCount(response, n) == n <==> forall i :: 1 <= i <= n ==> Contains(response, CitationMarker(i))
  {
    if n > 0 {
      CitationsPresentIffCounted(response, n - 1);
      if CitationsPresent(response, n) && !Contains(response, CitationMarker(n)) {
        var i :| 1 <= i <= n && Contains(response, CitationMarker(i));
        assert i < n;
        assert CitationsPresent(response, n - 1);
      }
      if CitationsPresent(response, n - 1) {
        var i :| 1 <= i <= n - 1 && Contains(response, CitationMarker(i));
        assert CitationsPresent(response, n);
      }
      if CitationCount(response, n) == n {
        assert CitationCount(response, n - 1) == n - 1;
      }
    }
  }

  /** `s.get("similarity", 0)`: a missing similarity counts as 0. */
  function Similarity(s: Source): real {
    s.similarity.GetOr(0.0)
  }

  /** The sum of the sources' similarities, missing ones counted as 0. */
  function SimilaritySum(sources: seq<Source>): (total: real)
    ensures (forall k :: 0 <= k < |sources| ==> 0.0 <= Similarity(sources[k]) <= 1.0) ==> 0.0 <= total <= |sources| as real
  {
    if sources == [] then 0.0
    else SimilaritySum(sources[..|sources| - 1]) + Similarity(sources[|sources| - 1])
  }

  /** `source_relevance.mean`: the mean similarity, or 0 with no sources. */
  function MeanRelevance(sources: seq<Source>): (mean: real)
    ensures sources == [] ==> mean == 0.0
    ensures sources != [] ==> mean * |sources| as real == SimilaritySum(sources)
    ensures (forall k :: 0 <= k < |sources| ==> 0.0 <= Similarity(sources[k]) <= 1.0) ==> 0.0 <= mean <= 1.0
  {
    if sources == [] then 0.0 else SimilaritySum(sources) / |sources| as real
  }

  /** The metrics dictionary of `evaluate_response`. The query id and timestamp come from the clock and
      are inputs here. */
  datatype Metrics = Metrics(
    queryId: string,
    timestamp: string,
    latencyMs: real,
    tokenUsage: map<string, int>,
    responseLength: nat,
    sourceCount: nat,
    citationCount: nat,
    citationsPresent: bool,
    relevanceMean: real,
    confidenceScore: real)

  /** `evaluate_response`: the metrics returned whatever happens to storing them. */
  function EvaluateResponse(response: string, sources: seq<Source>, executionTime: real,
                            tokenUsage: map<string, int>, queryId: string, timestamp: string): (m: Metrics)
    ensures m.latencyMs == executionTime * 1000.0
    ensures m.responseLength == |response| && m.sourceCount == |sources| && m.tokenUsage == tokenUsage
    ensures m.citationCount == CitationCount(response, |sources|) <= m.sourceCount
    ensures m.citationsPresent <==> m.citationCount > 0
    ensures m.confidenceScore == m.relevanceMean == MeanRelevance(sources)
  {
    CitationsPresentIffCounted(response, |sources|);
    var mean := MeanRelevance(sources);
    Metrics(queryId, timestamp, executionTime * 1000.0, tokenUsage, |response|, |sources|,
            CitationCount(response, |sources|), CitationsPresent(response, |sources|), mean, mean)
  }

  /** `_calculate_confidence_score`: weights 0.4, 0.4 and 0.2, the citation term being 1.0 with
      citations and 0.5 without. */
  function ConfidenceScore(queryRelevance: real, sourceRelevance: real, hasCitations: bool): real {
    0.4 * queryRelevance + 0.4 * sourceRelevance + 0.2 * (if hasCitations then 1.0 else 0.5)
  }

  /** With both relevances in [0, 1] the score lies in [0.1, 1.0]; citations add exactly 0.1, and the
      score grows with either relevance. */
  lemma ConfidenceScoreBounds(q: real, s: real, q2: real, s2: real, c: bool)
    requires 0.0 <= q <= 1.0 && 0.0 <= s <= 1.0
    ensures 0.1 <= ConfidenceScore(q, s, c) <= 1.0
    ensures ConfidenceScore(q, s, true) == ConfidenceScore(q, s, false) + 0.1
    ensures q <= q2 && s <= s2 ==> ConfidenceScore(q, s, c) <= ConfidenceScore(q2, s2, c)
    ensures ConfidenceScore(1.0, 1.0, true) == 1.0 && ConfidenceScore(0.0, 0.0, false) == 0.1
  {
  }
}
