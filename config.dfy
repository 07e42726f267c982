/** Application settings: the chunking and retrieval defaults and the normalised Azure OpenAI
    endpoint. Scheme detection (`urlparse(endpoint).scheme != ""`) is an input predicate. */
module Config {
  import opened Text

  const ChunkSize: nat := 1000
  const ChunkOverlap: nat := 200
  const MaxDocuments: nat := 5
  const EmbeddingBatchSize: nat := 5
  const SimilarityThreshold: real := 0.7

  /** The stripped endpoint with `https://` in front when it has no scheme. */
  function WithScheme(raw: string, hasScheme: string -> bool): string {
    var endpoint := Strip(raw);
    if hasScheme(endpoint) then endpoint else "https://" + endpoint
  }

  /** `Settings.formatted_endpoint`: strip, add a scheme when missing, end with exactly one added `/`
      at most. */
  function FormattedEndpoint(raw: string, hasScheme: string -> bool): (r: string)
    ensures EndsWith(r, "/")
    ensures StartsWith(r, WithScheme(raw, hasScheme))
    ensures !hasScheme(Strip(raw)) ==> StartsWith(r, "https://" + Strip(raw))
    ensures EndsWith(WithScheme(raw, hasScheme), "/") ==> r == WithScheme(raw, hasScheme)
    ensures !EndsWith(WithScheme(raw, hasScheme), "/") ==> |r| == |WithScheme(raw, hasScheme)| + 1
  {
    var endpoint := WithScheme(raw, hasScheme);
    if EndsWith(endpoint, "/") then endpoint else endpoint + "/"
  }

  /** Formatting its own output changes nothing, provided scheme detection accepts anything that starts
      with `https://`, keeps accepting a string after a `/` is appended, and rejects the empty string. */
  lemma FormattedEndpointIdempotent(raw: string, hasScheme: string -> bool)
    requires forall s :: hasScheme("https://" + s)
    requires forall s :: hasScheme(s) ==> hasScheme(s + "/")
    requires !hasScheme("")
    ensures FormattedEndpoint(FormattedEndpoint(raw, hasScheme), hasScheme) == FormattedEndpoint(raw, hasScheme)
  {
    var r := FormattedEndpoint(raw, hasScheme);
    var stripped := Strip(raw);
    var e := WithScheme(raw, hasScheme);
    // r starts with a non-space character and ends with '/', so stripping keeps it.
    if hasScheme(stripped) {
      assert stripped != [];
      StripRangeHasNoEdgeSpaces(raw, 0, |raw|);
      assert r[0] == stripped[0];
      assert hasScheme(r) by {
        if r != e {
          assert r == e + "/";
        }
      }
    } else {
      assert r[0] == 'h';
      assert r[..8] == "https://";
      assert r == "https://" + r[8..];
      assert hasScheme("https://" + r[8..]);
    }
    StripNoEdges(r);
    assert EndsWith(r, "/");
  }

  /** The settings the services read. */
  datatype Settings = Settings(
    apiKey: string,
    endpoint: string,
    deploymentName: string,
    embeddingDeploymentName: string,
    chunkSize: nat,
    chunkOverlap: nat,
    maxDocuments: nat,
    embeddingBatchSize: nat,
    similarityThreshold: real)

  /** `Settings.__init__`: the defaults, and the endpoint replaced by its formatted value. The defaults
      step the chunker forward by 800 characters, batch five texts per provider request and keep the
      similarity threshold strictly between 0 and 1. */
  function LoadSettings(apiKey: string, rawEndpoint: string, deployment: string, embeddingDeployment: string,
                        hasScheme: string -> bool): (s: Settings)
    ensures s.endpoint == FormattedEndpoint(rawEndpoint, hasScheme) && EndsWith(s.endpoint, "/")
    ensures s.chunkSize == ChunkSize == 1000 && s.chunkOverlap == ChunkOverlap == 200
    ensures s.chunkOverlap < s.chunkSize && s.chunkSize - s.chunkOverlap == 800
    ensures s.maxDocuments == MaxDocuments == 5 && s.embeddingBatchSize == EmbeddingBatchSize == 5
    ensures s.similarityThreshold == SimilarityThreshold && 0.0 < s.similarityThreshold < 1.0
    ensures s.apiKey == apiKey && s.deploymentName == deployment && s.embeddingDeploymentName == embeddingDeployment
  {
    Settings(apiKey, FormattedEndpoint(rawEndpoint, hasScheme), deployment, embeddingDeployment,
             ChunkSize, ChunkOverlap, MaxDocuments, EmbeddingBatchSize, SimilarityThreshold)
  }

  /** Loading settings from an endpoint that was already loaded once leaves the endpoint unchanged. */
  lemma ReloadKeepsEndpoint(apiKey: string, rawEndpoint: string, deployment: string, embeddingDeployment: string,
                            hasScheme: string -> bool)
    requires forall s :: hasScheme("https://" + s)
    requires forall s :: hasScheme(s) ==> hasScheme(s + "/")
    requires !hasScheme("")
    ensures var once := LoadSettings(apiKey, rawEndpoint, deployment, embeddingDeployment, hasScheme);
      LoadSettings(apiKey, once.endpoint, deployment, embeddingDeployment, hasScheme) == once
  {
    FormattedEndpointIdempotent(rawEndpoint, hasScheme);
  }
}
