/** `AzureClient`: the URLs and request bodies it sends to Azure OpenAI, the prompt it assembles from
    the retrieved sources, and how it turns replies and failures into results. The HTTP session and
    blob storage are oracles: each operation receives the reply (or the exception message) as a
    function of the request it builds. */
module AzureClient {
  import opened Wrappers
  import opened Values
  import opened Text
  import Config

  const ApiVersion: string := "2024-02-15-preview"
  const SystemPrompt: string := "You are a helpful assistant that provides accurate information about financial regulations."
  const Temperature: int := 0
  const MaxTokens: nat := 500
  const OpenAiPath: string := "/openai/deployments/"

  const EmbeddingError: string := "Error generating embedding: "
  const EmbeddingRequestFailed: string := "Embedding request failed: "
  const CompletionError: string := "Error generating completion: "
  const CompletionRequestFailed: string := "Completion request failed: "

  /** The client's settings: the endpoint with every trailing `/` removed. */
  datatype Client = Client(apiKey: string, endpoint: string, deployment: string, completionDeployment: string,
                           apiVersion: string)

  /** `AzureClient.__init__`. */
  function NewClient(settings: Config.Settings): (c: Client)
    ensures c.endpoint == TrimTrailing(settings.endpoint, '/')
    ensures c.endpoint == [] || c.endpoint[|c.endpoint| - 1] != '/'
    ensures c.deployment == settings.embeddingDeploymentName && c.completionDeployment == settings.deploymentName
    ensures c.apiVersion == ApiVersion && c.apiKey == settings.apiKey
  {
    Client(settings.apiKey, TrimTrailing(settings.endpoint, '/'), settings.embeddingDeploymentName,
           settings.deploymentName, ApiVersion)
  }

  /** The embeddings URL of `generate_embedding` and `test_connection`. */
  function EmbeddingUrl(c: Client): string {
    c.endpoint + OpenAiPath + c.deployment + "/embeddings?api-version=" + c.apiVersion
  }

  /** The chat-completions URL of `generate_completion`. */
  function CompletionUrl(c: Client): string {
    c.endpoint + OpenAiPath + c.completionDeployment + "/chat/completions?api-version=" + c.apiVersion
  }

  /** The client's endpoint never ends in `/`, however many the settings' endpoint has, so both URLs put
      exactly one `/` between the endpoint and `openai`. */
  lemma UrlsHaveOneSlash(settings: Config.Settings)
    ensures var c := NewClient(settings);
      var n := |c.endpoint|;
      && (n == 0 || c.endpoint[n - 1] != '/')
      && EmbeddingUrl(c)[..n] == c.endpoint && EmbeddingUrl(c)[n] == '/' && EmbeddingUrl(c)[n + 1] == 'o'
      && CompletionUrl(c)[..n] == c.endpoint && CompletionUrl(c)[n] == '/' && CompletionUrl(c)[n + 1] == 'o'
  {
    var c := NewClient(settings);
    var n := |c.endpoint|;
    var e := EmbeddingUrl(c);
    assert e == c.endpoint + (OpenAiPath + c.deployment + "/embeddings?api-version=" + c.apiVersion);
    var u := CompletionUrl(c);
    assert u == c.endpoint + (OpenAiPath + c.completionDeployment + "/chat/completions?api-version=" + c.apiVersion);
  }

  /** `"Document {i+1}:\n{content}"`: sources are numbered from 1 in retrieval order. */
  function DocumentBlock(i: nat, content: string): (block: string)
    ensures StartsWith(block, "Document " + NatToString(i + 1) + ":\n")
    ensures EndsWith(block, content)
  {
    "Document " + NatToString(i + 1) + ":\n" + content
  }

  /** The blocks of the sources, in order. */
  function DocumentBlocks(sources: seq<Source>): (blocks: seq<string>)
    ensures |blocks| == |sources|
    ensures forall i :: 0 <= i < |sources| ==> blocks[i] == DocumentBlock(i, sources[i].content)
  {
    if sources == [] then []
    else DocumentBlocks(sources[..|sources| - 1]) + [DocumentBlock(|sources| - 1, sources[|sources| - 1].content)]
  }

  /** The context text: the blocks joined by newlines. */
  function ContextText(sources: seq<Source>): string {
    Join("\n", DocumentBlocks(sources))
  }

  /** Every source's block, and so its content under its number, appears in the context. */
  lemma ContextHoldsEverySource(sources: seq<Source>, i: nat)
    requires i < |sources|
    ensures Contains(ContextText(sources), DocumentBlock(i, sources[i].content))
  {
    JoinContainsPart("\n", DocumentBlocks(sources), i);
  }

  const Indent: string := "                    "

  const Instructions: string := "Use the following documents to answer the question. Include citations [1], [2], etc.\n"
  const NotFoundLine: string := "If the answer cannot be found in the documents, say so.\n\n"

  /** The RAG prompt: instructions, the context and the question, each line after the first starting
      with `indent` (the indentation of the literal in its source file). */
  function Prompt(indent: string, context: string, query: string): string {
    Instructions
      + indent + NotFoundLine
      + indent + "Documents:\n"
      + indent + context + "\n\n"
      + indent + "Question: " + query + "\n\n"
      + indent + "Answer:"
  }

  /** Whatever the indentation, the prompt holds the context and the question. */
  lemma PromptHoldsContextAndQuery(indent: string, context: string, query: string)
    ensures Contains(Prompt(indent, context, query), context)
    ensures Contains(Prompt(indent, context, query), query)
  {
    var head := Instructions + indent + NotFoundLine + indent + "Documents:\n" + indent;
    var middle := "\n\n" + indent + "Question: ";
    var tail := "\n\n" + indent + "Answer:";
    var prompt := Prompt(indent, context, query);
    assert prompt == head + context + (middle + query + tail);
    InfixContained(head, context, middle + query + tail);
    assert prompt == (head + context + middle) + query + tail;
    InfixContained(head + context + middle, query, tail);
  }

  datatype Message = Message(role: string, content: string)

  /** The two chat messages of `generate_completion`: the fixed system prompt, then the user prompt. */
  function Messages(query: string, sources: seq<Source>): (ms: seq<Message>)
    ensures |ms| == 2
    ensures ms[0] == Message("system", SystemPrompt) && ms[1].role == "user"
  {
    [Message("system", SystemPrompt), Message("user", Prompt(Indent, ContextText(sources), query))]
  }

  /** The user message holds the context, and so every source's block, and the question. */
  lemma UserMessageHoldsContextAndQuery(query: string, sources: seq<Source>)
    ensures Contains(Messages(query, sources)[1].content, ContextText(sources))
    ensures Contains(Messages(query, sources)[1].content, query)
  {
    PromptHoldsContextAndQuery(Indent, ContextText(sources), query);
  }

  /** A request body: `{input, model}` for embeddings, `{messages, temperature, max_tokens, model}` for
      completions. */
  datatype Body =
    | EmbeddingBody(input: string, model: string)
    | ChatBody(messages: seq<Message>, temperature: int, maxTokens: nat, model: string)

  /** A POST with the `api-key` header. */
  datatype Post = Post(url: string, apiKey: string, body: Body)

  /** An HTTP reply: its status, its text, and the wanted fields of its JSON, or the message of the
      exception raised while reading them. */
  datatype Reply<T> = Reply(status: int, text: string, parsed: Result<T, string>)

  /** What a completion returns: the first choice's text and the usage. */
  datatype Completion = Completion(text: string, usage: Usage)

  function EmbeddingPost(c: Client, text: string): Post {
    Post(EmbeddingUrl(c), c.apiKey, EmbeddingBody(text, c.deployment))
  }

  function CompletionPost(c: Client, query: string, sources: seq<Source>): (p: Post)
    ensures p.url == CompletionUrl(c) && p.apiKey == c.apiKey && p.body.ChatBody?
    ensures p.body.temperature == 0 && p.body.maxTokens == 500 && p.body.model == c.completionDeployment
    ensures p.body.messages == Messages(query, sources)
  {
    Post(CompletionUrl(c), c.apiKey, ChatBody(Messages(query, sources), Temperature, MaxTokens, c.completionDeployment))
  }

  /** `generate_embedding`: the vector of a 200 reply; any other status, or any exception, is raised
      again under "Error generating embedding: " (a non-200 status is first raised as "Embedding request
      failed: " and then wrapped). */
  function GenerateEmbedding(c: Client, post: Post -> Result<Reply<Vector>, string>, text: string): (r: Result<Vector, string>)
    ensures var reply := post(EmbeddingPost(c, text));
      && (r.Success? <==> reply.Success? && reply.value.status == 200 && reply.value.parsed.Success?)
      && (r.Success? ==> r.value == reply.value.parsed.value)
      && (r.Failure? ==> StartsWith(r.error, EmbeddingError))
      && (reply.Success? && reply.value.status != 200 ==>
            r.error == EmbeddingError + EmbeddingRequestFailed + reply.value.text)
  {
    match post(EmbeddingPost(c, text))
    case Failure(e) => Failure(EmbeddingError + e)
    case Success(reply) =>
      if reply.status != 200 then Failure(EmbeddingError + EmbeddingRequestFailed + reply.text)
      else match reply.parsed
        case Failure(e) => Failure(EmbeddingError + e)
        case Success(v) => Success(v)
  }

  /** `generate_completion`: the text and usage of a 200 reply; failures are raised again under "Error
      generating completion: ". */
  function GenerateCompletion(c: Client, post: Post -> Result<Reply<Completion>, string>,
                              query: string, sources: seq<Source>): (r: Result<Completion, string>)
    ensures var reply := post(CompletionPost(c, query, sources));
      && (r.Success? <==> reply.Success? && reply.value.status == 200 && reply.value.parsed.Success?)
      && (r.Success? ==> r.value == reply.value.parsed.value)
      && (r.Failure? ==> StartsWith(r.error, CompletionError))
      && (reply.Success? && reply.value.status != 200 ==>
            r.error == CompletionError + CompletionRequestFailed + reply.value.text)
  {
    match post(CompletionPost(c, query, sources))
    case Failure(e) => Failure(CompletionError + e)
    case Success(reply) =>
      if reply.status != 200 then Failure(CompletionError + CompletionRequestFailed + reply.text)
      else match reply.parsed
        case Failure(e) => Failure(CompletionError + e)
        case Success(v) => Success(v)
  }

  /** `test_connection`: embeds "test"; true exactly for a 200 reply, false for anything else, never
      raising. */
  function TestConnection(c: Client, post: Post -> Result<Reply<Vector>, string>): (ok: bool)
    ensures ok <==> post(EmbeddingPost(c, "test")).Success? && post(EmbeddingPost(c, "test")).value.status == 200
    ensures ok ==> GenerateEmbedding(c, post, "test").Success? || post(EmbeddingPost(c, "test")).value.parsed.Failure?
  {
    match post(EmbeddingPost(c, "test"))
    case Failure(_) => false
    case Success(reply) => reply.status == 200
  }

  /** `store_json`: the blob's URL, or None on any failure. */
  function StoreJson(upload: (string, string, Json) -> Result<string, string>,
                     container: string, blob: string, data: Json): (r: Option<string>)
    ensures r.Some? <==> upload(container, blob, data).Success?
    ensures r.Some? ==> r.value == upload(container, blob, data).value
  {
    match upload(container, blob, data)
    case Success(url) => Some(url)
    case Failure(_) => None
  }
}
