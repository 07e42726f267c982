/** The `/query` routes: the Server-Sent-Events framing of the streamed events, and the mapping of a
    `process_query` answer (or its failure) to the HTTP response. `json.dumps` is an oracle that gives
    an event's text or the message of the exception it raises. */
module QueryRoute {
  import opened Wrappers
  import opened Values
  import opened Text
  import Rag
  import Evaluation
  import Security
  import AzureClient

  /** One SSE frame carrying `json`. */
  function Frame(json: string): (f: string)
    ensures StartsWith(f, "data: ") && EndsWith(f, "\n\n") && |f| == |json| + 8
  {
    "data: " + json + "\n\n"
  }

  /** The terminal frame. */
  const Done: string := "data: [DONE]\n\n"

  /** Two frames are equal only when their texts are. */
  lemma FrameInjective(a: string, b: string)
    requires Frame(a) == Frame(b)
    ensures a == b
  {
    assert a == Frame(a)[6..|Frame(a)| - 2];
    assert b == Frame(b)[6..|Frame(b)| - 2];
  }

  /** What `json.dumps` may be assumed to do: the error dictionary, which holds only strings, always
      serialises, and no serialised event is the bare text `[DONE]` (a serialised dictionary starts with
      a brace). */
  ghost predicate DumpsContract(dumps: Rag.Event -> Result<string, string>) {
    && (forall m :: dumps(Rag.ErrorEvent(m)).Success?)
    && (forall e :: dumps(e).Success? ==> dumps(e).value != "[DONE]")
  }

  /** The frame of the `except` branch. */
  function ErrorFrame(dumps: Rag.Event -> Result<string, string>, message: string): string
    requires DumpsContract(dumps)
  {
    Frame(dumps(Rag.ErrorEvent(message)).value)
  }

  /** The frames before `[DONE]`: one per event while `json.dumps` succeeds; at the first exception,
      whether raised by `json.dumps` or by the event source after its events, one error frame and
      nothing more. */
  function EventFrames(dumps: Rag.Event -> Result<string, string>, events: seq<Rag.Event>, raised: Option<string>): seq<string>
    requires DumpsContract(dumps)
  {
    if events == [] then (if raised.Some? then [ErrorFrame(dumps, raised.value)] else [])
    else match dumps(events[0])
      case Failure(e) => [ErrorFrame(dumps, e)]
      case Success(text) => [Frame(text)] + EventFrames(dumps, events[1..], raised)
  }

  /** `generate_stream_response`: the event frames, then `[DONE]` from the `finally` clause. */
  function StreamFrames(dumps: Rag.Event -> Result<string, string>, events: seq<Rag.Event>, raised: Option<string>)
    : (frames: seq<string>)
    requires DumpsContract(dumps)
    ensures |frames| >= 1 && frames[|frames| - 1] == Done
  {
    EventFrames(dumps, events, raised) + [Done]
  }

  /** The frames of events that all serialise, in order. */
  function Frames(dumps: Rag.Event -> Result<string, string>, events: seq<Rag.Event>): (frames: seq<string>)
    requires forall k :: 0 <= k < |events| ==> dumps(events[k]).Success?
    ensures |frames| == |events|
    ensures forall k :: 0 <= k < |events| ==> frames[k] == Frame(dumps(events[k]).value)
  {
    seq(|events|, k requires 0 <= k < |events| => Frame(dumps(events[k]).value))
  }

  /** No frame before `[DONE]` is `[DONE]`, and there is at most one frame per event plus one. */
  lemma {:induction false} EventFramesAvoidDone(dumps: Rag.Event -> Result<string, string>, events: seq<Rag.Event>,
                                                raised: Option<string>)
    requires DumpsContract(dumps)
    ensures Done !in EventFrames(dumps, events, raised)
    ensures |EventFrames(dumps, events, raised)| <= |events| + 1
    decreases |events|
  {
    assert Done == Frame("[DONE]");
    forall m | true
      ensures ErrorFrame(dumps, m) != Done
    {
      if ErrorFrame(dumps, m) == Done {
        FrameInjective(dumps(Rag.ErrorEvent(m)).value, "[DONE]");
      }
    }
    if events != [] && dumps(events[0]).Success? {
      EventFramesAvoidDone(dumps, events[1..], raised);
      if Frame(dumps(events[0]).value) == Done {
        FrameInjective(dumps(events[0]).value, "[DONE]");
      }
    }
  }

  /** `[DONE]` is sent exactly once, as the last frame, on every path. */
  lemma DoneExactlyOnceAndLast(dumps: Rag.Event -> Result<string, string>, events: seq<Rag.Event>, raised: Option<string>)
    requires DumpsContract(dumps)
    ensures var frames := StreamFrames(dumps, events, raised);
      && frames[|frames| - 1] == Done
      && forall k :: 0 <= k < |frames| - 1 ==> frames[k] != Done
  {
    EventFramesAvoidDone(dumps, events, raised);
    var frames := StreamFrames(dumps, events, raised);
    assert forall k :: 0 <= k < |frames| - 1 ==> frames[k] == EventFrames(dumps, events, raised)[k];
  }

  /** When every event serialises, each becomes exactly one frame, in order, followed by one error frame
      if the source raised and then `[DONE]`. */
  lemma {:induction false} FramesFollowEvents(dumps: Rag.Event -> Result<string, string>, events: seq<Rag.Event>,
                                              raised: Option<string>)
    requires DumpsContract(dumps)
    requires forall k :: 0 <= k < |events| ==> dumps(events[k]).Success?
    ensures EventFrames(dumps, events, raised) ==
      Frames(dumps, events) + (if raised.Some? then [ErrorFrame(dumps, raised.value)] else [])
    decreases |events|
  {
    if events != [] {
      FramesFollowEvents(dumps, events[1..], raised);
      assert Frames(dumps, events) == [Frame(dumps(events[0]).value)] + Frames(dumps, events[1..]);
    }
  }

  /** When serialising event `j` is the first to fail, the frames are those of the events before it,
      then one error frame with its message. */
  lemma {:induction false} FramesStopAtFirstFailure(dumps: Rag.Event -> Result<string, string>, events: seq<Rag.Event>,
                                                    raised: Option<string>, j: nat)
    requires DumpsContract(dumps)
    requires j < |events| && dumps(events[j]).Failure?
    requires forall k :: 0 <= k < j ==> dumps(events[k]).Success?
    ensures EventFrames(dumps, events, raised) == Frames(dumps, events[..j]) + [ErrorFrame(dumps, dumps(events[j]).error)]
    decreases j
  {
    if j > 0 {
      FramesStopAtFirstFailure(dumps, events[1..], raised, j - 1);
      assert events[1..][..j - 1] == events[1..j];
      assert Frames(dumps, events[..j]) == [Frame(dumps(events[0]).value)] + Frames(dumps, events[1..j]);
    }
  }

  /** The body of a successful `/query` call. */
  datatype QueryResponse = QueryResponse(response: string, sources: seq<Source>, evaluation: Evaluation.Metrics,
                                         queryId: string, usage: Usage, confidence: real)

  /** The `/query` handler: a failure of `process_query` becomes a 500 carrying its message; an answer
      becomes the response with `confidence` taken from the evaluation. */
  function RouteQuery(result: Result<Rag.QueryResult, string>): (r: Result<QueryResponse, Security.HttpError>)
    ensures result.Failure? ==> r == Failure(Security.HttpError(500, result.error))
    ensures result.Success? ==>
      && r.Success?
      && r.value.confidence == result.value.evaluation.confidenceScore
      && r.value.response == result.value.response && r.value.sources == result.value.sources
      && r.value.evaluation == result.value.evaluation && r.value.usage == result.value.usage
      && r.value.queryId == result.value.queryId
  {
    match result
    case Failure(e) => Failure(Security.HttpError(500, e))
    case Success(answer) =>
      Success(QueryResponse(answer.response, answer.sources, answer.evaluation, answer.queryId, answer.usage,
                            answer.evaluation.confidenceScore))
  }

  /** The confidence the route reports, taken from the evaluator, is the one `process_query` computed
      itself: both are the mean similarity of the sources. A failure reaches the client as a 500 whose
      detail starts with "Error processing query: ". */
  lemma RouteConfidenceIsRagConfidence(embed: string -> Result<Vector, string>,
                                       retrieve: Vector -> Result<seq<Source>, string>,
                                       complete: (string, seq<Source>) -> Result<AzureClient.Completion, string>,
                                       clock: Rag.Clock, query: string)
    ensures var result := Rag.ProcessQuery(embed, retrieve, complete, clock, query);
      && (result.Success? ==>
            RouteQuery(result).value.confidence == result.value.confidence == Evaluation.MeanRelevance(result.value.sources))
      && (result.Failure? ==>
            && RouteQuery(result).error.status == 500
            && StartsWith(RouteQuery(result).error.detail, "Error processing query: "))
  {
  }
}
