/**
 * query_llm_with_retries: one request to Ollama, Gemini or an OpenAI GPT
 * model, built according to the model family, sent through the shared
 * retry loop whose three except clauses all catch and retry.
 */
module LlmUtils {
  import opened Wrappers
  import opened Oracles
  import opened Retry

  const DefaultMaxRetries := 5
  const DefaultFamily := "gemini"
  const OllamaTemperature := 0.2

  /**
   * The response_format argument: a pydantic model class (which has
   * model_json_schema) or a plain format value (which has not).
   */
  datatype ResponseFormat = PydanticModel(name: string, jsonSchema: string) | PlainFormat(spec: string)

  /** What the service client is called with, per model family. */
  datatype Request =
    | OllamaChat(model: string, format: string, messages: seq<Message>, temperature: real)
    | GeminiGenerate(model: string, contents: string, systemInstruction: string, mimeType: string, schema: ResponseFormat)
    | GptParse(model: string, messages: seq<Message>, responseFormat: ResponseFormat)

  /** The format argument of the Ollama call: the model's JSON schema when it has one, else the value itself. */
  function OllamaFormat(rf: ResponseFormat): (format: string)
    ensures rf.PydanticModel? ==> format == rf.jsonSchema
    ensures rf.PlainFormat? ==> format == rf.spec
  {
    match rf
    case PydanticModel(_, schema) => schema
    case PlainFormat(spec) => spec
  }

  /** The request for one attempt, or None when the family is unknown (the attempt then raises ValueError). */
  function BuildRequest(family: string, prompt: string, value: string, rf: ResponseFormat, modelName: string): (r: Option<Request>)
    ensures r.Some? <==> family in {"ollama", "gemini", "gpt"}
    ensures r.Some? ==> r.value.model == modelName
    ensures r.Some? && r.value.OllamaChat? <==> family == "ollama"
    ensures r.Some? && r.value.GeminiGenerate? <==> family == "gemini"
    ensures r.Some? && r.value.GptParse? <==> family == "gpt"
    ensures r.Some? && !r.value.GeminiGenerate? ==> r.value.messages == [Message("system", prompt), Message("user", value)]
    ensures r.Some? && r.value.OllamaChat? ==> r.value.format == OllamaFormat(rf) && r.value.temperature == OllamaTemperature
    ensures r.Some? && r.value.GeminiGenerate? ==>
      r.value.contents == value && r.value.systemInstruction == prompt && r.value.mimeType == "application/json" && r.value.schema == rf
    ensures r.Some? && r.value.GptParse? ==> r.value.responseFormat == rf
  {
    var messages := [Message("system", prompt), Message("user", value)];
    if family == "ollama" then Some(OllamaChat(modelName, OllamaFormat(rf), messages, OllamaTemperature))
    else if family == "gemini" then Some(GeminiGenerate(modelName, value, prompt, "application/json", rf))
    else if family == "gpt" then Some(GptParse(modelName, messages, rf))
    else None
  }

  /** The three except clauses of query_llm_with_retries all sleep and retry. */
  function CatchAll(e: ErrorKind): Handling {
    Retry
  }

  /** What attempt k gets: the service's reply to the request, or ValueError raised before any call. */
  function AttemptReplies(service: (Request, nat) -> Reply<Json>, req: Option<Request>): nat -> Reply<Json> {
    (k: nat) => if req.Some? then service(req.value, k) else Err(ValueError)
  }

  function QueryRun(service: (Request, nat) -> Reply<Json>, prompt: string, value: string, rf: ResponseFormat,
                    modelName: string, maxRetries: int, family: string): Run<Json>
  {
    RetryRun(maxRetries, CatchAll, AttemptReplies(service, BuildRequest(family, prompt, value, rf, modelName)))
  }

  /**
   * query_llm_with_retries.  Returns the parsed answer or None, the sleeps
   * taken, and the calls made to the service: attempt k sends the request
   * with attempt number k.
   */
  method QueryWithRetries(service: (Request, nat) -> Reply<Json>, prompt: string, value: string, rf: ResponseFormat,
                          modelName: string, maxRetries: int, family: string)
    returns (answer: Option<Json>, sleeps: seq<nat>, calls: seq<(Request, nat)>)
    ensures var run := QueryRun(service, prompt, value, rf, modelName, maxRetries, family);
      && run.outcome.Returned?
      && answer == run.outcome.answer && sleeps == run.sleeps
      && var req := BuildRequest(family, prompt, value, rf, modelName);
         && (req.None? ==> calls == [])
         && (req.Some? ==> |calls| == run.attempts && forall k :: 0 <= k < |calls| ==> calls[k] == (req.value, k))
  {
    var req := BuildRequest(family, prompt, value, rf, modelName);
    var run, queried := RetryWithBackoff(maxRetries, CatchAll, AttemptReplies(service, req));
    CatchAllNeverRaisesFrom(0, AttemptLimit(maxRetries), CatchAll, AttemptReplies(service, req));
    answer := run.outcome.answer;
    sleeps := run.sleeps;
    calls := if req.Some? then seq(|queried|, i requires 0 <= i < |queried| => (req.value, queried[i])) else [];
  }

  /**
   * An unknown model family raises ValueError inside the try; the generic
   * handler catches it, so every attempt is used up and None comes back,
   * without any call to a service.
   */
  lemma UnknownFamilyReturnsNone(service: (Request, nat) -> Reply<Json>, prompt: string, value: string, rf: ResponseFormat,
                                 modelName: string, maxRetries: int, family: string)
    requires family !in {"ollama", "gemini", "gpt"}
    ensures var run := QueryRun(service, prompt, value, rf, modelName, maxRetries, family);
      && run.outcome == Returned(None)
      && run.attempts == AttemptLimit(maxRetries)
      && run.sleeps == BackoffsFrom(0, if maxRetries > 0 then maxRetries - 1 else 0)
  {
    var replies := AttemptReplies(service, BuildRequest(family, prompt, value, rf, modelName));
    if maxRetries > 0 {
      ExhaustedReturnsNone(maxRetries, CatchAll, replies);
    } else {
      RetryAttemptsBounded(maxRetries, CatchAll, replies);
    }
  }

  /**
   * With the default model_family 'gemini', every attempt sends the Gemini
   * request: the value as contents, the prompt as system instruction, JSON
   * as the response type, and the response format as schema.
   */
  lemma DefaultFamilySendsGemini(service: (Request, nat) -> Reply<Json>, prompt: string, value: string, rf: ResponseFormat,
                                 modelName: string)
    ensures var req := BuildRequest(DefaultFamily, prompt, value, rf, modelName);
      && req == Some(GeminiGenerate(modelName, value, prompt, "application/json", rf))
      && forall k: nat :: AttemptReplies(service, req)(k) == service(req.value, k)
  {
  }

  /** With the default of five attempts the sleeps are a prefix of 1, 2, 4, 8 seconds. */
  lemma DefaultSchedule(service: (Request, nat) -> Reply<Json>, prompt: string, value: string, rf: ResponseFormat,
                        modelName: string, family: string)
    ensures var run := QueryRun(service, prompt, value, rf, modelName, DefaultMaxRetries, family);
      && 1 <= run.attempts <= 5
      && run.sleeps == [1, 2, 4, 8][..run.attempts - 1]
  {
    var replies := AttemptReplies(service, BuildRequest(family, prompt, value, rf, modelName));
    RetryAttemptsBounded(DefaultMaxRetries, CatchAll, replies);
    RetrySleepSchedule(DefaultMaxRetries, CatchAll, replies);
    var run := QueryRun(service, prompt, value, rf, modelName, DefaultMaxRetries, family);
    assert Pow2(0) == 1 && Pow2(1) == 2 && Pow2(2) == 4 && Pow2(3) == 8;
    assert run.sleeps == [1, 2, 4, 8][..run.attempts - 1];
  }
}
