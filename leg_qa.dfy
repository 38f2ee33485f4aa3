/**
 * leg_qa.py: ask a language model the fixed list of questions about every
 * bill of a session and keep one answer (or None) per bill, in order.
 *
 * The model services are an oracle `service(call, attempt)` giving the
 * parsed answer or the kind of exception the call raised; the markdown
 * directory is a map from file name to contents; the bill numbers are the
 * BillNumber column of legislation.csv, given as input.
 */
module LegQa {
  import opened Wrappers
  import opened Oracles
  import opened Text
  import opened Retry

  // ---------------------------------------------------------------------
  // The questions and the answer schema
  // ---------------------------------------------------------------------

  /** question_dict, in its insertion order: (key, question). */
  const Questions: seq<(string, string)> := [
    ("bill_summary", "Write a brief, plain-English summary of the bill."),
    ("programmatic", "Does this bill establish a distinct service, initiative, or intervention for the public? Answer False if it mainly changes rules, fees, definitions, or legal processes."),
    ("program_start_year", "What year do the programs described in the bill start?"),
    ("program_end_year", "What year do the programs described in the bill end?"),
    ("funding", "How much money in total has been allocated for the programs? (if millions, write out full number. E.g. \"1 million\" should be 1000000)"),
    ("responsible_party", "What Maryland State agency, department, office, or role is responsible for implementing the programs?"),
    ("stakeholders", "What population will be impacted by the bill?"),
    ("innovative_summary", "How innovative (employing new technologies or new approaches to government) is the program?"),
    ("innovative_score", "How innovative is the program on a scale from 1 to 5, with 5 being the most innovative?"),
    ("child_poverty_direct_summary", "How high is the potential for the program to have a direct impact on child poverty?"),
    ("child_poverty_direct_score", "How high is the potential for the program to have a direct impact on child poverty on a scale from 1 to 5, with 5 being highest potential?")
  ]

  datatype FieldType = StrField | BoolField | IntField | FloatField

  /** The fields of the AnswersToQuestions model, in declaration order. */
  const AnswerSchema: seq<(string, FieldType)> := [
    ("bill_summary", StrField),
    ("programmatic", BoolField),
    ("program_start_year", IntField),
    ("program_end_year", IntField),
    ("funding", FloatField),
    ("responsible_party", StrField),
    ("stakeholders", StrField),
    ("innovative_summary", StrField),
    ("innovative_score", IntField),
    ("child_poverty_direct_summary", StrField),
    ("child_poverty_direct_score", IntField)
  ]

  /** Every question has a field of the same name, at the same position, and no field lacks a question. */
  lemma QuestionKeysMatchSchema()
    ensures |Questions| == |AnswerSchema| == 11
    ensures forall i :: 0 <= i < |Questions| ==> Questions[i].0 == AnswerSchema[i].0
  {
  }

  // ---------------------------------------------------------------------
  // The prompts
  // ---------------------------------------------------------------------

  /** The line of one question in the system prompt: `- {key}: {question}`. */
  function QuestionLine(q: (string, string)): string {
    "- " + q.0 + ": " + q.1
  }

  function QuestionLines(qs: seq<(string, string)>): (lines: seq<string>)
    ensures |lines| == |qs|
  {
    seq(|qs|, i requires 0 <= i < |qs| => QuestionLine(qs[i]))
  }

  /** The text around the single `{}` field of the system prompt template. */
  const SystemPromptPieces: seq<string> := [
    "You are reading markdown generated from the text of a bill passed by the Maryland General Assembly. Please note that the strikethrough syntax (~~) means a word or section should be ignored. Your goal is to read the markdown carefully, and then answer the following questions:\n",
    "\nPlease respond with only valid JSON in the specified format."
  ]

  function QuestionBlock(qs: seq<(string, string)>): string {
    Join("\n", QuestionLines(qs))
  }

  /** SYSTEM_PROMPT, the template filled with the question lines joined by newlines. */
  function SystemPrompt(): string {
    Fill(SystemPromptPieces, [QuestionBlock(Questions)])
  }

  /**
   * The system prompt is the fixed introduction, then the line
   * `- {key}: {question}` of every question in table order, joined by
   * newlines, then the closing instruction.
   */
  lemma SystemPromptLayout()
    ensures var lines := QuestionLines(Questions);
      && SystemPrompt() == SystemPromptPieces[0] + Join("\n", lines) + SystemPromptPieces[1]
      && |lines| == 11
      && forall i :: 0 <= i < 11 ==> lines[i] == "- " + Questions[i].0 + ": " + Questions[i].1
  {
    var block := QuestionBlock(Questions);
    assert SystemPromptPieces[1..] == [SystemPromptPieces[1]];
    assert Fill(SystemPromptPieces, [block]) == SystemPromptPieces[0] + block + SystemPromptPieces[1];
  }

  /** GEMINI_SYSTEM_PROMPT up to its `{}` field, for a system prompt. */
  function GeminiHeader(systemPrompt: string): string {
    systemPrompt + "\nThe markdown follows below:\n\n"
  }

  /** The contents of a request: one string, or a list of chat messages. */
  datatype Prompt = SingleText(text: string) | Chat(messages: seq<Message>)

  /**
   * createFormattedPromptContents(model, value), where systemPrompt is the
   * module's SYSTEM_PROMPT.  For Gemini, GEMINI_SYSTEM_PROMPT.format(value):
   * the system prompt holds no braces, so its only field is the final `{}`.
   */
  function FormattedPrompt(systemPrompt: string, model: string, value: string): (p: Prompt)
    ensures p.SingleText? <==> model == "gemini"
    ensures p.SingleText? ==> StartsWith(p.text, GeminiHeader(systemPrompt)) && |p.text| == |GeminiHeader(systemPrompt)| + |value|
    ensures p.Chat? ==> |p.messages| == 2 && p.messages[0] == Message("system", systemPrompt) && p.messages[1].role == "user"
  {
    if model == "gemini" then
      var header := GeminiHeader(systemPrompt);
      assert [header, ""][1..] == [""];
      assert Fill([header, ""], [value]) == header + value + "";
      SingleText(Fill([header, ""], [value]))
    else Chat([Message("system", systemPrompt), Message("user", value)])
  }

  /** Where a prompt carries the bill text, if it has the shape of one. */
  function BillTextOf(systemPrompt: string, p: Prompt): Option<string> {
    match p
    case SingleText(t) =>
      var header := GeminiHeader(systemPrompt);
      if StartsWith(t, header) then Some(t[|header|..]) else None
    case Chat(ms) =>
      if |ms| == 2 && ms[0] == Message("system", systemPrompt) && ms[1].role == "user" then Some(ms[1].content) else None
  }

  /** Both prompt shapes carry the bill text verbatim after the fixed instructions. */
  lemma PromptCarriesBillText(systemPrompt: string, model: string, value: string)
    ensures BillTextOf(systemPrompt, FormattedPrompt(systemPrompt, model, value)) == Some(value)
  {
    if model == "gemini" {
      var header := GeminiHeader(systemPrompt);
      var t := FormattedPrompt(systemPrompt, model, value).text;
      assert [header, ""][1..] == [""];
      assert t == header + value + "";
      assert t[|header|..] == value;
    }
  }

  // ---------------------------------------------------------------------
  // The three classifiers
  // ---------------------------------------------------------------------

  const GeminiModel := "gemini-2.0-flash"
  const GptModel := "gpt-4.1-nano-2025-04-14"
  const ClassifyMaxRetries := 3
  /** The pause before every Gemini request, for the free tier's 15 requests a minute. */
  const GeminiRateLimitPause := 4

  /** What a classifier calls its service with. */
  datatype ClassifierCall =
    | GeminiGenerate(model: string, contents: Prompt, mimeType: string, schema: seq<(string, FieldType)>)
    | GptParse(model: string, messages: Prompt, responseFormat: seq<(string, FieldType)>)
    | OllamaChat(model: string, format: seq<(string, FieldType)>, messages: Prompt)

  /** geminiClassify catches the server error and the JSON decode error; anything else leaves the loop. */
  function GeminiHandling(e: ErrorKind): (h: Handling)
    ensures h == Retry <==> e == ServerError || e == JsonDecodeError
    ensures h != Retry ==> h == Reraise(e)
  {
    match e
    case ServerError => Retry
    case JsonDecodeError => Retry
    case _ => Reraise(e)
  }

  /**
   * gptClassify catches OpenAIError; its JSON decode handler reads a name
   * that is never bound in that function and so raises NameError.
   */
  function GptHandling(e: ErrorKind): (h: Handling)
    ensures h == Retry <==> e == OpenAIError
    ensures e == JsonDecodeError ==> h == Reraise(NameError)
    ensures e != OpenAIError && e != JsonDecodeError ==> h == Reraise(e)
  {
    match e
    case OpenAIError => Retry
    case JsonDecodeError => Reraise(NameError)
    case _ => Reraise(e)
  }

  function GeminiCall(systemPrompt: string, model: string, value: string): ClassifierCall {
    GeminiGenerate(GeminiModel, FormattedPrompt(systemPrompt, model, value), "application/json", AnswerSchema)
  }

  function GptCall(systemPrompt: string, model: string, value: string): ClassifierCall {
    GptParse(GptModel, FormattedPrompt(systemPrompt, model, value), AnswerSchema)
  }

  function OllamaCall(systemPrompt: string, model: string, value: string): ClassifierCall {
    OllamaChat(model, AnswerSchema, FormattedPrompt(systemPrompt, model, value))
  }

  function Replies(service: (ClassifierCall, nat) -> Reply<Json>, call: ClassifierCall): nat -> Reply<Json> {
    (k: nat) => service(call, k)
  }

  /** geminiClassify: the rate-limit pause, then the retry loop. */
  method GeminiClassify(service: (ClassifierCall, nat) -> Reply<Json>, systemPrompt: string, model: string, value: string)
    returns (run: Run<Json>)
    ensures var loop := RetryRun(ClassifyMaxRetries, GeminiHandling, Replies(service, GeminiCall(systemPrompt, model, value)));
      run == Run(loop.outcome, loop.attempts, [GeminiRateLimitPause] + loop.sleeps)
  {
    var loop, attempts := RetryWithBackoff(ClassifyMaxRetries, GeminiHandling, Replies(service, GeminiCall(systemPrompt, model, value)));
    run := Run(loop.outcome, loop.attempts, [GeminiRateLimitPause] + loop.sleeps);
  }

  /** gptClassify: the retry loop with its own handlers. */
  method GptClassify(service: (ClassifierCall, nat) -> Reply<Json>, systemPrompt: string, model: string, value: string)
    returns (run: Run<Json>)
    ensures run == RetryRun(ClassifyMaxRetries, GptHandling, Replies(service, GptCall(systemPrompt, model, value)))
  {
    var attempts;
    run, attempts := RetryWithBackoff(ClassifyMaxRetries, GptHandling, Replies(service, GptCall(systemPrompt, model, value)));
  }

  /** ollamaClassify: one call, whose exceptions propagate. */
  method OllamaClassify(service: (ClassifierCall, nat) -> Reply<Json>, systemPrompt: string, model: string, value: string)
    returns (run: Run<Json>)
    ensures service(OllamaCall(systemPrompt, model, value), 0).Ok? ==> run == Run(Returned(Some(service(OllamaCall(systemPrompt, model, value), 0).value)), 1, [])
    ensures service(OllamaCall(systemPrompt, model, value), 0).Err? ==> run == Run(Raised(service(OllamaCall(systemPrompt, model, value), 0).error), 1, [])
  {
    var reply := service(OllamaCall(systemPrompt, model, value), 0);
    if reply.Ok? {
      run := Run(Returned(Some(reply.value)), 1, []);
    } else {
      run := Run(Raised(reply.error), 1, []);
    }
  }

  /** The classifier main picks for a model name, applied to one bill text. */
  function ClassifierRun(service: (ClassifierCall, nat) -> Reply<Json>, systemPrompt: string, model: string, value: string): Run<Json> {
    if model == "gemini" then
      var loop := RetryRun(ClassifyMaxRetries, GeminiHandling, Replies(service, GeminiCall(systemPrompt, model, value)));
      Run(loop.outcome, loop.attempts, [GeminiRateLimitPause] + loop.sleeps)
    else if model == "gpt" then
      RetryRun(ClassifyMaxRetries, GptHandling, Replies(service, GptCall(systemPrompt, model, value)))
    else
      var reply := service(OllamaCall(systemPrompt, model, value), 0);
      if reply.Ok? then Run(Returned(Some(reply.value)), 1, []) else Run(Raised(reply.error), 1, [])
  }

  /** classifyFunction(client, args.model, bill_md) */
  method Classify(service: (ClassifierCall, nat) -> Reply<Json>, systemPrompt: string, model: string, value: string)
    returns (run: Run<Json>)
    ensures run == ClassifierRun(service, systemPrompt, model, value)
  {
    if model == "gemini" {
      run := GeminiClassify(service, systemPrompt, model, value);
    } else if model == "gpt" {
      run := GptClassify(service, systemPrompt, model, value);
    } else {
      run := OllamaClassify(service, systemPrompt, model, value);
    }
  }

  /**
   * Every classifier makes between one and three attempts; the retrying ones
   * sleep 1 then 2 seconds between them (Gemini after its 4-second pause);
   * the Ollama one makes a single attempt and never sleeps.
   */
  lemma ClassifierSchedule(service: (ClassifierCall, nat) -> Reply<Json>, systemPrompt: string, model: string, value: string)
    ensures var run := ClassifierRun(service, systemPrompt, model, value);
      && 1 <= run.attempts <= ClassifyMaxRetries
      && (model == "gemini" ==> run.sleeps == [GeminiRateLimitPause] + [1, 2][..run.attempts - 1])
      && (model == "gpt" ==> run.sleeps == [1, 2][..run.attempts - 1])
      && (model != "gemini" && model != "gpt" ==> run.attempts == 1 && run.sleeps == [])
  {
    if model == "gemini" {
      ThreeAttemptSchedule(GeminiHandling, Replies(service, GeminiCall(systemPrompt, model, value)));
    } else if model == "gpt" {
      ThreeAttemptSchedule(GptHandling, Replies(service, GptCall(systemPrompt, model, value)));
    }
  }

  lemma ThreeAttemptSchedule(handle: ErrorKind -> Handling, reply: nat -> Reply<Json>)
    ensures var run := RetryRun(ClassifyMaxRetries, handle, reply);
      1 <= run.attempts <= 3 && run.sleeps == [1, 2][..run.attempts - 1]
  {
    RetryAttemptsBounded(ClassifyMaxRetries, handle, reply);
    RetrySleepSchedule(ClassifyMaxRetries, handle, reply);
    assert Pow2(0) == 1 && Pow2(1) == 2;
  }

  /** Three caught Gemini failures in a row: None after three attempts, with 1 and 2 seconds between them. */
  lemma GeminiGivesUpAfterThreeFailures(service: (ClassifierCall, nat) -> Reply<Json>, systemPrompt: string, value: string)
    requires forall k :: 0 <= k < 3 ==> service(GeminiCall(systemPrompt, "gemini", value), k) in {Err(ServerError), Err(JsonDecodeError)}
    ensures ClassifierRun(service, systemPrompt, "gemini", value) == Run(Returned(None), 3, [GeminiRateLimitPause, 1, 2])
  {
    var reply := Replies(service, GeminiCall(systemPrompt, "gemini", value));
    forall j | 0 <= j < ClassifyMaxRetries ensures Retried(GeminiHandling, reply(j)) {
      assert reply(j) == service(GeminiCall(systemPrompt, "gemini", value), j);
    }
    ExhaustedReturnsNone(ClassifyMaxRetries, GeminiHandling, reply);
    assert BackoffsFrom(0, 2) == [1, 2] by {
      assert Backoff(0) == 1 && Backoff(1) == 2;
    }
  }

  /** A JSON decode error in gptClassify ends the run with NameError instead of a retry. */
  lemma GptJsonErrorRaisesNameError(service: (ClassifierCall, nat) -> Reply<Json>, systemPrompt: string, value: string, s: nat)
    requires s < ClassifyMaxRetries
    requires forall j :: 0 <= j < s ==> service(GptCall(systemPrompt, "gpt", value), j) == Err(OpenAIError)
    requires service(GptCall(systemPrompt, "gpt", value), s) == Err(JsonDecodeError)
    ensures ClassifierRun(service, systemPrompt, "gpt", value) == Run(Raised(NameError), s + 1, BackoffsFrom(0, s))
  {
    var reply := Replies(service, GptCall(systemPrompt, "gpt", value));
    forall j | 0 <= j < s ensures Retried(GptHandling, reply(j)) {
      assert reply(j) == service(GptCall(systemPrompt, "gpt", value), j);
    }
    assert reply(s) == Err(JsonDecodeError);
    FirstUncaughtRaised(ClassifyMaxRetries, GptHandling, reply, s);
  }

  // ---------------------------------------------------------------------
  // main
  // ---------------------------------------------------------------------

  /** The markdown file read for a bill: the amended one when it exists. */
  function BillFileName(bill: string, mdFiles: map<string, string>): (name: string)
    ensures name == bill + "_amended.md" || name == bill + ".md"
    ensures name == bill + "_amended.md" <==> bill + "_amended.md" in mdFiles
  {
    if bill + "_amended.md" in mdFiles then bill + "_amended.md" else bill + ".md"
  }

  /** What the loop gets for one bill: the classifier's outcome, or FileNotFoundError from open. */
  function BillAnswer(service: (ClassifierCall, nat) -> Reply<Json>, systemPrompt: string, model: string, bill: string,
                      mdFiles: map<string, string>): Outcome<Json>
  {
    var name := BillFileName(bill, mdFiles);
    if name !in mdFiles then Raised(FileNotFoundError) else ClassifierRun(service, systemPrompt, model, mdFiles[name]).outcome
  }

  datatype Answers = AllAnswered(responses: seq<Option<Json>>) | Stopped(error: ErrorKind)

  /**
   * The loop over the bills: one response per bill, in order, unless a bill
   * raises, which ends the script.
   */
  function AnswerAll(service: (ClassifierCall, nat) -> Reply<Json>, systemPrompt: string, model: string,
                     bills: seq<string>, mdFiles: map<string, string>): (r: Answers)
    ensures r.AllAnswered? ==> |r.responses| == |bills|
  {
    if |bills| == 0 then AllAnswered([])
    else
      match AnswerAll(service, systemPrompt, model, bills[..|bills| - 1], mdFiles)
      case Stopped(e) => Stopped(e)
      case AllAnswered(rs) =>
        match BillAnswer(service, systemPrompt, model, bills[|bills| - 1], mdFiles)
        case Raised(e) => Stopped(e)
        case Returned(a) => AllAnswered(rs + [a])
  }

  /** When the loop answers every bill, the responses are the bills' answers, in order. */
  lemma {:induction false} AnswersInOrder(service: (ClassifierCall, nat) -> Reply<Json>, systemPrompt: string, model: string,
                                          bills: seq<string>, mdFiles: map<string, string>)
    requires AnswerAll(service, systemPrompt, model, bills, mdFiles).AllAnswered?
    ensures var rs := AnswerAll(service, systemPrompt, model, bills, mdFiles).responses;
      forall i :: 0 <= i < |bills| ==> BillAnswer(service, systemPrompt, model, bills[i], mdFiles) == Returned(rs[i])
  {
    if |bills| > 0 {
      var n := |bills| - 1;
      var init := bills[..n];
      AnswersInOrder(service, systemPrompt, model, init, mdFiles);
      assert forall i :: 0 <= i < n ==> init[i] == bills[i];
    }
  }

  /** When the loop stops, some bill raised the exception it stops with. */
  lemma {:induction false} StopHasCause(service: (ClassifierCall, nat) -> Reply<Json>, systemPrompt: string, model: string,
                                        bills: seq<string>, mdFiles: map<string, string>)
    requires AnswerAll(service, systemPrompt, model, bills, mdFiles).Stopped?
    ensures var e := AnswerAll(service, systemPrompt, model, bills, mdFiles).error;
      exists i :: 0 <= i < |bills| && BillAnswer(service, systemPrompt, model, bills[i], mdFiles) == Raised(e)
  {
    var n := |bills| - 1;
    var init := bills[..n];
    if AnswerAll(service, systemPrompt, model, init, mdFiles).Stopped? {
      StopHasCause(service, systemPrompt, model, init, mdFiles);
      var i :| 0 <= i < n && BillAnswer(service, systemPrompt, model, init[i], mdFiles) == Raised(AnswerAll(service, systemPrompt, model, init, mdFiles).error);
      assert init[i] == bills[i];
    } else {
      assert BillAnswer(service, systemPrompt, model, bills[n], mdFiles) == Raised(AnswerAll(service, systemPrompt, model, bills, mdFiles).error);
    }
  }

  /** When no bill raises, the loop answers them all. */
  lemma {:induction false} NoRaiseAllAnswered(service: (ClassifierCall, nat) -> Reply<Json>, systemPrompt: string, model: string,
                                              bills: seq<string>, mdFiles: map<string, string>)
    requires forall i :: 0 <= i < |bills| ==> BillAnswer(service, systemPrompt, model, bills[i], mdFiles).Returned?
    ensures AnswerAll(service, systemPrompt, model, bills, mdFiles).AllAnswered?
  {
    if |bills| > 0 {
      var n := |bills| - 1;
      var init := bills[..n];
      assert forall i :: 0 <= i < n ==> init[i] == bills[i];
      NoRaiseAllAnswered(service, systemPrompt, model, init, mdFiles);
      assert BillAnswer(service, systemPrompt, model, bills[n], mdFiles).Returned?;
    }
  }

  lemma StoppedOneMore(service: (ClassifierCall, nat) -> Reply<Json>, systemPrompt: string, model: string,
                       bills: seq<string>, mdFiles: map<string, string>, e: ErrorKind)
    requires |bills| > 0
    requires AnswerAll(service, systemPrompt, model, bills[..|bills| - 1], mdFiles) == Stopped(e)
    ensures AnswerAll(service, systemPrompt, model, bills, mdFiles) == Stopped(e)
  {
  }

  /** Once the loop stops, later bills do not change how it ended. */
  lemma {:induction false} StoppedStaysStopped(service: (ClassifierCall, nat) -> Reply<Json>, systemPrompt: string, model: string,
                                               bills: seq<string>, mdFiles: map<string, string>, k: nat, e: ErrorKind)
    requires k <= |bills|
    requires AnswerAll(service, systemPrompt, model, bills[..k], mdFiles) == Stopped(e)
    ensures AnswerAll(service, systemPrompt, model, bills, mdFiles) == Stopped(e)
    decreases |bills| - k
  {
    if k < |bills| {
      assert bills[..k + 1][..k] == bills[..k];
      StoppedOneMore(service, systemPrompt, model, bills[..k + 1], mdFiles, e);
      StoppedStaysStopped(service, systemPrompt, model, bills, mdFiles, k + 1, e);
    } else {
      assert bills[..k] == bills;
    }
  }

  /** One more bill after the loop has answered the first k of them. */
  lemma AnsweredOneMore(service: (ClassifierCall, nat) -> Reply<Json>, systemPrompt: string, model: string,
                        bills: seq<string>, mdFiles: map<string, string>, k: nat, responses: seq<Option<Json>>)
    requires k < |bills|
    requires AnswerAll(service, systemPrompt, model, bills[..k], mdFiles) == AllAnswered(responses)
    ensures AnswerAll(service, systemPrompt, model, bills[..k + 1], mdFiles) ==
      match BillAnswer(service, systemPrompt, model, bills[k], mdFiles)
      case Raised(e) => Stopped(e)
      case Returned(a) => AllAnswered(responses + [a])
  {
    assert bills[..k + 1][..k] == bills[..k];
  }

  /** One iteration of the loop: open the bill's markdown file and classify it. */
  method AnswerBill(service: (ClassifierCall, nat) -> Reply<Json>, systemPrompt: string, model: string,
                    bill: string, mdFiles: map<string, string>)
    returns (outcome: Outcome<Json>)
    ensures outcome == BillAnswer(service, systemPrompt, model, bill, mdFiles)
  {
    var name := BillFileName(bill, mdFiles);
    if name !in mdFiles {
      return Raised(FileNotFoundError);
    }
    var run := Classify(service, systemPrompt, model, mdFiles[name]);
    outcome := run.outcome;
  }

  /** The loop of main over the bill numbers, for a service whose key is set. */
  method AnswerBills(service: (ClassifierCall, nat) -> Reply<Json>, systemPrompt: string, model: string,
                     bills: seq<string>, mdFiles: map<string, string>)
    returns (answers: Answers)
    ensures answers == AnswerAll(service, systemPrompt, model, bills, mdFiles)
  {
    var responses: seq<Option<Json>> := [];
    for k := 0 to |bills|
      invariant AnswerAll(service, systemPrompt, model, bills[..k], mdFiles) == AllAnswered(responses)
    {
      AnsweredOneMore(service, systemPrompt, model, bills, mdFiles, k, responses);
      var outcome := AnswerBill(service, systemPrompt, model, bills[k], mdFiles);
      if outcome.Raised? {
        StoppedStaysStopped(service, systemPrompt, model, bills, mdFiles, k + 1, outcome.error);
        return Stopped(outcome.error);
      }
      responses := responses + [outcome.answer];
    }
    assert bills[..|bills|] == bills;
    answers := AllAnswered(responses);
  }

  datatype QaOutcome =
    | MissingApiKey                        // the key for the chosen service is not set: nothing is processed
    | Crashed(error: ErrorKind)            // an exception left the loop
    | Saved(responses: seq<Option<Json>>)  // the rows of legislation_model_responses.csv beside the input rows

  predicate KeyMissing(model: string, geminiKey: Option<string>, openaiKey: Option<string>) {
    (model == "gemini" && geminiKey.None?) || (model == "gpt" && openaiKey.None?)
  }

  /** main(args), for the given bill numbers and markdown directory. */
  method AnswerQuestions(service: (ClassifierCall, nat) -> Reply<Json>, model: string,
                         geminiKey: Option<string>, openaiKey: Option<string>,
                         bills: seq<string>, mdFiles: map<string, string>)
    returns (outcome: QaOutcome)
    ensures KeyMissing(model, geminiKey, openaiKey) ==> outcome == MissingApiKey
    ensures !KeyMissing(model, geminiKey, openaiKey) ==>
      match AnswerAll(service, SystemPrompt(), model, bills, mdFiles)
      case AllAnswered(rs) => outcome == Saved(rs)
      case Stopped(e) => outcome == Crashed(e)
  {
    if model == "gemini" && geminiKey.None? {
      return MissingApiKey;
    }
    if model == "gpt" && openaiKey.None? {
      return MissingApiKey;
    }
    var answers := AnswerBills(service, SystemPrompt(), model, bills, mdFiles);
    match answers
    case AllAnswered(rs) => outcome := Saved(rs);
    case Stopped(e) => outcome := Crashed(e);
  }
}
