# Legi-Scanner, modelled in Dafny

Legi-Scanner collects the bills passed in a Maryland General Assembly
session and asks language models questions about them. This project models
the control flow and the name and text derivations of four of its scripts.
External calls are modelled as oracles, and the properties those scripts
rely on are proved:

- `download_legislation.py` fetches the report of passed bills and cleans
  the bill numbers. For every bill it fetches the details page and keeps
  the synopsis. It picks the bill PDF link and the amendment links that
  follow it from the page's second table, then downloads those PDFs as
  `{bill}.pdf` and `{bill}_amd{i}.pdf`.
- `llm_utils.py` (`query_llm_with_retries`) sends one request, shaped by
  the model family, through a bounded retry loop. The loop sleeps 2**k
  seconds after failed attempt k and returns `None` when the attempts run
  out.
- `leg_qa.py` builds the system prompt from the ordered question table and
  shapes the prompt for Gemini (one string) or the chat services (two
  messages). It runs the 3-attempt Gemini and GPT classifiers or the
  single-call Ollama one. For every bill it reads `{bill}_amended.md` when
  that file exists, else `{bill}.md`, and keeps one response per bill, in
  order.
- `amend_leg_md.py` derives the bill number from each `*_amd*.md` file and
  fills the tagged prompt with the bill and the amendment. It writes the
  model's answer to `{bill}_amended.md`, but only when that file does not
  exist yet.

## Modules

| file | module | contents |
|---|---|---|
| `wrappers.dfy` | `Wrappers` | `Option` |
| `oracles.dfy` | `Oracles` | exception kinds, `Reply` (the answer of an external call), chat messages, JSON answers |
| `text.dfy` | `Text` | the Python string and path operations used: `startswith`, `str(n)`, `join`, `split`, `format` with `{}` fields, `os.path.join`, `basename`, `splitext` |
| `retry.dfy` | `Retry` | the retry-with-backoff loop that the scripts write out three times, with its handlers as a parameter |
| `llm_utils.dfy` | `LlmUtils` | `query_llm_with_retries` |
| `download_legislation.dfy` | `DownloadLegislation` | the download script |
| `leg_qa.dfy` | `LegQa` | the question-answering script |
| `amend_leg_md.dfy` | `AmendLegMd` | the amendment script; the markdown directory is a class whose `files` map the methods update |

How the scripts' loops are modelled:

- Every loop of the scripts is a method with a loop whose invariant ties
  its state to a specification function of the input. Examples:
  `RunFrom`/`RetryRun`, `ScanLinks`, `WriteFetched`, `SessionRun`,
  `AnswerAll` and `AmendAll`.
- The properties the scripts promise are proved about those functions.
- Each external call is a function parameter: the report, page and PDF
  fetches, the model services and the Gemini generate call. Every call
  answers `Ok(value)` or `Err(kind)`, where `kind` is the exception class
  it raises.
- A retrying call takes the attempt number as an argument, so successive
  attempts may answer differently.

What the code does that shapes the model:

- **No retry around the amendment call.** `gemini_query` is a single call,
  and an exception from it ends the script (`AmendLegMd.AmendStep`). A
  reply without text still creates the output file, empty, before
  `write(None)` raises TypeError.
- **Only some failures are skipped.** A PDF download that fails with a
  request error or an IOError (FileNotFoundError included) is reported and skipped. Any other exception
  from a PDF download ends the script, and so does a failed report or
  details-page request. In each case the CSV is not written
  (`DownloadLegislation.DownloadSession`).
- **The empty-report branch is not reached.** `pandas.read_html` raises
  ValueError when the response holds no table. So the `if not tables`
  branch at code/download_legislation.py:43-45 does not run: the script
  ends with that ValueError instead.

## Model

| member | source | states |
|---|---|---|
| Text.NatToDecimal | code/download_legislation.py:116 | `str(i)` of a non-negative number is a non-empty string of decimal digits, with no leading zero except for 0 itself |
| Text.DecimalRoundTrip | code/download_legislation.py:116 | reading the digits of `str(n)` gives back n |
| Text.NatToDecimalInjective | code/download_legislation.py:116 | `str(m) == str(n)` exactly when m == n |
| Text.IntToDecimal | code/download_legislation.py:19 | `str(y)` of a session year starts with '-' exactly for negative years; for the others it is digits denoting y |
| Text.Split | code/amend_leg_md.py:36 | `split('_')` gives at least one part, no part holds the separator, and the first part is the string's prefix up to the first separator or the end |
| Text.JoinSplit | code/amend_leg_md.py:36 | joining the parts of a split with the separator gives back the string |
| Text.SplitJoin | code/leg_qa.py:47 | splitting a newline-join of separator-free strings gives back exactly those strings |
| Text.Fill | code/leg_qa.py:39-48 | `format` of a template with `{}` fields starts with the text before the first field and ends with the text after the last |
| Text.FillTwoFields | code/amend_leg_md.py:46 | in a filled two-field template both arguments stand verbatim at offsets fixed by the template pieces and the first argument's length |
| Text.RFind | code/amend_leg_md.py:34 | `rfind` gives -1 or an index holding the character, with no occurrence after it |
| Text.PathJoin | code/download_legislation.py:102 | `os.path.join(dir, name)` ends with name |
| Text.PathJoinInjective | code/download_legislation.py:102-116 | in one directory, two relative (or two absolute) names give the same path exactly when they are equal |
| Text.BasenameShape | code/amend_leg_md.py:34 | `basename` holds no '/', ends the path, and follows a '/' unless it is the whole path |
| Text.StripExtensionShape | code/amend_leg_md.py:35 | the root of `splitext` is a prefix of the path; any cut-off extension starts with '.' and holds no further '.' or '/' |
| Retry.RunFrom | code/llm_utils.py:20-86 | the attempt loop from attempt k of n, as a function: a success returns, a caught failure sleeps 2**k and retries unless k is the last attempt, an uncaught one leaves the loop (its shape: RunFromShape) |
| Retry.RetryRun | code/llm_utils.py:20-86 | the whole loop: max(max_retries, 0) attempts from attempt 0 |
| Retry.RetryWithBackoff | code/llm_utils.py:20-86 | the attempt loop returns exactly the run `RetryRun` specifies (outcome, number of attempts, sleeps taken), and it queries attempts 0, 1, ..., attempts-1 in that order |
| Retry.RunFromShape | code/llm_utils.py:20-86 | from attempt k the loop makes between 1 and n-k attempts, sleeps 2**j after each attempt j but the last, retried every attempt but the last, and its outcome is the last attempt's value, its uncaught exception, or None after a caught failure of attempt n-1 |
| Retry.RetryAttemptsBounded | code/llm_utils.py:20-86 | at most max(max_retries, 0) attempts are made; with max_retries <= 0 none is made and None is returned without a sleep |
| Retry.RetrySleepSchedule | code/llm_utils.py:58-85 | one sleep after every attempt but the last one made; the j-th is 2**j seconds; every earlier attempt failed with a caught exception |
| Retry.RetryOutcomeOfLastAttempt | code/llm_utils.py:20-86 | the outcome is the last attempt's success, the exception it lets out, or None after a caught failure of attempt max_retries-1 |
| Retry.FirstSuccessReturned | code/llm_utils.py:21-55 | the first success after caught failures is returned at once: s+1 attempts and the sleeps 1, 2, ..., 2**(s-1), nothing more |
| Retry.FirstUncaughtRaised | code/leg_qa.py:124-155 | the first exception the handlers do not catch (after caught ones) leaves the loop at once, as the exception its handler raises |
| Retry.ExhaustedReturnsNone | code/llm_utils.py:58-86 | when every attempt fails with a caught exception, all attempts are made, max_retries-1 sleeps are taken, and None is returned |
| Retry.CatchAllNeverRaisesFrom | code/llm_utils.py:76-85 | a loop whose handlers catch every exception never lets one out |
| LlmUtils.OllamaFormat | code/llm_utils.py:29 | the Ollama format is the JSON schema of a pydantic model class, else the response format itself |
| LlmUtils.BuildRequest | code/llm_utils.py:22-57 | a request exists exactly for the families ollama, gemini and gpt, of the matching shape, with the model name; the chat shapes carry the system prompt then the user value; Ollama gets temperature 0.2; Gemini gets the value as contents, the prompt as system instruction and JSON output |
| LlmUtils.QueryRun | code/llm_utils.py:15-86 | the retry loop with catch-all handlers over the family's request |
| LlmUtils.QueryWithRetries | code/llm_utils.py:15-86 | the answer and sleeps are those of the retry loop run with catch-all handlers, which never raises; attempt k sends the family's request with attempt number k, one service call per attempt, and there is no call for an unknown family |
| LlmUtils.UnknownFamilyReturnsNone | code/llm_utils.py:56-85 | an unknown family uses up every attempt through the generic handler and returns None, with the full sleep schedule |
| LlmUtils.DefaultFamilySendsGemini | code/llm_utils.py:15-43 | with the default model_family 'gemini', every attempt sends the Gemini request: the value as contents, the prompt as system instruction, JSON as response type, the format as schema |
| LlmUtils.DefaultSchedule | code/llm_utils.py:15-63 | with the default of 5 retries, 1 to 5 attempts are made and the sleeps are a prefix of 1, 2, 4, 8 seconds |
| DownloadLegislation.PassedType | code/download_legislation.py:13-16 | the report type is 'passedByBoth' exactly for 2025 and 'chapters' exactly otherwise |
| DownloadLegislation.ReportQueryFor | code/download_legislation.py:13-21 | the report request: session `{year}rs` and the report type `PassedType` gives for that year |
| DownloadLegislation.DetailsUrl | code/download_legislation.py:56 | the details-page URL: the site, `/mgawebsite/Legislation/Details/`, the bill number and `?ys={year}rs` |
| DownloadLegislation.FirstParenMatch | code/download_legislation.py:48 | the leftmost position where whitespace, '(' and a run without newlines reach a ')' at the end (or before a final newline), if any |
| DownloadLegislation.CleanBillNumber | code/download_legislation.py:48 | the cleaned number is a prefix of the raw one, apart from a kept final newline |
| DownloadLegislation.CleanStripsParenthetical | code/download_legislation.py:48 | a number ending in ')' loses everything from its first whitespace-then-'(' onward |
| DownloadLegislation.CleanKeepsOtherNumbers | code/download_legislation.py:48 | any other number is left unchanged |
| DownloadLegislation.CleanColumn | code/download_legislation.py:48 | one cleaned number per row of the report |
| DownloadLegislation.PrefixesExclusive | code/download_legislation.py:81-89 | no href has both the bill and the amendment prefix, so the order of the two tests does not matter |
| DownloadLegislation.LastIndexWithPrefix | code/download_legislation.py:84-87 | the last href with the bill prefix, or none if no href has it |
| DownloadLegislation.WithPrefixMembers | code/download_legislation.py:89-92 | the kept amendment links are exactly the hrefs with the amendment prefix |
| DownloadLegislation.ScanLinks | code/download_legislation.py:75-92 | the anchor scan as a function: the last bill link and the amendment links after it (its properties: ScanLinksKeeps, ScanStep, EverythingBeforeBillLinkIgnored) |
| DownloadLegislation.ScanLinksKeeps | code/download_legislation.py:75-92 | without a bill link nothing is kept; the kept bill link and amendment links are hrefs of the page with the right prefixes |
| DownloadLegislation.ScanStep | code/download_legislation.py:84-92 | one anchor: a bill link replaces the bill link and clears the amendment list; an amendment link is appended only after a bill link; any other href changes nothing |
| DownloadLegislation.EverythingBeforeBillLinkIgnored | code/download_legislation.py:86-92 | whatever precedes a bill link, amendment links included, has no effect on the result |
| DownloadLegislation.ScanAnchors | code/download_legislation.py:75-92 | the anchor loop ends with the last bill link and the amendment links after it, in document order |
| DownloadLegislation.PdfDownloads | code/download_legislation.py:95-116 | without a bill link nothing is downloaded; otherwise len(amendments)+1 downloads, the bill PDF to `{bill}.pdf` and amendment i (from 1) to `{bill}_amd{i}.pdf`, each from the site URL of its link |
| DownloadLegislation.FewTablesNothingDownloaded | code/download_legislation.py:77-95 | a page with fewer than two tables yields no download |
| DownloadLegislation.AmendmentPdfNamesDistinct | code/download_legislation.py:114-116 | different amendment numbers give different file names |
| DownloadLegislation.PdfNamesDistinct | code/download_legislation.py:102-116 | the bill PDF and every amendment PDF of a bill have different paths |
| DownloadLegislation.DownloadPathsDistinct | code/download_legislation.py:97-116 | the downloads of one bill never share a path |
| DownloadLegislation.Caught | code/download_legislation.py:108-111 | the download of a PDF catches exactly RequestException and IOError, which as OSError includes FileNotFoundError |
| DownloadLegislation.WriteFetched | code/download_legislation.py:95-126 | one bill's downloads as a function: a fetched PDF is written to its path, a caught failure (a request error, an IOError, or FileNotFoundError) is reported and skipped, any other exception ends the script with nothing more written |
| DownloadLegislation.CaughtFailuresNeverCrash | code/download_legislation.py:103-126 | when every failed download is a request error, an IOError or FileNotFoundError, the downloads never end the script |
| DownloadLegislation.FirstUncaught | code/download_legislation.py:103-126 | the position of the first download whose exception is not caught, or the number of downloads: no earlier download raises one, and that one does |
| DownloadLegislation.WriteFetchedCrash | code/download_legislation.py:103-126 | the loop ends with the exception of the first download that raises an uncaught one, and with none when no download does |
| DownloadLegislation.WriteFetchedSaves | code/download_legislation.py:103-126 | with distinct paths, every download that succeeds before the first uncaught exception is saved to its own path |
| DownloadLegislation.WriteFetchedKeeps | code/download_legislation.py:103-126 | a path that no download succeeding before the first uncaught exception targets keeps its contents, or stays absent |
| DownloadLegislation.DownloadsStopAfterCrash | code/download_legislation.py:103-126 | after an uncaught exception the remaining downloads change nothing |
| DownloadLegislation.DownloadPdfs | code/download_legislation.py:103-126 | the download loop leaves exactly the files and the exception `WriteFetched` specifies |
| DownloadLegislation.ProcessBill | code/download_legislation.py:73-126 | one bill: its second table, if any, is scanned, and its PDFs are downloaded, with exactly the files and exception `WriteFetched` gives for the scanned links |
| DownloadLegislation.BillStep | code/download_legislation.py:54-126 | one bill as a function: a failed page request ends the script; otherwise the synopsis is appended, then the PDFs are downloaded |
| DownloadLegislation.SessionRun | code/download_legislation.py:54-126 | the bill loop as a function: the bills in order, until one ends the script |
| DownloadLegislation.BillCrash | code/download_legislation.py:54-126 | the exception a bill ends the script with: that of its page request, else that of its first uncaught download, else none |
| DownloadLegislation.FirstCrash | code/download_legislation.py:54-126 | the number of leading bills that end the script with no exception; the next bill, if any, raises one |
| DownloadLegislation.SessionStep | code/download_legislation.py:54-126 | while no exception has ended the loop, one more bill is one more `BillStep` |
| DownloadLegislation.SessionStopsAfterCrash | code/download_legislation.py:54-126 | once an exception has ended the loop, later bills change nothing |
| DownloadLegislation.SessionRunCrash | code/download_legislation.py:54-126 | the loop ends with the exception of the first bill that raises one, and with none when no bill does |
| DownloadLegislation.BillStepClean | code/download_legislation.py:54-71 | a bill that raises nothing had its page fetched and appends its synopsis |
| DownloadLegislation.SessionRunPagesFetched | code/download_legislation.py:54-58 | a loop that raises nothing fetched every details page |
| DownloadLegislation.SessionRunSynopses | code/download_legislation.py:54-71 | a loop that raises nothing has the synopsis of every bill, in order |
| DownloadLegislation.ProcessBills | code/download_legislation.py:54-126 | the bill loop leaves exactly the files, synopses and exception `SessionRun` specifies |
| DownloadLegislation.DownloadSession | code/download_legislation.py:12-134 | a failed report request ends the run with no file saved; a report without a table saves nothing; otherwise the bill loop runs over the cleaned numbers, and the rows with their synopses are saved exactly when no exception ended the loop |
| LegQa.QuestionKeysMatchSchema | code/leg_qa.py:24-64 | the 11 question keys are the answer model's field names, in the same order |
| LegQa.QuestionLines | code/leg_qa.py:47 | one line per question |
| LegQa.SystemPromptLayout | code/leg_qa.py:39-48 | the system prompt is the introduction, then `- {key}: {question}` for every question in table order joined by newlines, then the closing instruction |
| LegQa.SystemPrompt | code/leg_qa.py:39-48 | SYSTEM_PROMPT: the template filled with the question lines joined by newlines (its layout: SystemPromptLayout) |
| LegQa.GeminiHeader | code/leg_qa.py:50 | GEMINI_SYSTEM_PROMPT up to its field: the system prompt, then the markdown header |
| LegQa.FormattedPrompt | code/leg_qa.py:67-83 | for 'gemini' one string: the system prompt, the markdown header, then the bill text; otherwise exactly two messages, the system prompt then a user message |
| LegQa.PromptCarriesBillText | code/leg_qa.py:67-83 | both prompt shapes carry the bill text verbatim after the fixed instructions |
| LegQa.GeminiHandling | code/leg_qa.py:102-120 | geminiClassify retries exactly server errors and JSON decode errors; every other exception leaves the loop |
| LegQa.GptHandling | code/leg_qa.py:136-154 | gptClassify retries exactly OpenAIError; its JSON decode handler raises NameError; other exceptions leave the loop |
| LegQa.GeminiClassify | code/leg_qa.py:86-121 | the 4-second pause, then the 3-attempt retry loop with Gemini's handlers on the Gemini request |
| LegQa.GptClassify | code/leg_qa.py:124-155 | the 3-attempt retry loop with GPT's handlers on the GPT request |
| LegQa.OllamaClassify | code/leg_qa.py:158-166 | one call, no retry, no sleep: its answer or its exception |
| LegQa.Classify | code/leg_qa.py:169-190 | 'gemini' uses geminiClassify, 'gpt' uses gptClassify, any other model ollamaClassify |
| LegQa.ClassifierRun | code/leg_qa.py:169-190 | the run of the classifier the model name selects, as a function |
| LegQa.ClassifierSchedule | code/leg_qa.py:86-166 | 1 to 3 attempts; Gemini sleeps 4 then 1, 2 between failures, GPT 1, 2, and Ollama makes one attempt without sleeping |
| LegQa.ThreeAttemptSchedule | code/leg_qa.py:89-155 | a 3-attempt loop makes 1 to 3 attempts with sleeps a prefix of 1, 2 |
| LegQa.GeminiGivesUpAfterThreeFailures | code/leg_qa.py:89-121 | three caught Gemini failures give None after three attempts, with sleeps 4, 1 and 2 |
| LegQa.GptJsonErrorRaisesNameError | code/leg_qa.py:145-154 | a JSON decode error in gptClassify ends the run with NameError, not a retry |
| LegQa.BillFileName | code/leg_qa.py:203-205 | `{bill}_amended.md` exactly when it exists, else `{bill}.md` |
| LegQa.BillAnswer | code/leg_qa.py:203-208 | one bill's answer as a function: FileNotFoundError when the chosen file is missing, else the classifier's outcome on its text |
| LegQa.AnswerAll | code/leg_qa.py:201-209 | a completed loop has one response per bill |
| LegQa.AnswersInOrder | code/leg_qa.py:199-212 | response i is the answer for bill i |
| LegQa.StopHasCause | code/leg_qa.py:201-209 | a loop that stops does so with the exception of one of the bills |
| LegQa.NoRaiseAllAnswered | code/leg_qa.py:201-209 | when no bill raises, every bill is answered |
| LegQa.StoppedStaysStopped | code/leg_qa.py:201-209 | once a bill raises, later bills do not change how the loop ends |
| LegQa.AnsweredOneMore | code/leg_qa.py:201-209 | one more bill either appends its answer or stops the loop with its exception |
| LegQa.AnswerBill | code/leg_qa.py:203-208 | one bill: the chosen file is read and classified; a missing file raises FileNotFoundError |
| LegQa.AnswerBills | code/leg_qa.py:201-209 | the bill loop gives exactly the answers `AnswerAll` specifies |
| LegQa.AnswerQuestions | code/leg_qa.py:169-215 | a missing Gemini or OpenAI key ends the script before any bill; otherwise the responses are saved, or the exception of a bill ends the script |
| AmendLegMd.GeminiQuery | code/amend_leg_md.py:21-26 | every query goes to model gemini-2.5-pro with the prompt as contents |
| AmendLegMd.AmendPrompt | code/amend_leg_md.py:46 | PROMPT_TEMPLATE.format(bill_md, amendment_md): the template pieces around the two texts |
| AmendLegMd.PromptCarriesTexts | code/amend_leg_md.py:11-18 | the bill text stands verbatim right after `<bill>\n` and before `\n</bill>`; the amendment text stands between the `<amendment>` tags; the prompt ends with the closing tag |
| AmendLegMd.IsAmendmentName | code/amend_leg_md.py:31-32 | the glob `*_amd*.md`: a name with no '/', not starting with '.', ending in `.md` with `_amd` before that ending |
| AmendLegMd.BillNumberOf | code/amend_leg_md.py:34-36 | the first '_'-separated part of the extension-less basename |
| AmendLegMd.BillNumberOfShape | code/amend_leg_md.py:34-36 | the bill number is the extension-less basename up to its first '_', or all of it, and holds no '_' or '/' |
| AmendLegMd.BillNumberOfAmendmentFile | code/amend_leg_md.py:30-36 | `{bill}_amd{k}.md` in the directory matches the glob and yields bill number `bill` |
| AmendLegMd.AmendedNameNotAmendment | code/amend_leg_md.py:31-44 | an output `{bill}_amended.md` never matches the amendment glob |
| AmendLegMd.OutputNeverGlobbed | code/amend_leg_md.py:30-44 | the output path of any amendment file is not a path the amendment glob matches in the directory |
| AmendLegMd.BillAndOutputDiffer | code/amend_leg_md.py:37-44 | the bill file read and the output file written are different files, so the amendment is applied to the original bill |
| AmendLegMd.AmendStep | code/amend_leg_md.py:34-49 | one amendment: a missing bill or amendment file raises FileNotFoundError; an existing output means nothing is queried or written; otherwise the answer text is written to `{bill}_amended.md`, a reply without text leaves that file empty and raises TypeError, and the query's exception ends the script with nothing written; nothing else changes |
| AmendLegMd.AmendAll | code/amend_leg_md.py:33-49 | the loop as a function: `AmendStep` for each amendment file in glob order, until an exception |
| AmendLegMd.NeverOverwrites | code/amend_leg_md.py:45-49 | no existing file is overwritten or removed; every new file is the output of one of the amendment files |
| AmendLegMd.GlobListingKept | code/amend_leg_md.py:30-49 | when the amendment files are what the glob lists (every matching file once), the loop creates no file the glob matches, so the glob of the final directory lists the same files |
| AmendLegMd.EarlierWritesKept | code/amend_leg_md.py:33-49 | what the loop has written stays as written to the end, and after an exception nothing further changes |
| AmendLegMd.FirstAmendmentWins | code/amend_leg_md.py:43-49 | the first amendment that finds `{bill}_amended.md` missing fixes its final contents: the model's answer to that amendment's prompt, which no later amendment changes; a reply without text leaves the file empty and ends the script with TypeError; the query's exception ends the script with no file written |
| AmendLegMd.Directory.Read | code/amend_leg_md.py:39-42 | reading gives the contents of an existing file, else FileNotFoundError |
| AmendLegMd.Directory.Write | code/amend_leg_md.py:48-49 | writing sets that one file's contents and changes no other |
| AmendLegMd.AmendOne | code/amend_leg_md.py:34-49 | the loop body leaves the directory and the exception exactly as `AmendStep` specifies |
| AmendLegMd.ApplyAmendments | code/amend_leg_md.py:29-49 | over the glob's listing of the directory (every file matching `*_amd*.md` once, in any order), the loop leaves the directory and the exception exactly as `AmendAll` specifies, and the glob would still list the same files |
| AmendLegMd.AmendScript | code/amend_leg_md.py:55-61 | over the glob's listing of the directory: without GEMINI_API_KEY nothing changes; otherwise main runs with the Gemini query and PROMPT_TEMPLATE; either way the glob would still list the same files |

## Left out

- HTTP requests and HTML parsing (`requests`, `pandas.read_html`, BeautifulSoup) are oracles. A report is its list of raw 'Bill Number' cells, or none when it holds no table. `pandas.read_html` never gives that second answer: for a response without a table the oracle answers Err(ValueError), and `DownloadLegislation.DownloadSession` keeps the `NoTables` outcome only for the branch as written. A details page is its synopsis text, its number of tables and the hrefs of its second table's anchors; the synopsis lookup itself is not modelled.
- The language-model SDK calls, JSON decoding and pydantic validation are oracles answering a parsed JSON value or the exception class raised. A JSON answer is kept as opaque text.
- Sleeping is recorded as the list of durations, not performed; progress bars and console output are left out.
- Reading and writing CSV files with pandas, argparse and dotenv are left out. The bill numbers of `legislation.csv` and the API keys are inputs.
- The directory listing of `glob` is an input in an arbitrary order. `AmendLegMd.GlobListing` states which files it holds: each file of the directory that matches `*_amd*.md`, once. `AmendLegMd.ApplyAmendments` and `AmendLegMd.AmendScript` require the listing to be one of these.
- `os.path.abspath` is not modelled: the markdown directory is a parameter.
- `os.makedirs`, and an IOError while writing a PDF that was fetched, are not modelled: a fetched PDF is always saved whole. An IOError, FileNotFoundError included, counts only when the fetch itself answers it; it is then caught and skipped, as at code/download_legislation.py:110-111 and 125-126.
- `ollama.pull` before the Ollama classifier and the pandas concatenation of responses are left out.
- The Gemini service is a function of its request and attempt number, and the amendment service a function of its prompt. A model therefore answers the same prompt the same way within a run.
- Text.Split: stated for a one-character separator only, which is the only kind the scripts use.
- DownloadLegislation.CleanBillNumber: whitespace is the character set of Python's `\s` for str patterns, written out by code point.
- LegQa.SystemPromptLayout: the concrete question texts are not shown free of newlines and braces. The generic layer takes the system prompt and the amendment template as parameters, and their literal texts enter only at the top-level script methods.
- code/leg_to_md.py, code/leg_to_basic_txt.py and code/count_tokens.py are not part of this model: they wrap an OCR service, a PDF text extractor and a tokenizer.
