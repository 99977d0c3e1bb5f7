# Neuranet file ingestion, modelled in Dafny

Neuranet keeps an AI knowledge index in step with the files of a content-management store (XBin).
Every file mutation (create, delete, rename, modify) is published on an event bus. The
**lifecycle controller** (`fileindexer`) turns each event into one index operation. It gives the
operation to the first file-handling plugin that claims the file. When no plugin claims it, it
falls back to the default ingest, uningest or rename followed by `end()` (rebuild, then flush). It
brackets the operation with a PROCESSING and a PROCESSED progress publication.

Around the controller the model covers these components:

- the **Tika extractor** (`tika`), which turns a document into text. Plain text passes through;
  HTML is stripped natively; everything else goes to a spawned Apache Tika worker behind a
  digest-keyed on-disk cache.
- the **progress ledger** (`events`), which records per user and per CMS path what the
  controller published, and answers status queries.
- the **file-operation API** (`operatefile`), which reads, writes or re-comments a file. A
  successful write publishes the FILE_MODIFIED event that brings the file back through the
  controller.
- the **AI utilities** (`aiutils`): the prompt cache, the model registry with `inherits` chains and
  overrides, and the quota lookup.
- the **GPT driver** (`ailibGPT35`): the context-length guard, the bounded retry loop, response
  acceptance and sample-response directives.

Collaborators are given as function-typed fields of `Env` datatypes. These are the CMS path
functions, the index, the plugins, the HTTPS call, the Tika worker's events, the clock and the disk.
What a component does to them is recorded as a trace (`seq<Call>`, `seq<Step>`, `seq<Effect>`), so
that order and "nothing else happens" can be stated.

Most operations come as a pair:
- a pure specification function: `Handle`, `RunOp`, `Extract`, `Apply`, `PromptSpec`, `ModelSpec`,
  `AttemptsFrom`, `DirectiveOf`;
- an imperative `class` or `method` in the source's own shape, whose `ensures` ties its result and
  new state to that function.

The lemmas then state what the code promises about those functions.

Modules:
- `optional.dfy`: `Option`.
- `jsstring.dfy`: the JavaScript string built-ins the code relies on.
- `messages.dfy`: bus messages and JavaScript numbers.
- `fileindexer.dfy`, `tika.dfy`, `events.dfy`, `operatefile.dfy`, `aiutils.dfy` and `ailib.dfy`:
  one per source file.
- `pipeline.dfy`: how the components meet on the bus.

## Model

| member | source | states |
|---|---|---|
| JsString.LowerFolds | backend/apps/neuranet/neuranetapp/plugins/tika/tika.js:67 | `toLowerCase` keeps the length, leaves no capital letter, replaces each capital by its small letter and keeps every other character |
| JsString.LowerIdempotent | backend/apps/neuranet/neuranetapp/plugins/tika/tika.js:67 | lower-casing a lower-cased string changes nothing |
| JsString.Trim | backend/apps/neuranet/xbinapp/apis/operatefile.js:26 | `trim` returns the infix of the string outside which there is only whitespace, and which neither starts nor ends with whitespace |
| JsString.TrimOfTrimmed | backend/apps/neuranet/neuranetapp/lib/ailibGPT35.js:114 | a string without surrounding whitespace is its own trim |
| JsString.LastIndexOf | backend/apps/neuranet/neuranetapp/plugins/tika/tika.js:77 | the index found holds the character and no later index does; -1 when absent |
| JsString.Split | backend/apps/neuranet/neuranetapp/lib/ailibGPT35.js:114 | `split` yields at least one part and no part contains the separator |
| JsString.JoinSplit | backend/apps/neuranet/neuranetapp/lib/ailibGPT35.js:114 | joining the parts of a split with the separator gives back the string |
| JsString.SplitJoin | backend/apps/neuranet/neuranetapp/lib/ailibGPT35.js:114 | splitting a join of separator-free parts gives back the parts |
| JsString.DecimalInjective | backend/apps/neuranet/neuranetapp/plugins/tika/tika.js:82 | distinct numbers have distinct decimal spellings |
| FileIndexer.Dispatch | backend/apps/neuranet/neuranetapp/lib/fileindexer.js:105-128 | a directory event starts nothing; each operation is started iff the type is that mutation's XBin or Neuranet constant and the needed path fields are present; the operation carries the event's paths |
| FileIndexer.Handle | backend/apps/neuranet/neuranetapp/lib/fileindexer.js:91-129 | a directory event or an event of another type makes no call |
| FileIndexer.ResolveFrom | backend/apps/neuranet/neuranetapp/lib/fileindexer.js:166-175 | the plugin found is the first one whose `canHandle` claims or throws, and every earlier plugin declined |
| FileIndexer.RunOp | backend/apps/neuranet/neuranetapp/lib/fileindexer.js:131-157 | an operation never publishes on the bus itself |
| FileIndexer.RunOpClaimed | backend/apps/neuranet/neuranetapp/lib/fileindexer.js:135 | a claiming plugin is consulted last, its method runs exactly once and decides the outcome (a throw rejects), and neither the index nor `end()` is called |
| FileIndexer.RunOpPluginError | backend/apps/neuranet/neuranetapp/lib/fileindexer.js:136 | a `canHandle` that throws a truthy error yields `{result:false, cause:"Plugin validation failed."}` after consulting only the plugins up to it, with no index call and no `end()` |
| FileIndexer.RunOpFalsyError | backend/apps/neuranet/neuranetapp/lib/fileindexer.js:136-137 | a `canHandle` that throws a falsy value stops the search there, yet the operation takes the default path: one index call, then `end()`, and the index's result |
| FileIndexer.RunOpUnclaimed | backend/apps/neuranet/neuranetapp/lib/fileindexer.js:137 | with no claimant every plugin is asked once, then exactly one default index call and one rebuild run, in that order, and the outcome is the index's result |
| FileIndexer.EndCallsCount | backend/apps/neuranet/neuranetapp/lib/fileindexer.js:205-206 | `end()` rebuilds once, and flushes once only when the rebuild did not throw |
| FileIndexer.RenameSearchesSource | backend/apps/neuranet/neuranetapp/lib/fileindexer.js:149-157 | a rename consults plugins on the source context and runs the chosen method on the context with its target set |
| FileIndexer.BracketShape | backend/apps/neuranet/neuranetapp/lib/fileindexer.js:92-101 | the bracket publishes PROCESSING once and PROCESSED once unless the operation rejects; all its other calls are the operation's, in order |
| FileIndexer.HandleSingle | backend/apps/neuranet/neuranetapp/lib/fileindexer.js:114-123 | for create, delete and rename, the calls are exactly the operation's plus PROCESSING, and PROCESSED with the operation's result as the last call when it completed |
| FileIndexer.HandleModify | backend/apps/neuranet/neuranetapp/lib/fileindexer.js:124-128 | a modify runs the whole uningest first without publishing; if it rejects nothing else happens; otherwise the ingest follows, bracketed under MODIFIED |
| FileIndexer.RenameFileFromCMSRepository | backend/apps/neuranet/neuranetapp/lib/fileindexer.js:85-89 | the move always suppresses the AI event, whatever the caller passed |
| FileIndexer.FileContext.End | backend/apps/neuranet/neuranetapp/lib/fileindexer.js:205-206 | true iff neither rebuild nor flush throws; logs rebuild, then flush unless rebuild threw |
| FileIndexer.FileContext.AddFileToAI | backend/apps/neuranet/neuranetapp/lib/fileindexer.js:208-220 | TRUE_RESULT iff the index ingest resolved with a truthy `result`; one index call |
| FileIndexer.FileContext.RemoveFileFromAI | backend/apps/neuranet/neuranetapp/lib/fileindexer.js:221-230 | TRUE_RESULT iff the index uningest resolved with a truthy `result`; one index call |
| FileIndexer.FileContext.RenameFileToAI | backend/apps/neuranet/neuranetapp/lib/fileindexer.js:231-241 | TRUE_RESULT iff the index rename resolved with a truthy `result`; one index call with both full paths |
| FileIndexer.Indexer.SearchForFilePlugin | backend/apps/neuranet/neuranetapp/lib/fileindexer.js:166-175 | the loop returns the resolution of the ordered plugin search and logs exactly the `canHandle` calls it made |
| FileIndexer.Indexer.IngestFile | backend/apps/neuranet/neuranetapp/lib/fileindexer.js:131-138 | outcome and calls are those of the ingest specification |
| FileIndexer.Indexer.UningestFile | backend/apps/neuranet/neuranetapp/lib/fileindexer.js:140-147 | outcome and calls are those of the uningest specification |
| FileIndexer.Indexer.RenameFile | backend/apps/neuranet/neuranetapp/lib/fileindexer.js:149-157 | outcome and calls are those of the rename specification, the search preceding the target assignment |
| FileIndexer.Indexer.PublishAround | backend/apps/neuranet/neuranetapp/lib/fileindexer.js:92-101 | PROCESSING is inserted after the operation calls the scheduler let through, and PROCESSED is appended unless the operation rejected |
| FileIndexer.Indexer.HandleFileEvent | backend/apps/neuranet/neuranetapp/lib/fileindexer.js:91-129 | the calls made for one event are those of `Handle` |
| Tika.Basename | backend/apps/neuranet/neuranetapp/plugins/tika/tika.js:81 | the base name has no `/` and ends the path |
| Tika.BasenameIsLastSegment | backend/apps/neuranet/neuranetapp/plugins/tika/tika.js:81 | the base name is the whole path when it has no `/`, and otherwise exactly what follows its last `/` |
| Tika.ExtName | backend/apps/neuranet/neuranetapp/plugins/tika/tika.js:77 | the extension is empty or a single `.`-led suffix of the path without `/` |
| Tika.ExtNameNonEmpty | backend/apps/neuranet/neuranetapp/plugins/tika/tika.js:77 | the extension is non-empty iff the base name has a dot after its first character and is not `..`; it is then a suffix of the base name |
| Tika.RouteOf | backend/apps/neuranet/neuranetapp/plugins/tika/tika.js:67-78 | pass-through iff the lower-cased name ends in `.txt`, or in `.text` without `forcetika`; otherwise the HTML reader iff it ends in `.html`/`.htm` without `forcetika` and with the parser loaded; otherwise a refusal iff the extension is not supported, and the worker iff it is |
| Tika.FingerprintInjective | backend/apps/neuranet/neuranetapp/plugins/tika/tika.js:82 | the digested text `path_size_mtime` determines path, size and mtime |
| Tika.DirsDisjoint | backend/apps/neuranet/neuranetapp/plugins/tika/tika.js:25-27 | the in, out and temp directories share no file |
| Tika.HtmlReadStream | backend/apps/neuranet/neuranetapp/plugins/tika/tika.js:150-160 | the handler loop computes the text extraction specification |
| Tika.TextRun | backend/apps/neuranet/neuranetapp/plugins/tika/tika.js:154 | a run of text events is kept exactly when not skipping |
| Tika.ElementText | backend/apps/neuranet/neuranetapp/plugins/tika/tika.js:152-156 | the text of a `style` or `script` element is dropped, that of any other element kept |
| Tika.ExtractAppend | backend/apps/neuranet/neuranetapp/plugins/tika/tika.js:153-158 | extraction over a concatenation continues from the skip state the first part left |
| Tika.RunCoherent | backend/apps/neuranet/neuranetapp/plugins/tika/tika.js:95-118 | the worker's state stays coherent: renamed exactly when resolved with a stream, settled exactly when `resolved` is set, and a stream holds everything written before the end |
| Tika.ResolvedIsFinal | backend/apps/neuranet/neuranetapp/plugins/tika/tika.js:109-112 | once the promise is settled, later events change neither the result nor the rename |
| Tika.ErrorBlocksRename | backend/apps/neuranet/neuranetapp/plugins/tika/tika.js:107-113 | a stderr error before settling rejects the promise and the output is never renamed into the cache |
| Tika.RunWorker | backend/apps/neuranet/neuranetapp/plugins/tika/tika.js:95-118 | the handlers run over the events compute the worker specification; renamed iff resolved with a stream |
| Tika.PreferredLanguage | backend/apps/neuranet/neuranetapp/plugins/tika/tika.js:164-166 | the first bundle whose `.ocr.<key>.` marker occurs in the lower-cased name; none iff no marker occurs |
| Tika.PreferredBundle | backend/apps/neuranet/neuranetapp/plugins/tika/tika.js:164-166 | the loop with `break` finds that first bundle |
| Tika.ConfigFor | backend/apps/neuranet/neuranetapp/plugins/tika/tika.js:162-173 | OCR data is present iff OCR applies, with the preferred or the `+`-joined languages; the name in the temp directory is `ocr_<languages>_tikaconfig.xml` with OCR and `noocr_undefined_tikaconfig.xml` without |
| Tika.Extractor.WriteTikaConfig | backend/apps/neuranet/neuranetapp/plugins/tika/tika.js:162-178 | writes the rendered configuration under that name and records the write |
| Tika.FastPathsTouchNothing | backend/apps/neuranet/neuranetapp/plugins/tika/tika.js:67-78 | pass-through, HTML and refusal touch no file and request no ticket; pass-through returns the input, the HTML route the stripped text of the parser events, and an unsupported type throws `Unsupported file <path>` |
| Tika.StageFrame | backend/apps/neuranet/neuranetapp/plugins/tika/tika.js:89-92 | staging touches only the input directory |
| Tika.CacheHit | backend/apps/neuranet/neuranetapp/plugins/tika/tika.js:93-121 | when the extracted text is cached it is returned, no ticket is requested, and the cached text is untouched |
| Tika.StagedInputKept | backend/apps/neuranet/neuranetapp/plugins/tika/tika.js:87-92 | an input already staged is neither copied nor renamed again, and its staged copy is kept |
| Tika.CachedOnlyOnCleanFinish | backend/apps/neuranet/neuranetapp/plugins/tika/tika.js:93-120 | on a miss a ticket is requested; the cached output appears iff the worker resolved with a stream, holding that text, by a final rename |
| Tika.TikafyOutcome | backend/apps/neuranet/neuranetapp/plugins/tika/tika.js:93-120 | the ticketed run alone: a ticket is the first step, and the cached output exists exactly when the worker resolved with a stream, holding that text, produced by a final rename |
| Tika.SecondCallHitsCache | backend/apps/neuranet/neuranetapp/plugins/tika/tika.js:80-121 | after a call that produced a stream, a second call for the unchanged file returns the same text from the cache without a ticket |
| Tika.Extractor.GetContentStream | backend/apps/neuranet/neuranetapp/plugins/tika/tika.js:61-122 | result, files and steps are those of the extraction specification |
| Tika.Extractor.StageInput | backend/apps/neuranet/neuranetapp/plugins/tika/tika.js:91-92 | copy to the working name, then rename to the cached name, unless already staged |
| Tika.Extractor.Ticketed | backend/apps/neuranet/neuranetapp/plugins/tika/tika.js:93-120 | the ticketed worker run updates files and steps as specified |
| Events.MemKeyCollides | backend/apps/neuranet/neuranetapp/apis/events.js:45 | two different users, `a_b`/`c` and `a`/`b_c`, share one memory key |
| Events.Divide | backend/apps/neuranet/neuranetapp/apis/events.js:35 | the pre-generation share is finite iff the step count is present and non-zero, and is then the weight divided by the step count |
| Events.RecordOf | backend/apps/neuranet/neuranetapp/apis/events.js:19-20 | the record carries the CMS path as its path and the message's result and percentage, and is done iff the message is PROCESSED |
| Events.Apply | backend/apps/neuranet/neuranetapp/apis/events.js:13-22 | irrelevant messages change nothing; other users are untouched; it throws iff a progress message has no stored record, after creating the user's map; otherwise exactly the message's CMS path is (re)written, with the accumulated percentage for progress messages |
| Events.PercentageGrows | backend/apps/neuranet/neuranetapp/apis/events.js:31-39 | a finite non-negative weight never lowers a finite percentage |
| Events.PercentageUncapped | backend/apps/neuranet/neuranetapp/apis/events.js:31-39 | `n` INITIAL steps add exactly `n * PERCENTAGE_INITIAL`, with no cap at 100 |
| Events.ProgressLedger.GetUserMemory | backend/apps/neuranet/neuranetapp/apis/events.js:43-44 | returns the user's records and inserts an empty map for a user without one |
| Events.ProgressLedger.CalculatePercentage | backend/apps/neuranet/neuranetapp/apis/events.js:31-39 | throws iff nothing is stored for the path; otherwise the message with the stored percentage plus the step's weight |
| Events.ProgressLedger.OnMessage | backend/apps/neuranet/neuranetapp/apis/events.js:13-22 | the memory afterwards and whether it threw are those of `Apply` |
| Events.ProgressLedger.DoService | backend/apps/neuranet/neuranetapp/apis/events.js:24-29 | an invalid query answers FALSE_RESULT and changes nothing; a valid one answers the user's records and inserts an empty map for a new user |
| OperateFile.OpOf | backend/apps/neuranet/xbinapp/apis/operatefile.js:18 | a missing or empty op means `read`, a present one is kept; a valid request's op is read, write or updatecomment |
| OperateFile.ModifiedEvent | backend/apps/neuranet/xbinapp/apis/operatefile.js:30-31 | the event is a FILE_MODIFIED on the XBin topic for the full path, not a directory; `Pipeline.WriteAndReindex` proves the controller dispatches it as a modify |
| OperateFile.DoService | backend/apps/neuranet/xbinapp/apis/operatefile.js:16-39 | invalid requests fail with no effect; a disabled write succeeds with no effect; a read answers the trimmed text or fails; a write publishes FILE_MODIFIED only after a successful write; updatecomment succeeds iff the update does; every publication follows a write |
| AiUtils.PromptSpec | backend/apps/neuranet/neuranetapp/lib/aiutils.js:19-31 | a text returned after reading is the file's; a returned text is cached; no read means no change; outside debug the recorded times never change |
| AiUtils.PromptReadOnce | backend/apps/neuranet/neuranetapp/lib/aiutils.js:29-30 | outside debug a non-empty prompt is read once; the next call returns it without reading |
| AiUtils.PromptFirstRead | backend/apps/neuranet/neuranetapp/lib/aiutils.js:29-30 | outside debug a prompt not yet cached is read once from disk, returned and cached |
| AiUtils.DebugRevalidates | backend/apps/neuranet/neuranetapp/lib/aiutils.js:22-27 | in debug the cache is used iff the recorded mtime equals the file's, which is then recorded |
| AiUtils.PromptCache.GetPrompt | backend/apps/neuranet/neuranetapp/lib/aiutils.js:19-31 | result, cache, times and read count are those of the prompt specification |
| AiUtils.SetProperties | backend/apps/neuranet/neuranetapp/lib/aiutils.js:37-40 | every entry is set on the target, the other keys keep their values, and the keys are the union |
| AiUtils.Overlay | backend/apps/neuranet/neuranetapp/lib/aiutils.js:37-40 | keys are the union; top values win; the others are the bottom's |
| AiUtils.OverridesWin | backend/apps/neuranet/neuranetapp/lib/aiutils.js:34-42 | the resolved model holds every override, and every own key the overrides leave alone |
| AiUtils.InheritedKeysReach | backend/apps/neuranet/neuranetapp/lib/aiutils.js:35-38 | a model that inherits resolves its base within the fuel; the result's keys are those of the base, the model and the overrides, and every base key neither of the others sets keeps the base's value |
| AiUtils.CachedModelsKept | backend/apps/neuranet/neuranetapp/lib/aiutils.js:43-51 | outside debug a cached model entry is never replaced, along the whole `inherits` chain |
| AiUtils.DebugRefreshes | backend/apps/neuranet/neuranetapp/lib/aiutils.js:43-51 | in debug mode, or when the model is not in the table, its entry is reloaded from the configuration and stays so along any `inherits` chain; without `inherits` the result is it with the overrides laid over |
| AiUtils.MissingModel | backend/apps/neuranet/neuranetapp/lib/aiutils.js:44-51 | a model the configuration does not define, looked up in debug mode or when not in the table, gives no model and its table entry is removed |
| AiUtils.ModelRegistry.GetAIModel | backend/apps/neuranet/neuranetapp/lib/aiutils.js:33-52 | result and model table are those of the model specification |
| AiUtils.ModelRegistry.OverrideModel | backend/apps/neuranet/neuranetapp/lib/aiutils.js:34-42 | result and model table are those of the override specification |
| AiUtils.FirstTruthy | backend/apps/neuranet/neuranetapp/lib/aiutils.js:58-75 | the value chosen is the first present truthy candidate: every earlier one is absent or falsy; none iff no candidate is truthy |
| AiUtils.QuotaPrecedence | backend/apps/neuranet/neuranetapp/lib/aiutils.js:55-82 | the quota is the parse of the first truthy of user entry, org default and global default, else `DEFAULT_QUOTA` |
| AiLibGpt35.MaxRetries | backend/apps/neuranet/neuranetapp/lib/ailibGPT35.js:63 | an absent or zero `api_max_retries` means 3; any other configured value is used as given |
| AiLibGpt35.AttemptsFrom | backend/apps/neuranet/neuranetapp/lib/ailibGPT35.js:50-63 | at most `max + 1` attempts; every attempt before the last returned a response with a retryable status; it throws iff the last attempt threw; an early stop means a null or non-retryable response |
| AiLibGpt35.CallWithRetries | backend/apps/neuranet/neuranetapp/lib/ailibGPT35.js:50-63 | the do-while loop computes those attempts |
| AiLibGpt35.Accept | backend/apps/neuranet/neuranetapp/lib/ailibGPT35.js:65-84 | a result iff the response is present with data, no error and content, and, when configured, an accepted finish reason; it carries the content and the cost when configured |
| AiLibGpt35.ProcessBounds | backend/apps/neuranet/neuranetapp/lib/ailibGPT35.js:18-85 | no model object or an over-long request makes no call; otherwise 1 to `max + 1` attempts; a throw gives null; a result is the accepted last response |
| AiLibGpt35.Process | backend/apps/neuranet/neuranetapp/lib/ailibGPT35.js:18-85 | result and attempt count are those of the process specification |
| AiLibGpt35.DirectiveOf | backend/apps/neuranet/neuranetapp/lib/ailibGPT35.js:110-119 | the untrimmed directive names a file iff its trim does not start with `module(` |
| AiLibGpt35.ParseDirective | backend/apps/neuranet/neuranetapp/lib/ailibGPT35.js:110-119 | the split-and-trim-in-place parsing computes the directive's meaning |
| AiLibGpt35.TrimEach | backend/apps/neuranet/neuranetapp/lib/ailibGPT35.js:114 | each array element is replaced by its trim |
| AiLibGpt35.DirectiveRoundTrip | backend/apps/neuranet/neuranetapp/lib/ailibGPT35.js:114-119 | `module(m),a1,…` parses back to module `m` with arguments `a1,…` when none holds a comma and the arguments are non-empty without surrounding whitespace |
| Pipeline.LedgerAfterBracket | backend/apps/neuranet/neuranetapp/apis/events.js:13-22 | the ledger after a bracket holds the file's record, done iff the operation completed and carrying its result, with its percentage left undefined; other users are untouched |
| Pipeline.ProgressAfterBracket | backend/apps/neuranet/neuranetapp/apis/events.js:31-39 | a progress step for the file after its bracket does not throw and leaves the percentage non-finite, since the bracket stored no percentage |
| Pipeline.LedgerSeesOutcome | backend/apps/neuranet/neuranetapp/lib/fileindexer.js:114-123 | for create, delete and rename the ledger ends with the operation's outcome under the file's CMS path |
| Pipeline.LedgerSeesModify | backend/apps/neuranet/neuranetapp/lib/fileindexer.js:124-128 | for a modify the ledger hears nothing when the uningest rejects, and otherwise ends with the ingest's outcome |
| Pipeline.WriteAndReindex | backend/apps/neuranet/xbinapp/apis/operatefile.js:27-31 | a successful write leads the controller to handle exactly one FILE_MODIFIED event for the full path, dispatched as a modify; any other request leads to no controller call |

## Behaviour as written

The model follows the code in these places, where the code departs from the documented intent:

- A `.txt` name passes through even with `forcetika` set. The `!forcetika` test binds only to the
  `.text` test (tika.js:67).
- A plugin method that throws rejects the operation's promise. It is not caught, so PROCESSED is
  never published for it (fileindexer.js:97).
- A `canHandle` that throws or rejects with a falsy value (`throw undefined`) stops the plugin
  search, but the falsy `error` it returns does not count as a plugin error, so the default path
  runs (fileindexer.js:136-137, 171-172).
- A Tika worker that exits abnormally without a stderr `error` event still closes the output,
  and the `finish` handler renames it into the cache. Partial or empty text is then cached and
  served by later calls (tika.js:106-112).
- The progress percentage is not capped at 100 (events.js:36).
- The controller's PROCESSING and PROCESSED messages carry no `percentage`, and the ledger stores
  the message's `percentage` as it is, so every bracket leaves the file's record with an undefined
  percentage. A progress step after it adds its weight to `undefined`, which gives NaN. For a file
  the controller handles, the percentage is therefore never a finite number, let alone 100
  (fileindexer.js:95-100, events.js:19-20, 32-37).
- A status query for a new user inserts an empty record map (events.js:27, 43-44).
- The `||"noocrlang"` fallback never applies. The string concatenation is always a non-empty
  string, so a non-OCR configuration is named `noocr_undefined_tikaconfig.xml` (tika.js:172).
- `DEFAULT_QUOTA` is not declared in aiutils.js. A lookup that reaches it throws a
  `ReferenceError` instead of returning a default; `defaultQuota: None` models that
  (aiutils.js:77, 80).
- The exception handler of the Tika executor rejects with the undeclared `error`, which itself
  throws inside the executor. The extraction promise then never settles (`Unsettled`)
  (tika.js:114-117).

## Left out

- I/O: file reads and writes, `stat`, `spawn`, streams and the HTTPS call. Their results are inputs (`Env` fields, event sequences, reply functions), and so are the failures named in the model (index calls, plugin calls, `spawn`, the prompt file, the write of `operatefile`). The contents of a stream are modelled as a string.
- Tika.Extract: these failures are not modelled, and each step is taken to succeed: `stat` of the input rejecting (tika.js:81, the call rejects); the copy or rename of the staged input failing (tika.js:91-92, the call rejects before any ticket); `_getTikaConfig` throwing inside the async executor (tika.js:97, the promise never settles); the rename in the `finish` handler failing (tika.js:112, the promise never settles and the working file stays).
- FileIndexer.Env: `cms.getCMSRootRelativePath`, `cms.getFullPath` and `brainhandler.getAppID` are total functions, taken to succeed. In the source each can reject: the relative-path call inside the publication wrapper then publishes neither PROCESSING nor PROCESSED while the already started operation still makes its calls (fileindexer.js:93); the same calls, or `getAppID`, inside the ingest, uningest and rename functions reject the operation before any `canHandle` (fileindexer.js:132, 141, 150-151, 180); and `getFullPath` rejecting inside `addFileToAI`/`removeFileFromAI`/`renameFileToAI` yields FALSE_RESULT with no index call (fileindexer.js:210, 223, 233-234).
- AiUtils.ModelSpec: a failure to read, render or parse the configuration file (aiutils.js:45-47), which rejects the call, is not modelled; the parsed configuration is an input.
- The Tika ticketing queue and its concurrency bound (`max_tika_instances`). A ticketed job is modelled as running when requested.
- Concurrency in the controller beyond one event: interleaving is modelled only as the number `k` of the operation's calls that run before PROCESSING.
- MD5 is an abstract `hash` function. Only the injectivity of the digested text is proved, not of the digest.
- htmlparser2's tokenisation and entity decoding. The parser's callbacks are an input event sequence.
- Mustache rendering, JSON and YAML parsing, and `parseFloat` of strings. Each is a parameter (`render`, `parse`) or an input value.
- `countTokens` is not modelled; the token count is an input of `process`. Prompt preparation and injection (ailibGPT35.js:19, 32-44) are left out too.
- `getContent` (tika.js:124-138) and `getTextReadstream`/`getTextContents` of the per-file context are not modelled. They are stream plumbing over `getContentStream`.
- `initSync`, `initAsync` and `_initPluginsAsync` are not modelled. This is configuration loading and directory creation.
- `extraInfo`, the `ip` and `isxbin` fields of the FILE_MODIFIED event, and `minimum_success_percent` are not modelled. They are carried along but never decided on by the core.
- Non-boolean values returned by plugin methods are modelled as booleans.
- The `CLUSTER_MEMORY` transport is modelled as one map. So is the mutation of the delivered message object by `calculatePercentage`, which other subscribers would see.
- A non-string `inherits` value, and the dotted-key semantics of `setObjProperty`, are not modelled. Keys are set flat.
- `modelObject.request` being absent, which makes `process` throw, is not modelled. So is the deletion of `max_tokens` after the guard.
- Trailing-slash and root cases of `path.basename`/`path.extname` are not modelled.
- Lower-casing is ASCII only.
- JsString.IsWhitespace: the Unicode space separators U+1680, U+2000 to U+200A, U+202F, U+205F and U+3000, which JavaScript's `trim` also removes, are not counted as whitespace.
- Strings are sequences of Unicode code points, not of UTF-16 code units, so lengths and indices differ from JavaScript's for characters outside the Basic Multilingual Plane.
- Fractional `mtimeMs` values are modelled as natural numbers.
- Data the Tika worker writes after the output stream has ended, which raises an unhandled error in the source, is not modelled.
- AiUtils.ModelSpec: the `inherits` chain is followed at most `fuel` levels deep, and a cyclic chain ends with no model. In the source a cycle outside debug mode overflows the stack once its entries are cached, so the call rejects as in the model; in debug mode every level awaits a file read and the call never settles.
- Tika.CachedOnlyOnCleanFinish: requires the working and cached output names to differ (they coincide only if a clock reading spells the digest).
