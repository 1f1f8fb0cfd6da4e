# Scooter assistant back end: decision and normalisation routines

This project is a Dafny model of the decision and normalisation logic of the scooter
assistant's Python back end. It covers these routines:

- free-text period resolution ("이번 달", "3월", "2024년 12월", "2025/3" → `YYYY-MM`);
- tool-call argument parsing and tool dispatch onto a data source;
- the OpenAI-compatible completion client, whose model id falls back, permanently, to the
  first listed model after a 404;
- configuration parsing: boolean environment flags, base-URL assembly, and the keyword map;
- the `/v1/generate` message validation and the model id it reports;
- MySQL settings validation, bastion-tunnel host/port selection, and cursor helpers;
- the lazily built mock/vLLM text-generation backend;
- the prompt templates;
- the pricing and usage summary post-processing (period fallback and `peak_hours`).

I/O is replaced by parameters:
- HTTP is a server function from request to response;
- the environment is a map;
- the keyword file is what reading it yields;
- `json.loads` is a decoder function;
- SQL queries are functions from (user id, period) to the rows returned;
- the vLLM engine is a function from prompt to outputs;
- `GetLatestPeriodForUser` is its result;
- `datetime.utcnow()` is a clock value;
- `_AsJson` is a function from dict to text.

Python dicts are ordered sequences of pairs (`Json.Get`, `Json.Put`). `d.get(k)` on parsed JSON
does not tell a missing key from a `null`, and `Json.Lookup` models that.

Files, one module each:
- `wrappers.dfy`: Option, Result, Outcome.
- `text.dfy`: strip, lower, digits, str/int/format.
- `regex.dfy`: the regular expressions of the core, written as scanners.
- `json.dfy`: JSON values, ordered dicts, truthiness, str().
- `period.dfy`: app/sandbox/sub_query/date.py.
- `tool_executor.dfy`: app/services/tool_executor.py.
- `completion_client.dfy`: app/core/llm_service.py.
- `config.dfy`: app/config/config.py.
- `settings.dfy`: app/core/settings.py.
- `api.dfy`: app/api/v1.py.
- `services_db.dfy`: app/core/services_db.py.
- `backend.dfy`: app/services/llm_service.py.
- `prompt_builder.dfy`: app/services/prompt_builder.py.
- `summaries.dfy`: app/sandbox/queries/summaries.py.

Points where the behaviour is easy to misread:
- A month "N월" without a year in the text takes the year of the latest period with data when
  that period starts with `\d{4}-\d{2}`, and only otherwise the current year
  (app/sandbox/sub_query/date.py:20-25).
- `_ResolvePeriodFromText` compares the whole stripped text with the this-month keywords. So a
  sentence such as "이번달 요금 얼마야" holds no keyword and, having no digits, resolves to the latest
  period (`Period.NoKeywordNoDigitGivesLatest`).
- `raise_for_status` raises for statuses 400 to 599 only (`CompletionClient.IsHttpError`).

## Model

| member | source | states |
|---|---|---|
| Period.ResolvePeriodFromText | app/sandbox/sub_query/date.py:7-33 | absent or empty text gives the latest period; a keyword (after strip and lower) gives the clock's year and month as `YYYY-MM`; every result is either the latest period or a canonical period (4 digits, '-', 2 digits, month 1..12) |
| Period.FormatPeriodIsPeriod | app/sandbox/sub_query/date.py:26 | f"{year:04d}-{month:02d}" of a year below 10000 and a month 1..12 is a canonical period that reads back as that year and month |
| Period.FormatOfPeriod | app/sandbox/sub_query/date.py:26 | a canonical period is the format of the year and month it spells |
| Period.YearWithoutYearText | app/sandbox/sub_query/date.py:20-25 | the year taken when the text names none is below 10000 |
| Period.LatestYear | app/sandbox/sub_query/date.py:22-23 | the year read from a latest period matching `\d{4}-\d{2}` is below 10000 |
| Period.StandardOrLatest | app/sandbox/sub_query/date.py:27-33 | the `YYYY[-/.]M` rule yields the latest period or a canonical period |
| Period.MonthWithYear | app/sandbox/sub_query/date.py:14-19 | a first "N월" match with 1 <= N <= 12 plus a first four-digit run gives that year and month |
| Period.MonthWithoutYear | app/sandbox/sub_query/date.py:20-26 | a valid "N월" without a four-digit run gives the latest period's year when that period matches `\d{4}-\d{2}`, else the clock's year |
| Period.StandardForm | app/sandbox/sub_query/date.py:27-32 | with no usable "N월", the first `YYYY[-/.]M` match with month 1..12 is normalised to zero-padded `YYYY-MM` |
| Period.NoRuleGivesLatest | app/sandbox/sub_query/date.py:19-33 | text where every month found is out of range, or no rule matches, resolves to the latest period: a rejected month never reaches the result |
| Period.NoMonthMarkerGivesStandard | app/sandbox/sub_query/date.py:14-27 | without any "N월" match only the `YYYY[-/.]M` rule can apply |
| Period.NoKeywordNoDigitGivesLatest | app/sandbox/sub_query/date.py:8-33 | non-keyword text without digits resolves to the latest period |
| Period.SpacedTextIsNoKeyword | app/sandbox/sub_query/date.py:10-11 | ten lower-case letters and spaces with a space at index 4 are no keyword and hold no digit |
| Period.ThisMonthWithSpaceIsNotRecognised | app/sandbox/sub_query/date.py:10-11 | "this month" (with a space) is not a keyword and holds no digit, so it resolves to the latest period |
| Period.StripOfPeriod | app/sandbox/sub_query/date.py:10-11 | strip() and lower() leave a canonical period unchanged |
| Period.PeriodIsNoKeyword | app/sandbox/sub_query/date.py:11-15 | a canonical period is no this-month keyword and holds no "N월" match |
| Period.StandardOfPeriod | app/sandbox/sub_query/date.py:27-32 | the `YYYY[-/.]M` rule returns a canonical period unchanged |
| Period.PeriodReachesStandardRule | app/sandbox/sub_query/date.py:10-32 | text left unchanged by strip and lower, with no keyword and no "N월", resolves to what the last rule gives |
| Period.ResolveCanonicalPeriod | app/sandbox/sub_query/date.py:27-32 | a canonical period resolves to itself |
| Period.ResolveIsIdempotent | app/sandbox/sub_query/date.py:7-33 | resolving a resolved (non-fallback) period changes nothing |
| Period.PeriodFallsThrough | app/sandbox/sub_query/date.py:10-16 | a canonical period survives strip and lower, is no keyword, has no "월", and the last rule returns it |
| Regex.Search | app/sandbox/sub_query/date.py:14-15 | re.search: the leftmost match position, or none when the pattern matches nowhere |
| Regex.SearchFindsFirstMatch | app/sandbox/sub_query/date.py:14-15 | the first position where the pattern matches is what re.search reports |
| Regex.SearchFindsNothing | app/sandbox/sub_query/date.py:14-15 | re.search reports nothing when the pattern matches at no position |
| Regex.MonthSuffixNeedsMarker | app/sandbox/sub_query/date.py:15 | `(\d{1,2})\s*월` cannot match text without '월' |
| Regex.NoDigitNoMatch | app/sandbox/sub_query/date.py:14-15 | none of the core's patterns matches text without digits |
| Regex.FirstDigitRun | app/services/tool_executor.py:33-36 | `re.search(r"(\d+)")` gives none exactly when there is no digit, else the first maximal digit run |
| ToolExecutor.ParseToolArgsAsWritten | app/services/tool_executor.py:10-18 | {} for absent or falsy input; a dict as it is; non-empty text gives json.loads's value, or {} when it does not decode; any other truthy value fails with TypeError |
| ToolExecutor.ParseToolArgsAsWrittenPassesList | app/services/tool_executor.py:15-16 | JSON text of a list is returned as a list, not a dict |
| ToolExecutor.ParseToolArgsAsWrittenRaisesOnNumber | app/services/tool_executor.py:15-18 | a number as arguments reaches json.loads and raises (TypeError is not caught) |
| ToolExecutor.ParseToolArgs | app/services/tool_executor.py:10-18 | a dict unchanged; text decoding to an object gives that object's pairs; {} for falsy input, text that is not JSON or decodes to a non-object, and any other value |
| ToolExecutor.ParseToolArgsAgrees | app/services/tool_executor.py:10-18 | wherever the code yields a dict the corrected parse yields the same dict, and {} elsewhere |
| ToolExecutor.NormalizeLimit | app/services/tool_executor.py:21-26 | an int-convertible value is clamped into [1, 10] (kept when inside); a missing or unconvertible one gives the default unclamped |
| ToolExecutor.NormalizeLimitOfText | app/services/tool_executor.py:23 | a limit given as decimal text is read as that number |
| ToolExecutor.NormalizeLimitOfNegativeText | app/services/tool_executor.py:23-26 | "-" followed by digits is clamped to 1 |
| ToolExecutor.NormalizeLimitIdempotent | app/services/tool_executor.py:21-26 | normalising an explicit, int-convertible limit a second time changes nothing |
| ToolExecutor.MissingLimitExceedsEveryExplicitOne | app/services/tool_executor.py:21-26 | the unclamped default 20 is more than any explicit limit can give, and renormalising it gives 10 |
| ToolExecutor.NormalizeUserId | app/services/tool_executor.py:29-36 | None or text without digits gives the fallback; otherwise the first maximal digit run of str(value) |
| ToolExecutor.NormalizeUserIdOfInt | app/services/tool_executor.py:32-35 | an integer user id, negative or not, normalises to the digits of its absolute value |
| ToolExecutor.ExecuteTool | app/services/tool_executor.py:46-87 | the reply's "tool" is the requested name; it is an error exactly for unknown names, and the error is "unsupported_tool" |
| ToolExecutor.UnsupportedToolCallsNoSource | app/services/tool_executor.py:87 | an unknown name gives the same error whatever the data source holds |
| ToolExecutor.MissingLimitAsksForTwenty | app/services/tool_executor.py:49-63 | without "limit" the list tools ask the source for 20 entries |
| ToolExecutor.SummaryToolsPassPeriod | app/services/tool_executor.py:66-86 | the summary tools pass args["period"] through unchanged with the normalised user id |
| ToolExecutor.AvailableBikesIgnoresUser | app/services/tool_executor.py:49-51 | get_available_bikes does not depend on the user id |
| ToolExecutor.MissingUserIdUsesCaller | app/services/tool_executor.py:48-65 | without "user_id" the caller's own id, as text, is used |
| ToolExecutor.ListAndUserToolsPassNormalisedArguments | app/services/tool_executor.py:48-65 | for any arguments, get_available_bikes asks for the normalised limit (default 20), get_payments and get_rentals for the normalised user id (the caller's id as fallback) and that limit, get_user_profile for that user id |
| ToolExecutor.FunctionField | app/services/tool_executor.py:40 | `tool_call.get("function") or {}`: {} when missing, null or falsy, else the value given |
| ToolExecutor.ExecuteToolCall | app/services/tool_executor.py:39-48 | raises when "function" is truthy and not a dict, when the arguments raise in _ParseToolArgs, or when they decode to a non-dict (which `args.get` rejects); otherwise the reply names `function["name"]` (or "") and is an error exactly for unknown names |
| ToolExecutor.ListArgumentsRaise | app/services/tool_executor.py:42-48 | arguments given as the JSON text "[1]" make the call raise, whatever the tool name |
| ToolExecutor.ExecuteToolCallCorrected | app/services/tool_executor.py:39-43 | with the corrected parse only a truthy non-dict "function" raises; otherwise ExecuteTool of the name and the parsed dict |
| ToolExecutor.ExecuteToolCallAgrees | app/services/tool_executor.py:39-43 | wherever the call as written succeeds, the corrected call gives the same reply |
| CompletionClient.NormalizeBaseUrl | app/core/llm_service.py:18-22 | the result ends in "/v1" and is the slash-trimmed base, with "/v1" appended only when it was not already there |
| CompletionClient.NormalizeBaseUrlIdempotent | app/core/llm_service.py:18-22 | normalising twice is normalising once |
| CompletionClient.FetchFirstModelId | app/core/llm_service.py:24-32 | an error status raises; an empty or missing model list gives None; a returned id is never null |
| CompletionClient.FirstListedModel | app/core/llm_service.py:28-32 | a non-empty "data" list whose first entry is a dict gives that entry's "id", None when it is missing or null |
| CompletionClient.ExtractReply | app/core/llm_service.py:62-67 | a body that is no dict raises; absent or empty choices give ""; the reply is truthy or "" |
| CompletionClient.ReplyIsContent | app/core/llm_service.py:62-67 | the reply is choices[0]["message"]["content"] when truthy, and "" when the content is missing, null or falsy |
| CompletionClient.ReplyWithoutMessage | app/core/llm_service.py:66-67 | a first choice without a message, or with a null one, gives "" |
| CompletionClient.Finish | app/core/llm_service.py:61-67 | a 400..599 status raises; otherwise the extracted reply |
| CompletionClient.AtMostOneRetry | app/core/llm_service.py:34-61 | one call sends the chat request first, with the current model, and at most one retry, always third |
| CompletionClient.RetryExactlyOnUsableFallback | app/core/llm_service.py:50-60 | a retry happens iff the first status is 404 and the fallback id is truthy and differs; the retry and the kept model id use it |
| CompletionClient.FallbackIsSticky | app/core/llm_service.py:50-54 | the model id changes only by a retry, and the next call's request carries the new id |
| CompletionClient.LastChat | app/core/llm_service.py:44-60 | the chat request whose answer is final is one of the requests sent |
| CompletionClient.ExchangeReply | app/core/llm_service.py:50-67 | the reply is Finish of the answer to the last chat request, unless a 404 led to a models lookup that itself failed |
| CompletionClient.ErrorStatusRaises | app/core/llm_service.py:50-61 | a final chat status from 400 to 599 is raised; a 404 without a usable fallback is raised as HttpError(404) although the models GET was the last request |
| CompletionClient.NoRetryWithout404 | app/core/llm_service.py:50 | without a 404 only one request is sent and the model id stays |
| CompletionClient.LLMService.constructor | app/core/llm_service.py:12-16 | the model id comes from the settings and the base URL is normalised |
| CompletionClient.LLMService.FetchFirstModel | app/core/llm_service.py:24-32 | one GET on the models listing; the result is FetchFirstModelId of its response |
| CompletionClient.LLMService.PostChatCall | app/core/llm_service.py:34-67 | the reply, the new model id and the requests sent are those of ChatExchange from the old model id |
| CompletionClient.LLMService.GenerateChat | app/core/llm_service.py:72-73 | the same as _PostChat on the messages |
| CompletionClient.LLMService.Generate | app/core/llm_service.py:69-70 | Generate(p) is GenerateChat([{"role": "user", "content": p}]) |
| Settings.EnvBool | app/core/settings.py:6-10 | unset gives the default; a set value is true iff its stripped, lowered text is one of "1", "true", "yes", "y", "on" |
| Settings.EnvBoolIgnoresPaddingAndCase | app/core/settings.py:10 | surrounding whitespace and letter case do not change the flag |
| Settings.SetEmptyIsFalse | app/core/settings.py:10 | a set empty value is false even with default true |
| Config.EnvBool | app/config/config.py:13-17 | _EnvBool agrees with _env_bool on every input |
| Config.Scheme | app/config/config.py:53 | unset or blank LLM_SCHEME gives "http"; a set one is used stripped; never empty |
| Config.BuildBaseUrlFromParts | app/config/config.py:46-57 | a non-blank LLM_BASE_URL wins; otherwise "" exactly when the host is blank, else scheme://host, with ":port" iff the port is non-blank |
| Config.DefaultSchemeIsHttp | app/config/config.py:50-57 | with a host, no base URL and no scheme, the URL starts with "http://" |
| Config.BaseUrlIgnoresParts | app/config/config.py:47-49 | with a base URL set, host, scheme and port do not matter |
| Config.Keywords | app/config/config.py:34 | one item gives [str(item)] when truthy and [] otherwise; at most as many keywords as items, none of them empty |
| Config.KeywordsAppend | app/config/config.py:34 | the keyword list of a concatenation is the concatenation of the lists: with the one-item case this makes Keywords exactly `[str(item) for item in value if item]`, in order |
| Config.KeywordMapGet | app/config/config.py:30-35 | every list-valued key is kept with its keyword list; every other key is dropped |
| Config.NormalizeKeywordMap | app/config/config.py:30-35 | the loop builds exactly KeywordMap of the items |
| Config.LoadToolKeywordMap | app/config/config.py:20-37 | {} for an empty path, a missing file, an OSError or JSON decode error, or a top level that is no dict; otherwise the normalised map |
| Api.ValidateMessage | app/api/v1.py:12-18 | passes iff role is "user", stripped content is non-empty and user_id > 0; every failure is status 400; a wrong role is reported as such |
| Api.FirstFailed | app/api/v1.py:12-18 | no failure is reported iff every check holds |
| Api.FirstFailedIsFirst | app/api/v1.py:12-18 | the reported check fails and every check before it holds |
| Api.ValidateReportsFirstFailure | app/api/v1.py:12-18 | the checks run in order role, content, user_id and only the first failure is reported |
| Api.BlankContentAfterRole | app/api/v1.py:13-16 | whitespace-only content is reported as missing content, unless the role is already wrong |
| Api.GenerateResponse | app/api/v1.py:21-27 | a failing message gets its validation error; otherwise the reply and the model id read after generation |
| Api.RejectionIgnoresGeneration | app/api/v1.py:23 | a rejected message gets the same answer whatever generation would do |
| ServicesDb.MissingNames | app/core/services_db.py:55-64 | no names iff no value is empty; every empty value's name is listed, and only those |
| ServicesDb.MissingNamesAppend | app/core/services_db.py:55-64 | the names of consecutive settings come in the settings' order |
| ServicesDb.ValidateMysqlConfig | app/core/services_db.py:54-66 | raises iff host, user, password or database is empty, naming the missing ones joined by ", " |
| ServicesDb.ValidationReadsOnlyCredentials | app/core/services_db.py:57-62 | port, tables and bastion settings play no part in validation |
| ServicesDb.MissingHostAndDatabase | app/core/services_db.py:57-66 | names keep their fixed order: "MYSQL_HOST, MYSQL_DATABASE" |
| ServicesDb.MissingHostAndDatabaseNames | app/core/services_db.py:55-64 | host and database missing give exactly those two names, in that order |
| ServicesDb.ConnectTarget | app/core/services_db.py:76-102 | fails iff validation fails, with its message; a tunnel is opened iff the three bastion settings are set, and then the target is 127.0.0.1 on the tunnel's port, else the configured host and port |
| ServicesDb.FetchOneDict | app/core/services_db.py:116-118 | a falsy row gives {}; otherwise the row |
| ServicesDb.FetchAllDicts | app/core/services_db.py:121-123 | the rows in order, [] when there are none |
| Backend.MockLLM.Generate | app/services/llm_service.py:19-24 | the same fixed text for every prompt |
| Backend.VllmReply | app/services/llm_service.py:49-52 | "" without outputs or candidates, else the stripped first candidate |
| Backend.VllmReplyIsStripped | app/services/llm_service.py:52 | a vLLM reply neither starts nor ends with whitespace |
| Backend.VllmService.Generate | app/services/llm_service.py:48-52 | the reply is VllmReply of the engine's outputs for the prompt |
| Backend.LLMService.constructor | app/services/llm_service.py:56-60 | no backend yet |
| Backend.LLMService.EnsureBackend | app/services/llm_service.py:62-71 | the stored backend is returned when there is one; otherwise exactly one new backend is built, the mock iff sandbox_mode or use_mock_llm |
| Backend.LLMService.Generate | app/services/llm_service.py:73-75 | delegates to the ensured backend: the mock text or the vLLM reply; at most one backend is ever built |
| PromptBuilder.BuildPriceSummaryPrompt | app/services/prompt_builder.py:16-22 | begins with the system line, ends with "Assistant:", the locale line and then the PricingData block follow the system line |
| PromptBuilder.BuildUsageSummaryPrompt | app/services/prompt_builder.py:25-31 | the same for the usage prompt and the UsageData block |
| PromptBuilder.BuildAssistantPrompt | app/services/prompt_builder.py:35-48 | begins with the system line and ends with "Assistant:" |
| PromptBuilder.AssistantPromptLayout | app/services/prompt_builder.py:41-48 | the User line (message verbatim), Locale line, PricingData and UsageData blocks follow the system line in that order with nothing between them |
| PromptBuilder.PricePromptDeterminesItsParts | app/services/prompt_builder.py:16-22 | equal price prompts with equally long locales have the same locale and the same JSON text |
| PromptBuilder.AssistantPromptDeterminesMessage | app/services/prompt_builder.py:41-43 | the user message can be read back from the assistant prompt |
| Summaries.ResolvedPeriod | app/sandbox/queries/summaries.py:13 | a non-empty period is used as given; otherwise the latest period |
| Summaries.PricingSummary | app/sandbox/queries/summaries.py:11-38 | {} when no period resolves; otherwise the row of the query for the resolved period |
| Summaries.GivenPeriodIgnoresLatest | app/sandbox/queries/summaries.py:13 | with a given period the latest-period lookup does not matter |
| Summaries.NoPeriodQueriesNothing | app/sandbox/queries/summaries.py:14-15 | without a period the answer is {} whatever the database holds |
| Summaries.HourRangeShape | app/sandbox/queries/summaries.py:77 | "HH:00-HH:59" with the same two digits on both sides, spelling the hour |
| Summaries.HourRangeInjective | app/sandbox/queries/summaries.py:77 | different hours give different ranges |
| Summaries.PeakHours | app/sandbox/queries/summaries.py:76-80 | no more entries than rows; empty iff every hour_bucket is None |
| Summaries.PeakHoursEntries | app/sandbox/queries/summaries.py:76-80 | every entry is the range of some row's hour |
| Summaries.PeakHoursAppend | app/sandbox/queries/summaries.py:76-80 | rows keep their order: the list of a concatenation is the concatenation of the lists |
| Summaries.PeakHoursJson | app/sandbox/queries/summaries.py:81 | the JSON list holds the ranges in order |
| Summaries.GetUsageSummary | app/sandbox/queries/summaries.py:41-82 | {} without a period; otherwise "peak_hours" holds the ranges, every other key is unchanged, and the key order is kept with "peak_hours" appended when new |
| Json.Get | app/sandbox/queries/summaries.py:79 | d.get(k) is None iff k is no key, else a value stored under k |
| Json.Put | app/sandbox/queries/summaries.py:81 | d[k] = v keeps the length for an existing key and appends the pair for a new one |
| Json.GetPutSame | app/sandbox/queries/summaries.py:81 | after d[k] = v, d.get(k) is v |
| Json.GetPutOther | app/sandbox/queries/summaries.py:81 | d[k] = v does not change any other key |
| Json.KeysPut | app/sandbox/queries/summaries.py:81 | d[k] = v keeps the other keys in place and the keys distinct |
| Json.Lookup | app/services/tool_executor.py:40-42 | d.get(k) on parsed JSON never yields null: a null reads as missing |
| Json.Repr | app/services/tool_executor.py:32 | str() of a non-text value, as used for a user id, is never empty |
| Json.OrElse | app/services/tool_executor.py:40-41 | `x or default` is x when x is truthy, else the default |
| Text.StripIgnoresPadding | app/core/settings.py:10 | whitespace around a text does not change what strip() returns |
| Text.StripLowerCommute | app/core/settings.py:10 | strip() and lower() can be applied in either order |
| Text.StripIdempotent | app/api/v1.py:15 | strip() leaves nothing to strip |
| Text.ParseIntOfDigits | app/services/tool_executor.py:23 | int() of a plain digit run is its decimal value |
| Text.ParseIntOfNegatedDigits | app/services/tool_executor.py:23 | int() of '-' and a digit run is the negated value |
| Text.ParseIntOfDecimal | app/services/tool_executor.py:23 | int(str(n)) == n for n >= 0 |
| Text.DecimalValue | app/sandbox/sub_query/date.py:17-18 | str(n) read back by int() is n |
| Text.ZeroPadRoundTrip | app/sandbox/sub_query/date.py:26 | f"{n:0wd}" has exactly w digits denoting n whenever n < 10^w |
| Text.ZeroPadOfDigits | app/sandbox/sub_query/date.py:26 | formatting a digit string's value to its own width gives the string back |
| Text.DigitsValueInjective | app/sandbox/sub_query/date.py:26 | equally long digit strings with the same value are equal |

## Left out

- I/O and the outside world are inputs: HTTP (`requests`), MySQL (`pymysql`), the SSH tunnel,
  the environment, the file system, the clock and the vLLM engine. Their failure modes are
  either modelled as error results or not modelled at all.
- Exceptions are collapsed into `Failure` values: HTTPError, an unreadable body, TypeError,
  AttributeError and RuntimeError. The model does not tell apart which handler up the stack
  would catch which.
- The tool-calling orchestration (`GenerateAssistantReply`, app/api/v1.py:26) is not part of
  this model. Its outcome, the reply and the model id afterwards, is an input of
  `Api.GenerateResponse`.
- `\d`, `\s`, `str.isdigit` and `lower()` are modelled for ASCII digits, Python's whitespace
  set and ASCII letters. Non-ASCII digits, which Python's `\d` and `int()` also accept, are
  left out. Non-ASCII case folding is left out too.
- `repr()` of strings nested in lists or dicts does not escape quotes or control characters
  (`Json.Repr`).
- Floats are left out: temperature, top_p and the timeout, a JSON float given as "limit" or
  "user_id", and a float item in a keyword list (`str(1.5)` is not modelled).
- The chat request body leaves out `max_tokens`, and the request leaves out the
  `Authorization: Bearer <API key>` header (app/core/llm_service.py:40-43); neither changes
  which requests are sent or how the reply is read.
- `_NormalizePath` is left out because it calls `expanduser`/`expandvars`, which read the
  process environment and home directory. `GetMysqlConfig`, the `Settings` dataclasses and the
  `lru_cache` singletons are left out as well.
- The SQL text and its aggregates are left out, including the `LIMIT 2` of the peak-hour query.
  The model takes any list of hour buckets, each `None` or 0..23.
- Some references in the shown code do not resolve; the model uses the call that was evidently
  intended:
  - summaries.py imports `GetLatestPeriodForUser` from app/core/services_db.py, which does not
    define it.
  - services_db.py reads `settings.mysql_*` fields that `Settings` lacks.
  - `get_total_payments` calls `Sandbox.GetTotalPayments`, which is not defined.
  - app/core/llm_service.py imports `GetSettings` from app/core/settings.py, which defines
    `get_settings`.
- Period.ResolvePeriodFromText: the latest-period lookup and the clock are consulted lazily in
  the source. The model passes their results in, which is the same for a lookup with no side
  effects.
- ToolExecutor.NormalizeLimitOfText: the read-back is proved for the text of a non-negative
  number and for '-' followed by digits (`NormalizeLimitOfNegativeText`). The full round trip
  int(str(i)) == i for every int is not proved.
- Config.LoadToolKeywordMap: a keyword file that is not valid UTF-8 raises UnicodeDecodeError,
  which `except (OSError, json.JSONDecodeError)` (app/config/config.py:36) does not catch. The
  model's `KeywordFile.ReadFailed` stands only for the two caught errors, and the uncaught
  decoding error is not modelled.
- CompletionClient.LLMService: model ids are JSON values, because the fallback id is whatever
  the listing holds under "id". The source annotates them as `str`.

## Findings

| source | as written | input that shows it | evidently intended | confidence | as-written member | corrected member |
|---|---|---|---|---|---|---|
| app/services/tool_executor.py:10-18 | `_ParseToolArgs` returns whatever `json.loads` yields and lets a non-text, non-dict value reach `json.loads`. So it can return a list, and it can raise TypeError, which is not caught. `ExecuteTool` then fails on `args.get` (line 48), whatever the tool name. | arguments `"[1]"` give `[1]`; arguments `5` raise TypeError | a dict, with `{}` for anything that does not decode to one, as the return type `dict[str, Any]` states | not executed | ToolExecutor.ParseToolArgsAsWritten (ParseToolArgsAsWrittenPassesList, ParseToolArgsAsWrittenRaisesOnNumber, ExecuteToolCall, ListArgumentsRaise) | ToolExecutor.ParseToolArgs (ParseToolArgsAgrees, ExecuteToolCallCorrected, ExecuteToolCallAgrees) |
