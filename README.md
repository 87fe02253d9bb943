# CSV question-answering agent: the orchestration core in Dafny

This project models the orchestration core of a Flask application. The application answers
natural-language questions about uploaded CSV datasets. It builds one LLM "pandas dataframe
agent" per dataset and merges the per-file answers and failures into one text report.

The model covers:

- **Dataset registry** (`CsvAgent._load_csvs`). The registry is the `dataframes` dict of the
  `CsvAgent` class, modelled as its keys in insertion order plus a map. Loading scans a directory
  listing and reads every `.csv` name. A decoding or parser error skips the file. Any other
  exception ends the load.
- **Model choice and connection fallback** (`find_available_model` and the head of
  `process_query`). The requested model is used when one is given, otherwise the first backup
  model. The call then tries the chosen model and three fixed fallbacks, and keeps the first
  whose client builds.
- **Agent factory** (`create_agent_with_fallback`). It first builds with the custom Portuguese
  prompt as prefix (provenance `Standard`), then without it (`Fallback`). When both fail, it
  raises the second error.
- **Execution with retry** (`execute_query_with_retry`). A bounded loop retries the "Could not
  parse LLM output" `ValueError`. On the last attempt it asks once more with a simplified
  question. Any other `ValueError` is raised at once. Other exceptions are swallowed on every
  attempt but the last.
- **Classification and the composite report** (the tail of `process_query`). The first matching
  marker in an exception's text decides its error line. The report takes the failure shape only
  when nothing was answered.
- **The web front end** (`allowed_file` and the `/query` handler). It covers the handler's input
  guards, the CSV listing, the success text and the error text with its ordered hints.

External collaborators are parameters:

- An agent is an oracle `(call number, input text) -> Try<AgentValue>`.
- Building an `OpenAI` client is a predicate on the model identifier.
- `create_pandas_dataframe_agent` is a function of (model, DataFrame, with-prefix?).
- `pd.read_csv` is a function from file name to `ReadOutcome`.
- The directory listing is a sequence of names.

Python exceptions are values of `Py.Try`. Every imperative routine is a method proved equal to a
specification function, and the lemmas are stated about those functions. `ProcessQuery` returns
a `Run`: the report text, the number of client constructions attempted, the number of files
whose agent construction was attempted (each such file may cost one or two
`create_pandas_dataframe_agent` calls), and the number of files whose question was executed.
This lets guards be stated as "nothing further was attempted".

Where the code departs from the behaviour its design describes, the model follows the code:

- One failed agent construction aborts the whole `process_query` call (csv_agent.py:193-195).
  The call returns "Erro ao criar agente para …" and queries no dataset; it does not record the
  failure and go on (`CsvAgents.AgentFailureAborts`).
- `_load_csvs` never clears the registry. A reload only adds or overwrites entries, so a file
  that disappeared or became unreadable keeps its old DataFrame (`CsvAgents.LoadEffect`).
  Only `UnicodeDecodeError` and `ParserError` skip a file. Any other exception from
  `read_csv` propagates and stops the load.
- When parsing fails on every attempt, the give-up text is returned as an ordinary answer, not
  raised. It is filed under "Dados de: <file>" among the results, not among the error lines
  (`CsvAgents.ParseExhaustionIsFiledAsAnswer`). A `ValueError` carrying the parse marker never
  leaves the retry loop (`Retry.ParseFailureNeverRaised`). So the classification chain's
  parse-failure branch is reached only by an exception that is not a `ValueError`, raised on the
  last attempt with the marker in its text.
- The "… após N tentativas." return after the loop is unreachable once at least one attempt is
  allowed, because the last attempt always returns or raises (`Retry.ExecutionShape`).
- The web handler's hint chain tests "404"/"not found" before authentication and has no
  "endpoints" branch, so it can disagree with the report's classification
  (`Web.HintOrderDiffers`). `process_query` turns every per-file exception into text, so the
  handler's rate-limit help appears only for exceptions raised outside that method.

## Model

| member | source | states |
|---|---|---|
| `CsvAgents.CsvAgent.constructor` | src/agents/csv_agent.py:14-27 | A new agent starts with an empty registry and keeps the two credentials as read from the environment. |
| `CsvAgents.CsvAgent.LoadCsvs` | src/agents/csv_agent.py:43-51 | The in-place load leaves the registry as `LoadFrom` says, still a consistent dict, with every old key kept in its old position. It returns the exception that stopped the loop, if any. |
| `CsvAgents.LoadEffect` | src/agents/csv_agent.py:43-51 | A load keeps the dict consistent and never removes a key. Every entry afterwards is an untouched old one or a parsed ".csv" file of the listing. A raised exception is one that reading a ".csv" file of the listing raised. |
| `CsvAgents.LoadStoresParsed` | src/agents/csv_agent.py:44-49 | A load that runs to the end maps every parsed ".csv" file of the listing to the DataFrame its read produced. |
| `CsvAgents.UnreadableFileAddsNoEntry` | src/agents/csv_agent.py:47-51 | A file not yet registered whose read does not parse gets no entry. |
| `CsvAgents.ItemsOf` | src/agents/csv_agent.py:186 | For a consistent dict, `dataframes.items()` yields exactly one pair per key: as many pairs as keys, every key paired with its DataFrame, no name twice, in insertion order. |
| `Retry.RetryFrom` | src/agents/csv_agent.py:78-114 | From any attempt on, the loop only appends to the inputs it passed to `invoke`, and makes at most one call per remaining attempt plus one simplified re-query. |
| `Retry.ExecuteQueryWithRetry` | src/agents/csv_agent.py:76-114 | The loop returns or raises exactly what the specification function gives and passes the same inputs to `invoke`. It makes at most maxRetries + 1 calls. |
| `Retry.ReturnsFirstReply` | src/agents/csv_agent.py:78-92 | When attempts before the k-th are swallowed and the k-th returns, the answer is that reply normalised. The agent was called exactly k + 1 times, always with the question. |
| `Retry.OtherValueErrorPropagates` | src/agents/csv_agent.py:94-108 | A `ValueError` without the parse marker is raised on the attempt it occurs, with no retry. |
| `Retry.OtherErrorRaisedOnLastAttempt` | src/agents/csv_agent.py:109-112 | An exception that is not a `ValueError` is raised only when it occurs on the last attempt. |
| `Retry.ParseFailuresEndInSimplifiedQuery` | src/agents/csv_agent.py:94-106 | When every primary attempt fails to parse, there are exactly maxRetries calls with the question and one with the simplified question. The execution returns that reply or the give-up text and never raises. |
| `Retry.AlwaysUnparseable` | src/agents/csv_agent.py:99-106 | An agent that never parses gets exactly maxRetries + 1 calls, and the execution returns the give-up text. |
| `Retry.ExecutionShape` | src/agents/csv_agent.py:76-114 | With at least one attempt, every call but the last raised. A raised exception is the last call's, and a returned text is the last reply normalised or the give-up text. |
| `Retry.ParseFailureNeverRaised` | src/agents/csv_agent.py:94-112 | An execution never raises a `ValueError` carrying the parse marker. What it raises is a `ValueError` without the marker, or another exception. |
| `Retry.NoAttemptsAllowed` | src/agents/csv_agent.py:113-114 | With zero attempts, the agent is never called and the "after N attempts" text is returned. |
| `Connection.FindAvailableModel` | src/agents/csv_agent.py:116-138 | A truthy requested model is used verbatim, otherwise the first backup model. The choice is never empty. |
| `Connection.FirstConnectable` | src/agents/csv_agent.py:158-177 | The result is the position of the first candidate whose client builds; there is none exactly when no client builds. |
| `Connection.EstablishConnection` | src/agents/csv_agent.py:158-177 | The loop stops at the first candidate that builds, after position + 1 attempts, and reports it as the model used. When none builds it tries them all. |
| `Connection.SecondCandidateWins` | src/agents/csv_agent.py:151-177 | When the chosen model fails and the second candidate builds, the second candidate is used and the third is never tried. |
| `Factory.CreateAgentWithFallback` | src/agents/csv_agent.py:53-74 | There are one or two constructions: `Standard` exactly when the prefixed one succeeds, `Fallback` exactly when only the plain one does. When both fail, the second error is raised. |
| `Factory.BuildAll` | src/agents/csv_agent.py:186-195 | Either every dataset gets an agent, named and ordered as in the registry, or the result names the first file whose construction raised, the error, and that no earlier file failed. |
| `Factory.CreateAgents` | src/agents/csv_agent.py:186-195 | The loop gives exactly `BuildAll`. |
| `CsvAgents.Collect` | src/agents/csv_agent.py:198-229 | Every queried file contributes exactly one answer or one error line. |
| `CsvAgents.CollectInOrder` | src/agents/csv_agent.py:202-229 | The k-th result is the answer of the k-th file that answered, and the k-th error line is the classified exception of the k-th file that failed, both in the agents' (registry) order. |
| `CsvAgents.ResultsAreAnswers` | src/agents/csv_agent.py:202-207 | Every recorded result is the answer some file's execution returned, labelled with that file. |
| `CsvAgents.AnswersAreResults` | src/agents/csv_agent.py:202-207 | Every file whose execution returned has its answer among the results. |
| `CsvAgents.ErrorsAreFailures` | src/agents/csv_agent.py:208-229 | Every error line is the classified exception of a file whose execution raised. |
| `CsvAgents.FailuresHaveErrorLines` | src/agents/csv_agent.py:208-229 | Every file whose execution raised has its classified error line. |
| `CsvAgents.RunQueries` | src/agents/csv_agent.py:198-229 | The loop gives exactly `Collect`. |
| `Aggregation.Classify` | src/agents/csv_agent.py:215-229 | First match wins, in the order rate limit, authentication, timeout, not found, endpoints, parse failure. Each category is chosen exactly when its markers occur and no earlier category's do. The line is unclassified exactly when no marker occurs. |
| `Aggregation.ErrorLine` | src/agents/csv_agent.py:216-229 | Each error line starts with the file's prefix. An unclassified failure shows the exception's type name and text. |
| `Aggregation.ReportShape` | src/agents/csv_agent.py:231-236 | The report is failure-shaped exactly when nothing was answered and something failed. Otherwise it opens with the header naming the model used. |
| `Aggregation.ObservationsIffErrors` | src/agents/csv_agent.py:236-245 | A report with at least one answer ends with "Observações:" and the joined error lines exactly when some file failed. |
| `Aggregation.BlocksInOrder` | src/agents/csv_agent.py:237-239 | Each answer's block appears in the report in result order. |
| `Aggregation.ErrorsListed` | src/agents/csv_agent.py:231-245 | Every error line occurs in the report, whichever shape it takes. |
| `Aggregation.AssembleReport` | src/agents/csv_agent.py:231-245 | The loop with `+=` gives exactly the report function. |
| `CsvAgents.ProcessQuerySpec` | src/agents/csv_agent.py:140-245 | Without both credentials, the call returns the configuration error and attempts nothing. With them it tries one to four clients. A call that queries any file has built agents for, and queried, every file. |
| `CsvAgents.ConnectionFallback` | src/agents/csv_agent.py:145-180 | Every candidate before the one used failed to build, and the one used built. The "no model" error, after four attempts and with no agent built, comes exactly when no candidate builds. |
| `CsvAgents.AgentFailureAborts` | src/agents/csv_agent.py:186-195 | The first dataset whose two constructions fail makes the reply that file's error with the second construction's text. Agents were attempted up to it, and no question runs. |
| `CsvAgents.NoDatasetsHeaderOnly` | src/agents/csv_agent.py:236-245 | With no dataset loaded, the reply is the header naming the model used, alone. |
| `CsvAgents.SuccessDominates` | src/agents/csv_agent.py:231-245 | One answered file makes the report success-shaped and headed by the model used. The report text contains that file's "Dados de:" block with its answer, whatever the other files did. |
| `CsvAgents.TotalFailure` | src/agents/csv_agent.py:231-233 | When every execution raises, the report is the failure header and one error line per file. |
| `CsvAgents.ParseExhaustionIsFiledAsAnswer` | src/agents/csv_agent.py:202-207 | A file whose agent never parses is filed as an answer: the give-up text under its name. |
| `CsvAgents.CsvAgent.ProcessQuery` | src/agents/csv_agent.py:140-245 | The method, which never raises, gives exactly `ProcessQuerySpec` over the registry's items in insertion order. |
| `Web.AfterLastDot` | src/web_app.py:36 | The extension is a dot-free suffix of the name and follows its last dot. It is the whole name when there is no dot. |
| `Web.EarlierDotsIgnored` | src/web_app.py:35-36 | A name with a dot is allowed exactly when the lower-cased text after its last dot is "csv" or "zip", whatever precedes it. |
| `Web.WebHint` | src/web_app.py:107-141 | First match wins, in the order rate limit, not found, authentication, timeout, parse failure. Each hint is chosen exactly when its markers occur and no earlier hint's do. The generic tip is given exactly when no marker occurs. |
| `Web.HintFollowsClassification` | src/web_app.py:107-141 | The hint chain and the report's classification agree on rate limiting. Without "404", "not found" or "endpoints" they pick the same category. |
| `Web.HintOrderDiffers` | src/web_app.py:132-135 | "401" with "404" is an authentication failure in the report but gets the "model not found" hint. An "endpoints" text is "temporarily unavailable" there but gets only the generic tip. |
| `Web.ErrorMessage` | src/web_app.py:105-141 | The error text starts with the intro and the exception's text. Outside the rate-limit branch it adds exactly one tip, the first that matches. On a rate limit it adds the banner, the optional credits block, the alternatives and the optional technical details, in that order. |
| `Web.CreditsFor` | src/web_app.py:115-119 | The credits block is present exactly when the text carries "free-models-per-day", and empty otherwise. |
| `Web.TechnicalDetails` | src/web_app.py:126-131 | The technical details are empty exactly when the text lacks "X-RateLimit-Remaining", and open with their heading exactly when it has it. |
| `Web.RemainingFor` | src/web_app.py:128-129 | The "remaining: 0" line is present exactly when the text carries the zero-remaining header, and empty otherwise. |
| `Web.LimitFor` | src/web_app.py:130-131 | The "total limit" line is present exactly when the text carries "X-RateLimit-Limit", and empty otherwise. |
| `Web.CreditsShownForDailyLimit` | src/web_app.py:115-119 | On a rate limit with the per-day free-model marker, the credits block is part of the text. |
| `Web.TechnicalDetailsShownForHeader` | src/web_app.py:126-131 | On a rate limit whose text carries the remaining-count header, the technical-details heading is part of the text. |
| `Web.BuildErrorMessage` | src/web_app.py:103-141 | The successive appends give exactly the error text. |
| `Web.CsvFiles` | src/web_app.py:83-84 | A name is listed exactly when it is in the directory and ends in ".csv". |
| `Web.HandleQuery` | src/web_app.py:70-145 | A 400 reply comes exactly when the model or the question is missing or empty. With no CSV file, the page shows the "no CSV" text and no files. Otherwise it shows the formatted answer opening with the requested model, or the error text, plus the CSV names. |

## Left out

- Web.ErrorMessage: whether an optional rate-limit block is present is stated on the layout of the text (`CreditsFor`, `TechnicalDetails`, `RemainingFor`, `LimitFor` are each the block exactly when their marker occurs, and empty otherwise). It is not stated as "the block's text does not occur", because the message repeats the exception's own text, which may contain that block verbatim.
- Logging (`print`, `traceback.format_exc`) is not modelled; it has no effect on any returned value.
- `_unpack_archives`, `utils/file_unpacker.py` and zip extraction are left out: file-system side effects outside the core.
- The contents of DataFrames and what `pd.read_csv` does with them are not modelled. A DataFrame is an abstract type, and a read is an outcome: parsed, skipped, or a propagating exception.
- `CsvAgent.__init__` is modelled as the constructor followed by `LoadCsvs`. `load_dotenv` and `os.environ` reads become constructor parameters, and the custom prompt is only the with-prefix flag of the constructor oracle (`prompts/agent_prompt_pt.py` is not part of this model).
- LangChain and OpenAI internals are oracles: client construction, agent construction, and what `invoke` returns or raises.
- Each execution's calls are numbered from 0, so an agent's answers may depend on the call number but not on calls made for other files.
- The `model_to_try is None` skip is not modelled: the chosen model is never empty (`Connection.FindAvailableModel`) and the fallbacks are literals, so the skip never fires.
- Flask plumbing (routing, `request.form`, `render_template`, the `index`, `upload_file` and error-handler routes, HTTP status codes other than the 400 reply) is left out. `upload_file` only combines `allowed_file`, saving, unpacking and `_load_csvs`, which are modelled or left out above.
- `time.time()` and `round(..., 2)` are replaced by the elapsed-time text as a parameter of `Web.HandleQuery`.
- `Web.HandleQuery`: what `process_query` returns or raises is a parameter. The composition with `CsvAgents.CsvAgent.ProcessQuery` is not stated, because the handler cannot observe which Python exceptions escape that method.
- `Text.Lower` lowers ASCII letters only; Python's `str.lower` also lowers other scripts. Every marker compared against lower-cased text is ASCII.
- A dict reply's 'output' value is modelled by its text; other reply objects by their `str()`.
- Concurrency between web requests and a reload is not modelled; the core runs one call at a time.
- Exceptions outside the `Exception` hierarchy (`KeyboardInterrupt`, `SystemExit`) are not modelled. The source's bare `except:` around the simplified query would also catch them.
- `app.py` (the command-line entry point) is not part of this model.
