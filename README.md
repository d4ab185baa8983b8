# Play Store rating agent: a Dafny model

This project models the logic of a Play Store rating agent built with the
Mastra framework. The model covers four parts:

- **The Agent2Agent (A2A) route** `POST /a2a/agent/:agentId` (`A2aRoute`, over
  the JavaScript values of `JsValues`).
  - It accepts a JSON-RPC 2.0 request.
  - It checks the envelope, looks up the agent and selects the inbound
    messages.
  - It flattens the messages into the agent's chat format and calls the
    agent.
  - It assembles the A2A task: artifacts, history, status and ids.
  - The handler is the pure function `Handle` from a request to an `Ok` task
    or an `Err` with its HTTP status, JSON-RPC code, id and data.
  - The codes are those of section 5.1 of the JSON-RPC 2.0 Specification:
    -32600 Invalid Request, -32602 Invalid params, -32603 Internal error.
  - The registry of agents, each agent's `generate`, `randomUUID` (as the
    n-th fresh id), the current time, `JSON.stringify` and `String(v)` are
    parameters.
- **The scheduled rating check** (`PlayStoreWorkflow`), three steps in order:
  - `fetch-ratings` loops over the app names and catches each lookup
    failure on its own.
  - `format-results` partitions the results, builds the report string with
    `+=` and forwards the successful ratings.
  - `store-results` appends one keyed history message per forwarded rating
    to the agent memory.
  - The memory is a class with an append-only message log; an absent memory
    is `null`.
  - The report's locale formatting functions are parameters.
- **The rating scorer** (`PlayStoreScorer`):
  - `generateScore`, a tiered 0..100 score, as a method accumulating
    `score +=`;
  - `generateReason`, a category and three insights, as a method pushing
    insights;
  - `parseInstalls`, which reads the first run of `[\d,]` with the commas
    removed.
- **The Play Store lookup tool** (`PlayStoreTool`):
  - the not-found check;
  - the first-hit selection;
  - the default-filling normalisation of the scraped details;
  - the "Failed to fetch app details: " rethrow.

  The scraper calls are inputs.

`Wrappers` holds `Option` and `Result`. `Text` holds the string facts the
report and the message content need: prefixes, concatenation of a list of
strings, `join`/`split` at a separator, and removing a character.

The handler departs from the JSON-RPC 2.0 Specification in three places, and
the model keeps each:

- Any falsy `id` is refused with -32600 (`0`, `""`, `false`), although
  section 4 of the JSON-RPC 2.0 Specification allows any string or number,
  0 and "" included.
- A body that does not parse is answered with HTTP 200 and a default
  "Ready to receive requests" task, not with the Parse error -32700 of
  section 5.1.
- A body that parses to JSON `null` makes the destructuring of the body throw
  a TypeError, which is answered with HTTP 500 and -32603 (Internal error)
  rather than -32600 (Invalid Request).

Some more behaviour of the code that a reader might not expect:

- `messages` is accepted whenever it is an array, empty included.
- A task id, context id or message id that is present but falsy is replaced
  by a fresh one (`x || randomUUID()`).
- A part of any kind other than text or data contributes an empty line to the
  joined content.

`JsValues.Read` (a property read that throws on `null` and `undefined`) and
`A2aRoute.JoinTexts` (`Array.join` element by element) are plain definitions of
the JavaScript operations the route uses. Their consequences are stated by
`A2aRoute.Translate`, `A2aRoute.Piece` and `A2aRoute.Content`.

## Model

| member | source | states |
|---|---|---|
| JsValues.Or | src/mastra/routes/a2a-agent-route.ts:122 | `v \|\| fallback` is always one of its two operands; it is truthy exactly when one of them is; a truthy `v` wins and a falsy one yields `fallback` |
| JsValues.OrAssociative | src/mastra/routes/a2a-agent-route.ts:166 | `(a \|\| b) \|\| c` and `a \|\| (b \|\| c)` pick the same value, so `msg.taskId \|\| taskId \|\| randomUUID()` can be read either way |
| JsValues.Truthy | src/mastra/routes/a2a-agent-route.ts:69 | definition: `undefined`, `null`, `false`, `0` and `""` are falsy, and every other value is truthy; its consequences are stated by `JsValues.Or` and `A2aRoute.OrFresh` |
| A2aRoute.OrFresh | src/mastra/routes/a2a-agent-route.ts:165-166 | `v \|\| randomUUID()` yields `v` or the next fresh id; it draws an id exactly when `v` is falsy, and draws at most one |
| A2aRoute.ReadyTask | src/mastra/routes/a2a-agent-route.ts:31-51 | the default task is completed at the current time, with the status text "Ready to receive requests", no artifacts and no history, and with its task id, context id and status message id drawn fresh in that order |
| A2aRoute.MessagesList | src/mastra/routes/a2a-agent-route.ts:101-118 | a truthy `message` wins over `messages`; otherwise any array `messages` (empty included) is taken; there is no list exactly when `message` is falsy and `messages` is not an array |
| A2aRoute.Piece | src/mastra/routes/a2a-agent-route.ts:123-126 | reading a part throws exactly when it is nullish; a text part yields its `text`; a data part yields `JSON.stringify(data)`, or `undefined` when there is no data; a part of any other kind yields "" |
| A2aRoute.Pieces | src/mastra/routes/a2a-agent-route.ts:123-126 | mapping the parts throws exactly when some part is nullish, and otherwise yields one piece per part, in order |
| A2aRoute.JoinText | src/mastra/routes/a2a-agent-route.ts:127 | definition: how `Array.join` writes one element (`null` and `undefined` as "", a string as itself, anything else through `String`) |
| A2aRoute.Rendering | src/mastra/routes/a2a-agent-route.ts:123-127 | what one non-null part contributes to the content: a text part its text, a data part `JSON.stringify(data)` (or "" without data), any other kind "" |
| A2aRoute.Renderings | src/mastra/routes/a2a-agent-route.ts:123-127 | one rendering per part |
| A2aRoute.Content | src/mastra/routes/a2a-agent-route.ts:123-127 | missing parts give ""; parts that are not an array throw; an array gives content exactly when none of its parts is nullish, and the content is the parts' renderings joined with "\n" |
| A2aRoute.Translate | src/mastra/routes/a2a-agent-route.ts:121-128 | a nullish message throws; otherwise the message translates exactly when its content does; the role is `msg.role` or "user"; the content is the joined parts |
| A2aRoute.TranslateAll | src/mastra/routes/a2a-agent-route.ts:121-128 | the translation succeeds exactly when every message translates; one agent message per inbound message, in order; the first failure is the one reported |
| A2aRoute.ToolTexts | src/mastra/routes/a2a-agent-route.ts:152-155 | one `JSON.stringify` text per tool result, in order |
| A2aRoute.Artifacts | src/mastra/routes/a2a-agent-route.ts:139-157 | the first artifact is `${agentId}Response` with the agent text and the next fresh id; there is a second artifact exactly when the tool results are non-empty, and it holds their texts; the fresh-id counter advances by the artifact count |
| A2aRoute.BuildArtifacts | src/mastra/routes/a2a-agent-route.ts:139-157 | the array built with `push` and a loop over the tool results equals `Artifacts` |
| A2aRoute.InboundHistory | src/mastra/routes/a2a-agent-route.ts:161-167 | one entry per inbound message, in order, with its role (default "user") and its parts as they came; its messageId when truthy and otherwise an id drawn during the call; its taskId, or the request's taskId, when truthy, and otherwise an id drawn during the call |
| A2aRoute.History | src/mastra/routes/a2a-agent-route.ts:160-175 | N inbound messages give N + 1 entries; the first N are the inbound history; the last is role "agent" with the agent text and the request's taskId when truthy |
| A2aRoute.AgentText | src/mastra/routes/a2a-agent-route.ts:134 | the agent text is "" exactly when the reply has no text or an empty one, and otherwise it is the reply's text |
| A2aRoute.Respond | src/mastra/routes/a2a-agent-route.ts:121-198 | a failed translation is the handler's failure; otherwise the agent's failure or the assembled task: one or two artifacts, a completed status carrying the agent text, N + 1 history entries, and the task id and context id echoed when truthy and drawn fresh otherwise |
| A2aRoute.EnvelopeValid | src/mastra/routes/a2a-agent-route.ts:57-79 | definition: the body is not null, `jsonrpc` is exactly "2.0", and the id is truthy; `A2aRoute.Handle` states what happens when it fails |
| A2aRoute.SelectedMessages | src/mastra/routes/a2a-agent-route.ts:101-107 | with `params` absent or falsy there are no messages; a truthy `params.message` is taken alone |
| A2aRoute.Handle | src/mastra/routes/a2a-agent-route.ts:17-217 | which check wins: the version check comes first (id echoed or null), then any falsy id, then the unknown agent (404 with the registry's names and the requested agent), then missing messages; each code is paired with its HTTP status; an unparseable body yields the default completed task; a task answers only a request that passed every check, echoing its id |
| A2aRoute.SuccessShape | src/mastra/routes/a2a-agent-route.ts:139-198 | a task for N messages has N + 1 history entries echoing role and parts; each messageId is echoed when truthy and is a fresh id otherwise; the agent's text comes last; there are one or two artifacts, the first named `${agentId}Response`; the task id and context id are echoed when truthy and are fresh ids otherwise |
| A2aRoute.ThrowIsInternalError | src/mastra/routes/a2a-agent-route.ts:204-217 | past the checks, anything thrown becomes HTTP 500, -32603, id null, with the message as `details`; otherwise the task is returned under the request id |
| A2aRoute.ContentRoundTrip | src/mastra/routes/a2a-agent-route.ts:123-127 | content made of parts of any kind whose renderings hold no newline splits back at "\n" into exactly those renderings, one per part, in order |
| A2aRoute.OtherKindExample | src/mastra/routes/a2a-agent-route.ts:126-127 | a part of an unknown kind followed by the text part "a" gives the content "\na" |
| Text.ConcatSplit | src/mastra/workflows/playstore-workflow.ts:102-109 | concatenating two lists of blocks is concatenating their concatenations |
| Text.ConcatAt | src/mastra/workflows/playstore-workflow.ts:102-109 | in a concatenation, part i occurs at its offset and ends before part j starts, for every i < j |
| Text.StartsWithAppend | src/mastra/workflows/playstore-workflow.ts:98-117 | appending to a string keeps its prefixes |
| Text.SplitJoin | src/mastra/routes/a2a-agent-route.ts:127 | splitting a join at a separator that no part contains gives the parts back |
| Text.Join | src/mastra/routes/a2a-agent-route.ts:127 | definition of `parts.join(sep)`; `Text.SplitJoin` states that it is undone by `Text.Split` |
| Text.Split | src/mastra/routes/a2a-agent-route.ts:127 | definition of splitting at one separator character, never giving an empty list; it is the inverse `Text.SplitJoin` uses to state what a join produces |
| Text.IndexOf | src/mastra/workflows/playstore-workflow.ts:144 | the first position of a character, or the length when it is absent |
| Text.Without | src/mastra/scorers/playstore-scorer.ts:118 | `replace(/,/g, '')` leaves no comma, keeps every other character and adds none |
| Text.WithoutAppend | src/mastra/scorers/playstore-scorer.ts:118 | removing a character distributes over concatenation |
| PlayStoreWorkflow.HistoryStore.SaveMessage | src/mastra/workflows/playstore-workflow.ts:147-149 | a save appends the message to the memory's log and changes nothing else |
| PlayStoreWorkflow.FetchOne | src/mastra/workflows/playstore-workflow.ts:41-71 | each result is tagged with its app name; it succeeds exactly when the lookup does, carrying the rating, and a failure carries the thrown message |
| PlayStoreWorkflow.FetchRatings | src/mastra/workflows/playstore-workflow.ts:37-74 | exactly one result per app name, in input order, each that name's own lookup outcome, so a failure does not stop later names; the timestamp is the one given |
| PlayStoreWorkflow.Successes | src/mastra/workflows/playstore-workflow.ts:95 | the data of the successful results, in order, never more than there are results; its contents are stated by `PartitionPositions` and `SuccessesComeFromFetched` |
| PlayStoreWorkflow.Failures | src/mastra/workflows/playstore-workflow.ts:96 | the appName and error of the failed results, in order, never more than there are results; `PartitionSizes` and `PartitionPositions` state the split |
| PlayStoreWorkflow.PartitionSizes | src/mastra/workflows/playstore-workflow.ts:95-96 | every fetched result is either a success or a failure |
| PlayStoreWorkflow.PartitionPositions | src/mastra/workflows/playstore-workflow.ts:95-96 | the i-th result appears in its half at the position given by the same-kind results before it |
| PlayStoreWorkflow.SuccessesOrderPreserving | src/mastra/workflows/playstore-workflow.ts:95-119 | forwarded ratings keep the fetch order |
| PlayStoreWorkflow.SuccessesComeFromFetched | src/mastra/workflows/playstore-workflow.ts:95-119 | every forwarded rating is the data of a successful result |
| PlayStoreWorkflow.Header | src/mastra/workflows/playstore-workflow.ts:98 | the header starts with "📊 App Ratings Report - " |
| PlayStoreWorkflow.SuccessBlock | src/mastra/workflows/playstore-workflow.ts:103-108 | definition: the six lines of one success, in order; `BlockStartsWithTitle` states how it opens |
| PlayStoreWorkflow.FailureLine | src/mastra/workflows/playstore-workflow.ts:115 | the line of a failure starts with "   • appName: " and ends with a newline |
| PlayStoreWorkflow.SuccessSection | src/mastra/workflows/playstore-workflow.ts:100-110 | the success section is empty exactly when there is no success, and otherwise starts with "✅ Successfully Retrieved:" |
| PlayStoreWorkflow.FailureSection | src/mastra/workflows/playstore-workflow.ts:112-117 | the failure section is empty exactly when there is no failure, and otherwise starts with "❌ Failed to Retrieve:" after a blank line |
| PlayStoreWorkflow.Report | src/mastra/workflows/playstore-workflow.ts:98-117 | definition: the header, then the success section, then the failure section; the lemmas `ReportStartsWithTitle` to `FailureSectionIff` state its structure |
| PlayStoreWorkflow.BlockStartsWithTitle | src/mastra/workflows/playstore-workflow.ts:103-108 | each success block begins with its "📱 title" line |
| PlayStoreWorkflow.BlocksStep | src/mastra/workflows/playstore-workflow.ts:102-109 | one more success adds exactly its block at the end of the blocks |
| PlayStoreWorkflow.LinesStep | src/mastra/workflows/playstore-workflow.ts:114-116 | one more failure adds exactly its line at the end of the lines |
| PlayStoreWorkflow.AppendBlock | src/mastra/workflows/playstore-workflow.ts:103-108 | the six `+=` of one success append exactly that success's block |
| PlayStoreWorkflow.AppendSuccesses | src/mastra/workflows/playstore-workflow.ts:100-110 | the success section is appended: nothing without successes, else the heading and one block per success in order |
| PlayStoreWorkflow.AppendFailures | src/mastra/workflows/playstore-workflow.ts:112-117 | the failure section is appended: nothing without failures, else the heading and one "   • appName: error" line per failure in order |
| PlayStoreWorkflow.FormatResults | src/mastra/workflows/playstore-workflow.ts:93-119 | the report is a function of the fetch output and the formatter alone; the forwarded ratings are exactly the successes' data, in order |
| PlayStoreWorkflow.ReportStartsWithTitle | src/mastra/workflows/playstore-workflow.ts:98 | the report always begins with "📊 App Ratings Report - " |
| PlayStoreWorkflow.ReportAfterHeader | src/mastra/workflows/playstore-workflow.ts:98-117 | the report is the header, then the success section, then the failure section |
| PlayStoreWorkflow.ReportAroundBlocks | src/mastra/workflows/playstore-workflow.ts:98-117 | with successes, the success heading follows the header, and then come the blocks of the successes in order, then the failure section |
| PlayStoreWorkflow.ReportEndsWithFailureLines | src/mastra/workflows/playstore-workflow.ts:112-117 | with failures, the report ends with the failure heading and the failure lines in order, after the success section |
| PlayStoreWorkflow.SuccessSectionIff | src/mastra/workflows/playstore-workflow.ts:100-101 | the success heading follows the header if and only if there is a success |
| PlayStoreWorkflow.FailureSectionIff | src/mastra/workflows/playstore-workflow.ts:112-113 | the failure heading follows the success section if and only if there is a failure, and the report ends there exactly when there is none |
| PlayStoreWorkflow.MixedBatchExample | src/mastra/workflows/playstore-workflow.ts:37-119 | one success and one failure give one success, one failure and the exact report with both sections |
| PlayStoreWorkflow.HistoryKey | src/mastra/workflows/playstore-workflow.ts:144 | a key starts with "rating_history:" and is one character longer than its prefix, app id and timestamp together, the ":" between them |
| PlayStoreWorkflow.HistoryKeyRoundTrip | src/mastra/workflows/playstore-workflow.ts:144 | a key `rating_history:{appId}:{timestamp}` reads back as its app id and timestamp when the app id has no ':' |
| PlayStoreWorkflow.EntriesKeysRoundTrip | src/mastra/workflows/playstore-workflow.ts:139-146 | every saved entry's key reads back as its rating's app id and the store step's one timestamp |
| PlayStoreWorkflow.Entry | src/mastra/workflows/playstore-workflow.ts:140-146 | definition: the message saved for one rating, with role "assistant", the rating's JSON as its content and its history key |
| PlayStoreWorkflow.Entries | src/mastra/workflows/playstore-workflow.ts:139-146 | one entry per forwarded rating |
| PlayStoreWorkflow.StoreResults | src/mastra/workflows/playstore-workflow.ts:132-155 | `stored` is the number of forwarded ratings, with or without memory; with memory, the log grows by one entry per rating, in order, and by nothing else |
| PlayStoreWorkflow.RunRatingCheck | src/mastra/workflows/playstore-workflow.ts:17-159 | the three steps in order: one result per name, the report of those results, the successes forwarded, and one stored entry per success |
| PlayStoreScorer.RunStart | src/mastra/scorers/playstore-scorer.ts:116 | the leftmost `[\d,]` character from a position, or the end |
| PlayStoreScorer.RunEnd | src/mastra/scorers/playstore-scorer.ts:116 | the run of `[\d,]` characters from a position is maximal |
| PlayStoreScorer.FirstRun | src/mastra/scorers/playstore-scorer.ts:116-117 | there is no match exactly when no character is a digit or a comma; a match is a non-empty run of them |
| PlayStoreScorer.FirstRunOf | src/mastra/scorers/playstore-scorer.ts:116 | the match is the leftmost maximal run: text without digits or commas, a run, then a non-run character |
| PlayStoreScorer.DigitChar | src/mastra/scorers/playstore-scorer.ts:118 | a digit's character reads back as that digit |
| PlayStoreScorer.ParseInt | src/mastra/scorers/playstore-scorer.ts:118 | `parseInt` of a digit string is NaN exactly for "" |
| PlayStoreScorer.Decimal | src/mastra/scorers/playstore-scorer.ts:118 | definition: the value of a decimal digit string; `DecimalDigits` and `DecimalGrouped` state that it reads back what `Digits` and `Grouped` write |
| PlayStoreScorer.WithoutCommasIsDigits | src/mastra/scorers/playstore-scorer.ts:118 | a run with its commas removed is all digits |
| PlayStoreScorer.ParseInstalls | src/mastra/scorers/playstore-scorer.ts:115-119 | a string without digits or commas parses to 0 |
| PlayStoreScorer.CommaOnlyRunIsNaN | src/mastra/scorers/playstore-scorer.ts:116-118 | a first run made only of commas parses to NaN |
| PlayStoreScorer.Digits | src/mastra/scorers/playstore-scorer.ts:118 | a number's decimal digits form a non-empty digit string |
| PlayStoreScorer.Pad3 | src/mastra/scorers/playstore-scorer.ts:118 | a group below 1000 is three digits |
| PlayStoreScorer.Grouped | src/mastra/scorers/playstore-scorer.ts:116 | a comma-grouped number starts with a digit and is a run of `[\d,]` |
| PlayStoreScorer.DecimalDigits | src/mastra/scorers/playstore-scorer.ts:118 | a number's digits read back as the number |
| PlayStoreScorer.DecimalPad3 | src/mastra/scorers/playstore-scorer.ts:118 | appending a three-digit group multiplies by 1000 and adds the group |
| PlayStoreScorer.DecimalGrouped | src/mastra/scorers/playstore-scorer.ts:118 | a comma-grouped number without its commas reads back as the number |
| PlayStoreScorer.NoCommaUnchanged | src/mastra/scorers/playstore-scorer.ts:118 | removing commas from digits changes nothing |
| PlayStoreScorer.ParseGroupedInstalls | src/mastra/scorers/playstore-scorer.ts:115-119 | any comma-grouped count followed by a non-run suffix such as "+" parses to that count |
| PlayStoreScorer.ParseInstallsExample | src/mastra/scorers/playstore-scorer.ts:115-119 | "10,000,000+" parses to 10000000 |
| PlayStoreScorer.RatingTier | src/mastra/scorers/playstore-scorer.ts:30-38 | one of four rating tiers |
| PlayStoreScorer.CountTier | src/mastra/scorers/playstore-scorer.ts:41-49 | one of four ratings-count tiers |
| PlayStoreScorer.InstallTier | src/mastra/scorers/playstore-scorer.ts:52-61 | one of four install tiers, and NaN fails every threshold and lands in the last one |
| PlayStoreScorer.Score | src/mastra/scorers/playstore-scorer.ts:15-62 | the score of a present input lies in [20, 100], inside the declared 0..100 range |
| PlayStoreScorer.CategoryOf | src/mastra/scorers/playstore-scorer.ts:106-110 | "excellent" exactly from 80, "good" exactly from 60 below 80, "average" exactly from 40 below 60, "poor" exactly below 40 |
| PlayStoreScorer.GenerateScore | src/mastra/scorers/playstore-scorer.ts:21-63 | a missing input scores 0; otherwise the accumulated `score +=` steps equal the sum of the three tiers' points |
| PlayStoreScorer.GenerateReason | src/mastra/scorers/playstore-scorer.ts:64-113 | a missing input gives "poor" and the single insight "Invalid input provided"; otherwise the category follows the score and there are exactly three insights (rating, count, installs) chosen by the score's thresholds |
| PlayStoreScorer.RatingPointsMonotone | src/mastra/scorers/playstore-scorer.ts:30-38 | a higher rating never earns fewer points |
| PlayStoreScorer.CountPointsMonotone | src/mastra/scorers/playstore-scorer.ts:41-49 | a larger ratings count never earns fewer points |
| PlayStoreScorer.InstallPointsMonotone | src/mastra/scorers/playstore-scorer.ts:52-61 | a larger parsed install count never earns fewer points, with NaN below every number |
| PlayStoreScorer.ScoreMonotone | src/mastra/scorers/playstore-scorer.ts:29-61 | the score is monotone in rating, in ratings count and in parsed installs |
| PlayStoreScorer.NaNInstallsScoreLikeZero | src/mastra/scorers/playstore-scorer.ts:52-61 | an install string that parses to NaN scores as "0" does |
| PlayStoreScorer.ZeroInstalls | src/mastra/scorers/playstore-scorer.ts:115-119 | "0" parses to the number 0 |
| PlayStoreScorer.CategoryMonotone | src/mastra/scorers/playstore-scorer.ts:106-110 | a higher score never gets a worse category |
| PlayStoreScorer.InsightsAgreeWithScore | src/mastra/scorers/playstore-scorer.ts:71-103 | the rating insight is "Excellent user rating" exactly when the rating earns 40 points; the count and install insights are the lowest ones exactly when those metrics earn 5 points |
| PlayStoreScorer.TopScoreExample | src/mastra/scorers/playstore-scorer.ts:29-110 | 4.6 stars, 150000 ratings and "10,000,000+" score 100, which is "excellent" |
| PlayStoreTool.Normalize | src/mastra/tools/playstore-tool.ts:55-69 | rating, ratingsCount and reviews default to 0 when falsy; installs, developer and version default to "Unknown"; price is "Free" when free, else the price, else "Unknown"; lastUpdated is the ISO date or "Unknown"; url falls back to the store URL of the app id; an invalid date throws |
| PlayStoreTool.NormalizedFieldsNeverFalsy | src/mastra/tools/playstore-tool.ts:61-68 | the defaulted text fields and the price are never falsy |
| PlayStoreTool.PresentFieldsPassThrough | src/mastra/tools/playstore-tool.ts:55-69 | present, truthy fields pass through unchanged |
| PlayStoreTool.Lookup | src/mastra/tools/playstore-tool.ts:40-69 | a failed search fails with its message; an absent or empty search result fails with "No app found with name: <appName>"; otherwise the details of the first hit are fetched and normalised, and a failed details call fails with its message |
| PlayStoreTool.Execute | src/mastra/tools/playstore-tool.ts:38-73 | the tool succeeds exactly when `Lookup` does, with the same record; every failure is `Lookup`'s message behind the "Failed to fetch app details: " prefix, including the not-found case and a failed search or details call |
| PlayStoreTool.FirstHitOnly | src/mastra/tools/playstore-tool.ts:50-53 | only the first search hit matters |
| PlayStoreTool.RecordIsFirstHit | src/mastra/tools/playstore-tool.ts:50-56 | a record's app id is the first hit's when the details service echoes the id it was asked for |

## Left out

- CORS headers, the OPTIONS preflight, `c.json` and every log line are not modelled (src/mastra/routes/a2a-agent-route.ts:8-15). They are transport and diagnostics.
- `stack` in the internal-error data (`NODE_ENV === 'development'`) is not modelled, because it depends on the environment.
- The exact wording of V8's TypeError messages is not modelled. Thrown messages are modelled as the texts the model gives them, and only their presence is stated.
- `mastra.getAgent` is modelled as a map lookup that takes the `if (!agent)` branch. A registry that throws on an unknown name is not modelled.
- `availableAgents` is the set of registered names, so the key order of `Object.keys` is not modelled.
- Numbers are reals, so NaN in a request value, and its falsiness, are not modelled.
- `parseInt` precision beyond 2^53 is not modelled. The parsed count is an unbounded natural number.
- `JSON.stringify`, `String(v)`, `randomUUID`, `toISOString`, `toLocaleString` and number-to-text conversion are parameters, without properties of their own.
- `agent.generate`, `gplay.search`, `gplay.app` and `memory.saveMessages` are oracle parameters. A failing `saveMessages` (which would stop the store step) is not modelled: `SaveMessage` always appends.
- The zod schemas and the engine's `createWorkflow`/`createStep` are not modelled. The three steps are called in order, and a step's failure does not arise because every lookup failure is caught.
- The agent configuration (src/mastra/agents/playstore-agent.ts) and the wiring (src/mastra/index.ts) are not part of this model.
- PlayStoreWorkflow.ReportAroundBlocks: the position of each success block inside the report is given by this decomposition together with `Text.ConcatAt`. The two are not combined into one statement about offsets in the full report.
- A2aRoute.MessagesList: the `messagesList` reassignment is a three-way choice with no loop, so it is modelled as a function.
- PlayStoreWorkflow.Entries: its own contract states only the count. The keys are stated by `EntriesKeysRoundTrip`, and the exact contents by `StoreResults`.
