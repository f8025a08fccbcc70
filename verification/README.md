# Stagehand core decision logic in Dafny

Stagehand is a browser-automation SDK driven by language models. This project models five
pieces of pure decision logic that sit around its I/O, and proves properties of them:

- **Model-name dispatch** (`LlmProvider`, `llm_provider.dfy`). `LLMProvider.getClient` maps a
  model name to a client kind: the Vertex client, an AI SDK client made with or without an API
  key, or one of the five direct vendor clients. Otherwise it gives a typed error. The module
  also models the classifier `getModelProvider`, the constructor's cache and
  `cleanRequestCache`. The three provider tables are Dafny constants.
- **Vertex option validation** (`GoogleVertex`, `google_vertex.dfy`). The `GoogleVertexClient`
  constructor checks `vertexai`, `project` and `location` in that order. It then forwards the
  options with `vertexai` forced to `true`.
- **The remote-session client** (`StreamDecoder`, `stream_decoder.dfy`; `ApiClient`,
  `api_client.dfy`).
  - The streamed body of a session call is decoded incrementally. A buffer state is stepped
    by one function per chunk. Complete `"\n\n"`-terminated records are handled in order, and
    the tail is kept.
  - `init` decides on the API key, the region, the status and the body. `execute` checks the
    status and the body before decoding.
  - The call path is `/sessions/{id}/{method}[?query]`. `agentExecute` refuses MCP
    integrations before making any request.
- **Observation result mapping** (`ObserveHandler`, `observe_handler.dfy`). `observe` picks the
  default instruction and the metrics bucket, and appends the iframe placeholders. It then runs
  an order-preserving map-then-filter from the elements the model returned to `ObserveResult`s.
- **The eval runner's command line** (`EvalArgs`, `eval_args.dfy`). Each argument is classified
  by its prefix. Fields are last-wins, and numeric fields use `parseInt`. The module also
  models the `help`/`man` switches and the positional category or eval-name filter.

`Values` (`values.dfy`) holds `Option`, `Result` and the JavaScript values the code inspects,
with ECMAScript truthiness. `Text` (`text.dfy`) holds the string helpers.

Foreign code is given to the model as inputs, never as assumptions:
- `JSON.parse` is a `parse: string -> Parsed` parameter.
- `trimTrailingTextNode` and `encodeWithFrameId` are function parameters.
- The accessibility-tree builders are their result (`Snapshot`), and the inference call is its
  response (`Inference`).
- `EvalCategorySchema` is an `isCategory` predicate.
- The HTTP responses are data.

Behaviour of the code that the model keeps and that a reader might not expect:
- A `system`/`error` record in the stream is thrown inside the decoder's `try`, so the caller
  sees `StagehandResponseParseError` (lib/api.ts:223-240); see
  `StreamDecoder.ServerErrorIsParseError`.
- A truthy region other than `us-west-2` makes `init` return
  `{sessionId: browserbaseSessionID ?? null, available: false}` without any request
  (lib/api.ts:67-70). The unavailable-reroute of lines 110-113 applies only after a successful
  start.
- `init` stores `modelApiKey` before it sends the request (lib/api.ts:65), so a 401 leaves the
  key stored and only the session id unset.
- The HTTP error of `init` carries only the status; the body goes to the log
  (lib/api.ts:91-98).

## Model

| member | source | states |
|---|---|---|
| Text.IndexOf | lib/llm/LLMProvider.ts:183 | `indexOf` is absent exactly when the character does not occur; otherwise it is a position of the character with none before it |
| Text.SplitAtFirst | lib/llm/LLMProvider.ts:183-185 | the text before the first `/` and everything after it rebuild the name, and the first part holds no `/` |
| Text.SplitAtFirstOfJoin | lib/llm/LLMProvider.ts:183-185 | a name built as `before/after` with no `/` in `before` splits back into exactly `before` and `after` |
| Text.ToLowerAscii | evals/args.ts:27 | lower-casing keeps the length and maps each character on its own, changing only `A`-`Z` |
| LlmProvider.IsVertexAIRequest | lib/llm/LLMProvider.ts:100-106 | definition: the options exist, have a `vertexai` property, and it is truthy |
| LlmProvider.ApiKeyOf | lib/llm/LLMProvider.ts:201 | definition: `clientOptions?.apiKey`, `undefined` when the options or the key are missing |
| LlmProvider.TableHasOnlyVendorFamilies | lib/llm/LLMProvider.ts:63-98 | every static-table value is one of the five vendor families, never `aisdk`, and each of the five occurs |
| LlmProvider.GetAISDKLanguageModel | lib/llm/LLMProvider.ts:108-146 | `google` with a truthy `vertexai` is refused. With a truthy key it succeeds iff the sub-provider is in the with-key table, and the error lists that table. Without a key the same holds for the default table. The model is made from the given sub-provider and sub-model, keyed iff the key is truthy |
| LlmProvider.StaticLookupAsWritten | lib/llm/LLMProvider.ts:213 | `modelToProviderMap[name]` as JavaScript reads it: an own entry iff the name is in the table; an inherited member iff it is not but is an `Object.prototype` key |
| LlmProvider.StaticLookup | lib/llm/LLMProvider.ts:213-216 | the own-property lookup: never an inherited member, and an entry iff the name is in the table, with that entry's family |
| LlmProvider.DirectClientFor | lib/llm/LLMProvider.ts:213-263 | a missing name raises `UnsupportedModelError` with the table's names. A value that is no handled family raises `UnsupportedModelProviderError` listing the distinct families. A vendor family builds exactly that family's client for the name and options |
| LlmProvider.GetClient | lib/llm/LLMProvider.ts:178-264 | a name with `/` never builds a direct client or raises the static-table errors. A bare name succeeds iff it is in the static table, and then yields its family's client (never `aisdk`). Otherwise it raises `UnsupportedModelError` |
| LlmProvider.NamespacedNameSplitsAtFirstSlash | lib/llm/LLMProvider.ts:182-211 | an AI SDK client on the slash path is built from the text before the first `/` and everything after it; a Vertex client keeps the whole `google/...` name |
| LlmProvider.VertexOverridesAISdk | lib/llm/LLMProvider.ts:182-203 | `google/...` with a truthy `vertexai` yields the Vertex client for the whole name with the validated options, or exactly the validation's error, never the AI SDK. `getAISDKLanguageModel` itself refuses that combination |
| LlmProvider.NamespacedNameUsesAISdk | lib/llm/LLMProvider.ts:182-210 | every other name with `/` succeeds iff `getAISDKLanguageModel` does for the parts around the first `/`, wrapping exactly the model it builds, and otherwise fails with its error; so it is accepted iff the sub-provider is in the with-key table (truthy key) or the default table (no key) |
| LlmProvider.OllamaOnlyWithoutApiKey | lib/llm/LLMProvider.ts:120-145 | `ollama/...` fails with a truthy key, listing the with-key table, which lacks `ollama`. Without a key it succeeds from the default table |
| LlmProvider.UnknownSubProviderRejected | lib/llm/LLMProvider.ts:120-145 | a sub-provider in neither AI SDK table raises `UnsupportedAISDKModelProviderError` naming it, with or without a key |
| LlmProvider.DefaultBranchUnreachable | lib/llm/LLMProvider.ts:218-262 | with the own-property lookup, `getClient` never raises `UnsupportedModelProviderError` |
| LlmProvider.InheritedNameReachesDefault | lib/llm/LLMProvider.ts:213-262 | a bare `Object.prototype` key such as `constructor` reaches the switch's `default` and raises `UnsupportedModelProviderError` as written; the corrected lookup raises `UnsupportedModelError` |
| LlmProvider.ToStringReachesDefault | lib/llm/LLMProvider.ts:213-262 | the concrete input `toString` shows the discrepancy |
| LlmProvider.GetModelProvider | lib/llm/LLMProvider.ts:266-279 | the answer is absent exactly when the name is not in the static table and not a namespaced name whose sub-provider is in the default table (with `usingOriginalProvider` false) |
| LlmProvider.ModelProviderClassification | lib/llm/LLMProvider.ts:266-279 | `aisdk` iff the name has `/`, `usingOriginalProvider` is false and the sub-provider is in the default table; otherwise the static-table entry or nothing |
| LlmProvider.KimiClassifiedAsGroq | lib/llm/LLMProvider.ts:266-279 | `moonshotai/kimi-k2-instruct` is not an AI SDK name (`moonshotai` is not in the default table), so `getModelProvider` answers the static entry `"moonshotai/kimi-k2-instruct": "groq"` (lib/llm/LLMProvider.ts:88) |
| LlmProvider.KimiUnroutable | lib/llm/LLMProvider.ts:182-203 | `getClient` sends `moonshotai/kimi-k2-instruct` down the slash path, where it fails with the unsupported-AI-SDK-provider error for `moonshotai`, whatever the options |
| LlmProvider.KimiClassifiedButUnroutable | lib/llm/LLMProvider.ts:182-203 | `moonshotai/kimi-k2-instruct` classifies as `groq` (lines 88, 270-278), yet `getClient` sends it down the slash path, where it fails with the unsupported-AI-SDK-provider error for `moonshotai` |
| LlmProvider.NewLlmProvider | lib/llm/LLMProvider.ts:153-157 | the provider keeps the caching flag and has a cache exactly when caching is enabled |
| LlmProvider.CleanRequestCache | lib/llm/LLMProvider.ts:159-176 | no call when caching is disabled; otherwise one log call, then one deletion, and every deletion is for exactly the given request id |
| GoogleVertex.NewVertexOptions | lib/llm/GoogleVertexClient.ts:28-48 | success iff `vertexai`, `project` and `location` are all truthy. Each falsy field raises its own error in that order. The forwarded options are the input with `vertexai` set to `true` and every other field unchanged |
| GoogleVertex.FirstMissingFieldReported | lib/llm/GoogleVertexClient.ts:29-37 | construction fails iff some required field is falsy, and the error names the first such field in check order, with every earlier field truthy |
| GoogleVertex.MissingProjectIsConfigurationError | lib/llm/GoogleVertexClient.ts:32-34 | a missing or empty project fails with the project error whatever the location |
| StreamDecoder.FirstSeparatorSpec | lib/api.ts:217 | the separator search finds the leftmost `"\n\n"`, and finds none only when there is none |
| StreamDecoder.SplitRecords | lib/api.ts:217-218 | definition: the records before each `"\n\n"` and the text after the last one; `StreamDecoder.SplitRecordsSound` states what it guarantees |
| StreamDecoder.SplitRecordsSound | lib/api.ts:217-218 | `split("\n\n")` followed by `pop()` loses nothing (joining records and tail gives the buffer back), and no record and no tail holds a separator |
| StreamDecoder.SplitRecordsAppend | lib/api.ts:216-218 | splitting `x + y` gives the records of `x`, then the records of `x`'s tail followed by `y` |
| StreamDecoder.SingleRecordSplits | lib/api.ts:217-218 | one record that holds no separator and does not end in a newline, followed by one separator, splits into exactly that record and an empty tail |
| StreamDecoder.TwoRecordsSplit | lib/api.ts:217-218 | two terminated records split back into exactly those two records |
| StreamDecoder.HandleRecord | lib/api.ts:220-242 | a record without `data: ` is skipped. A continuing record forwards at most one log message. A stopping record forwards none, and it stops with a result or the parse error, never `null` |
| StreamDecoder.HandleRecords | lib/api.ts:220-242 | definition: the `for` loop over the records, each handled in order until one stops the call |
| StreamDecoder.HandleRecordsAppend | lib/api.ts:220-242 | handling `a + b` is handling `a` and then, unless that stopped, `b` |
| StreamDecoder.LogsOnlyGrow | lib/api.ts:233-235 | handling records only appends to the forwarded log messages |
| StreamDecoder.Feed | lib/api.ts:216-242 | a stopped decoder ignores the chunk. A decoder still reading keeps a buffer with no complete record and has only appended to the logs |
| StreamDecoder.FeedEmpty | lib/api.ts:216-218 | an empty chunk changes nothing in a decoder whose buffer holds no complete record |
| StreamDecoder.FeedTwice | lib/api.ts:216-218 | two reads in a row do what one read of the joined chunks does |
| StreamDecoder.FeedAll | lib/api.ts:209-218 | definition: the reads that delivered a chunk, fed in order |
| StreamDecoder.Decode | lib/api.ts:209-245 | definition: the whole read loop, all chunks fed and then the final read; `StreamDecoder.DecodeByRecords` and `StreamDecoder.ChunkingInvariant` characterise it |
| StreamDecoder.FeedAllIsFeedConcat | lib/api.ts:209-219 | feeding the chunks one by one is feeding their concatenation once |
| StreamDecoder.Finish | lib/api.ts:209-245 | a stopped decoder reports its outcome. An empty buffer at the end of the stream gives `null` |
| StreamDecoder.ChunkingInvariant | lib/api.ts:209-219 | the forwarded log messages and the outcome are the same for any chunking of the stream as for the whole stream in one chunk |
| StreamDecoder.SameStreamSameDecoding | lib/api.ts:209-219 | two chunkings of the same stream decode alike |
| StreamDecoder.DecodeByRecords | lib/api.ts:209-245 | a stream decodes as its complete records handled in order. If none stops, the outcome is `null` when no tail remains and no result when an unterminated tail remains |
| StreamDecoder.UnterminatedRecordNeverParsed | lib/api.ts:212-244 | a stream without a separator never has a record parsed: `null` if it is empty, otherwise no result |
| StreamDecoder.StoppedIgnoresLaterChunks | lib/api.ts:228-232 | once the call has returned or failed, no later chunk is looked at |
| StreamDecoder.FinishedStopsDecoding | lib/api.ts:230-232 | a `system`/`finished` record returns its result at once, whatever follows in later chunks |
| StreamDecoder.LogsForwardedInOrder | lib/api.ts:233-235 | `log` records forward their messages, one each, in record order |
| StreamDecoder.OtherRecordsIgnored | lib/api.ts:221-235 | records without `data: `, other event types and `system` records of other statuses have no effect |
| StreamDecoder.ServerErrorIsParseError | lib/api.ts:223-240 | a `system`/`error` record ends the call with the same parse error as malformed JSON |
| StreamDecoder.LogThenFinished | lib/api.ts:209-245 | a log record then a `finished` record forward the message and return the result |
| StreamDecoder.LogSplitAcrossChunksThenFinished | lib/api.ts:209-245 | the same when the log record is cut anywhere across two chunks |
| ApiClient.TemplateText | lib/api.ts:187 | a string id is rendered as itself; a value none of whose strings (itself or inside nested arrays) holds `/` renders without `/`, and likewise for `?` |
| ApiClient.JoinText | lib/api.ts:187 | an array renders through `join(",")`, `null` and `undefined` elements as empty text; when no element's strings hold `/` (or `?`), neither does the text |
| ApiClient.SessionUrl | lib/api.ts:185-187 | the path starts with `/sessions/{id}/{method}`, and is exactly that when the query string is empty |
| ApiClient.SessionUrlRoundTrip | lib/api.ts:187 | when the rendered id has no `/` and the method no `?`, the id, method and query string read back from the path |
| ApiClient.SlashFreeIdRoundTrip | lib/api.ts:187 | every id whose strings hold no `/` (`undefined` before a start, `null`, a number, a slash-free string, an array of such values) reads back from the path with the method and query string, for a method without `?` |
| ApiClient.ArrayIdWithSlashMisaddressed | lib/api.ts:187 | an array id renders through `join`, so the call `act` on the id `["a/b"]` has the same path as the call `b/act` on session `a`, and reads back as the latter |
| ApiClient.UnstartedCallAddressesUndefined | lib/api.ts:187 | a call before any session start addresses `/sessions/undefined/...` |
| ApiClient.EndUrl | lib/api.ts:172-178 | `end` uses the same path format with method `end` and no query |
| ApiClient.Init | lib/api.ts:62-116 | a falsy key fails before any request. The start request is sent iff the key is truthy and the region is falsy or `us-west-2`; otherwise the call returns `{browserbaseSessionID ?? null, false}`. Once sent: 401 is unauthorized, any other non-200 status an HTTP error with that status, a 200 body with `success === false` the API error with the server's message, a missing body or `data` a runtime error, and any other 200 body a success with the server's id stored and its `available`. Every failure leaves the session id as it was, and the key is stored whenever it is truthy |
| ApiClient.InitStoresServerId | lib/api.ts:108-115 | after a successful start the client stores the server's id. The caller gets the Browserbase id instead exactly when the server reports the session unavailable and that id is truthy |
| ApiClient.StartedCallsAddressServerSession | lib/api.ts:108-187 | after a successful start every later call addresses the id the server gave, even when `init` handed the caller the Browserbase id |
| ApiClient.UnauthorizedLeavesSessionUnset | lib/api.ts:87-90 | a 401 on a fresh client raises unauthorized and leaves no session id |
| ApiClient.Execute | lib/api.ts:180-246 | the call requests the session path. A non-ok status is an HTTP error and a missing body a body error, each with no log forwarded. Otherwise the result is the stream decoding, with its parse failure reported as the response-parse error |
| ApiClient.Perform | lib/api.ts:118-170 | `agentExecute` with non-empty integrations fails without any request. Every other call requests `/sessions/{id}/{method}` |
| ApiClient.HttpChecksPrecedeDecoding | lib/api.ts:194-203 | a failing status or a missing body forwards no log line, whatever the stream holds |
| ObserveHandler.EffectiveInstruction | lib/handlers/observeHandler.ts:63-65 | a missing or empty instruction is replaced by the fixed default text; any other one is kept |
| ObserveHandler.CountOrZero | lib/handlers/observeHandler.ts:128-132 | a missing counter is 0 and a present one is kept |
| ObserveHandler.Metrics | lib/handlers/observeHandler.ts:128-139 | the bucket is ACT iff `fromAct`; the counters are the response's, missing ones as 0 |
| ObserveHandler.DiscoveredIframes | lib/handlers/observeHandler.ts:94-113 | the frame-aware builder reports no iframes; the flat builder reports the ones it found |
| ObserveHandler.Placeholders | lib/handlers/observeHandler.ts:149-159 | one placeholder per discovered iframe, in order |
| ObserveHandler.ResolveElement | lib/handlers/observeHandler.ts:180-219 | an id without `-` becomes the shadow-DOM stub. An id with `-` is dropped iff its trimmed xpath is missing or empty; otherwise it keeps its other fields and gets `xpath=` plus that xpath |
| ObserveHandler.ResolveEach | lib/handlers/observeHandler.ts:162-221 | the map keeps the length and resolves each element at its own position |
| ObserveHandler.Survivors | lib/handlers/observeHandler.ts:222 | definition: `.filter(e => e !== undefined)` over the per-element results |
| ObserveHandler.ResolveAll | lib/handlers/observeHandler.ts:162-222 | definition: the map followed by the filter; `ObserveHandler.ResolveAllIsOrderedSubsequence` characterises it |
| ObserveHandler.KeptIndicesIncrease | lib/handlers/observeHandler.ts:222 | the positions that survive the filter are in range and strictly increasing, one per output |
| ObserveHandler.KeptIndicesResolve | lib/handlers/observeHandler.ts:222 | the k-th output is the result at the k-th surviving position |
| ObserveHandler.KeptIndicesComplete | lib/handlers/observeHandler.ts:222 | every position not listed as surviving was dropped |
| ObserveHandler.SurvivorsNoLonger | lib/handlers/observeHandler.ts:222 | filtering never lengthens the list |
| ObserveHandler.SurvivorsAppend | lib/handlers/observeHandler.ts:222 | filtering a concatenation filters each part |
| ObserveHandler.SurvivorsAreResolved | lib/handlers/observeHandler.ts:222 | every output was a resolved element |
| ObserveHandler.ResolveAllIsOrderedSubsequence | lib/handlers/observeHandler.ts:162-222 | the output is an order-preserving subsequence of the per-element results, no longer than the input, and every element left out was dropped |
| ObserveHandler.ResolveAllAppend | lib/handlers/observeHandler.ts:162-222 | resolving a concatenation resolves each part and concatenates |
| ObserveHandler.ResolvedSelectorWellFormed | lib/handlers/observeHandler.ts:180-219 | a resolved element's selector is `not-supported` or `xpath=` followed by non-empty text |
| ObserveHandler.SelectorsWellFormed | lib/handlers/observeHandler.ts:162-240 | every output selector is `not-supported` or `xpath=` followed by non-empty text |
| ObserveHandler.Observe | lib/handlers/observeHandler.ts:63-240 | the observation sends the effective instruction, records the metrics update, and returns no more results than model elements plus discovered iframes |
| ObserveHandler.PlaceholdersFollowModelElements | lib/handlers/observeHandler.ts:141-160 | the results are those of the model's elements followed by those of one placeholder per discovered iframe, in order. With `iframes` they are the model's only |
| ObserveHandler.NothingObservedIsEmpty | lib/handlers/observeHandler.ts:162-240 | no model elements and no iframes give an empty result |
| EvalArgs.Split | evals/args.ts:27 | `split("=")` gives at least one piece, at least two when there is a `=`, and no piece holds a `=` |
| EvalArgs.JoinSplit | evals/args.ts:27 | joining the pieces with the separator gives the string back |
| EvalArgs.SplitJoin | evals/args.ts:27 | pieces free of the separator, joined, split back into those pieces |
| EvalArgs.ValueIsSecondSegment | evals/args.ts:27-47 | the value is the text after the first `=` up to the next `=` or the end |
| EvalArgs.NameValueStopsAtSecondEquals | evals/args.ts:31 | `name=a=b` gives `a` |
| EvalArgs.TrimStart | evals/args.ts:33 | `parseInt`'s white-space skip leaves a suffix that does not start with white space |
| EvalArgs.TrimStartRemovesSpace | evals/args.ts:33 | only white space is skipped |
| EvalArgs.LeadingDigits | evals/args.ts:33 | the digits read are a prefix, all digits, followed by the end or a non-digit |
| EvalArgs.Unsigned | evals/args.ts:33 | the text read after skipping white space and at most one sign |
| EvalArgs.ParseInt | evals/args.ts:33-36 | `parseInt(s, 10)` is NaN exactly when no digit follows the white space and sign |
| EvalArgs.ParseIntOfNat | evals/args.ts:33 | `parseInt` reads back the decimal text of a natural number, stopping at the first non-digit |
| EvalArgs.ParseIntOfNegative | evals/args.ts:33 | the same after a minus sign gives the negative number |
| EvalArgs.ParseIntWithoutDigits | evals/args.ts:33-36 | text that starts with neither a sign, white space nor a digit is NaN, so it is ignored |
| EvalArgs.Prefix | evals/args.ts:26-46 | every key's prefix ends in `=` |
| EvalArgs.ClassifyFrom | evals/args.ts:25-54 | the first prefix tested from a position on that the argument starts with; none means no later prefix fits |
| EvalArgs.PrefixesExclusive | evals/args.ts:25-54 | at most one prefix fits any argument |
| EvalArgs.Classify | evals/args.ts:25-54 | a classified argument starts with its key's prefix and has a `=` |
| EvalArgs.ClassifyExact | evals/args.ts:25-54 | an argument sets a key iff it starts with that key's prefix |
| EvalArgs.DatasetNeedsDashes | evals/args.ts:44-52 | `dataset=` without the dashes matches no prefix and lands in `leftover` |
| EvalArgs.LastText | evals/args.ts:25-45 | definition: the value of the last argument that sets a text key, lower-cased for `env`, `api`, `provider`, `dataset` |
| EvalArgs.LastNumber | evals/args.ts:32-50 | definition: the number of the last argument that sets a numeric key with a value `parseInt` reads |
| EvalArgs.Unmatched | evals/args.ts:51-53 | definition: the arguments no prefix matches, in order |
| EvalArgs.Described | evals/args.ts:11-54 | definition: `parsedArgs` field by field, independent of the loop; `EvalArgs.ParseArgs` is proved to compute it |
| EvalArgs.DescribedSnoc | evals/args.ts:25-54 | one more argument changes only the field it sets: text keys take its value (lower-cased for `env`, `api`, `provider`, `dataset`), numeric keys only a readable number, unmatched ones append to `leftover` |
| EvalArgs.ApplyArg | evals/args.ts:26-53 | one pass of the loop turns the description of the arguments so far into that of one more |
| EvalArgs.ParseArgs | evals/args.ts:25-54 | the loop computes the field-by-field description: last wins per key, numeric keys count only readable numbers, unmatched arguments in order |
| EvalArgs.InvalidNumberKeepsPrior | evals/args.ts:32-50 | an unreadable number leaves the earlier value in place |
| EvalArgs.UnmatchedSnoc | evals/args.ts:51-53 | one more argument is appended to `leftover` iff no prefix matches it, and `leftover` is otherwise unchanged |
| EvalArgs.UnmatchedSingle | evals/args.ts:51-53 | a single argument is left over iff no prefix matches it |
| EvalArgs.UnmatchedAppend | evals/args.ts:51-53 | the leftover of `a + b` is the leftover of `a` followed by that of `b`, so order and repetitions are kept |
| EvalArgs.UnmatchedIsOrderedFilter | evals/args.ts:51-53 | an argument is in `leftover` iff it is one of the arguments and no prefix matches it, and `leftover` is never longer than the arguments |
| EvalArgs.StripDashes | evals/args.ts:6-7 | at most two leading characters removed, each a dash |
| EvalArgs.SwitchMatchesStripped | evals/args.ts:6-7 | `^(?:--?)?(?:words)$` with the `i` flag holds iff the argument without its leading dashes lower-cases to one of the words |
| EvalArgs.MatchesSwitch | evals/args.ts:6-7 | definition: the regular expression's language, at most two dashes then one of the words in any ASCII case |
| EvalArgs.WantsHelp | evals/args.ts:191 | definition: some argument matches the help pattern |
| EvalArgs.WantsMan | evals/args.ts:192 | definition: some argument matches the man pattern |
| EvalArgs.SwitchesByStripping | evals/args.ts:191-192 | help is asked for iff some argument strips to `h` or `help` in any case; the manual likewise with `man` |
| EvalArgs.DeriveFilters | evals/args.ts:199-229 | a non-empty `name=` value is the eval-name filter. Otherwise a `leftover[0]` of `category` in any case needs a non-empty, valid `leftover[1]` as the category filter, or the run exits with the matching error. Any other `leftover[0]` is the eval name, and no leftover means no filter |
| EvalArgs.Run | evals/args.ts:191-229 | usage is printed iff help or man is asked for, in detail iff man. Otherwise the run proceeds with the parsed arguments and their filters, or exits 1 with the filter error |
| EvalArgs.NameSuppressesLeftover | evals/args.ts:202-206 | a non-empty `name=` value names the eval whatever the leftover arguments are |

## Findings

| source | as written | input that shows it | evidently intended | confidence | as-written member | corrected member |
|---|---|---|---|---|---|---|
| lib/llm/LLMProvider.ts:213-262 | `modelToProviderMap[modelName]` also reads members that every object inherits from `Object.prototype`. They are truthy functions, so the missing-name check lets them through and the switch's `default` raises `UnsupportedModelProviderError` | the bare model name `toString` (likewise `constructor`, `valueOf`, ...) | an unknown bare name raises `UnsupportedModelError` listing the known models, and the `default` branch is unreachable | not executed | LlmProvider.ToStringReachesDefault | LlmProvider.DefaultBranchUnreachable |

`LlmProvider.StaticLookupAsWritten` and `LlmProvider.InheritedNameReachesDefault` model the
lookup as written. `LlmProvider.StaticLookup` is the corrected lookup, and `GetClient` uses it.

## Left out

- The network: `fetch`, the cookie jar, the request headers (including the `x-sent-at` clock and the `STAGEHAND_API_URL` base) and `zodToJsonSchema`. Responses are inputs, and `extract`'s schema conversion only changes the request body.
- `TextDecoder`: the stream is modelled as already-decoded string chunks.
- Log message contents and the logger calls in `observe`, `init` and `cleanRequestCache`, beyond the order of the forwarded stream logs and the one call `cleanRequestCache` makes.
- Error message texts: errors are modelled by kind with the data the code puts in them. `UnsupportedModelError` carries the set of known names, not their order.
- The AI SDK provider constructors, `LLMCache`, the vendor client classes, the accessibility-tree builders, the inference call, `updateMetrics`, `trimTrailingTextNode`, `encodeWithFrameId` and `EvalCategorySchema`. They are opaque values or inputs.
- `drawObserveOverlay`, `_waitForSettledDom` and the `onlyVisible` warning, which are page I/O and logging. The `Promise.all` fan-out is modelled as a sequential map, which gives the same ordered result.
- The usage text (`buildUsage`), `process.exit`, the `process.env` writes (evals/args.ts:57-80, 231-233), and `DEFAULT_EVAL_CATEGORIES` with its environment override. They are output and environment side effects; exit status 1 is an error result.
- Concurrency between calls on one session, which the caller must serialise.
- Non-integer numbers, `-0` and the rounding of integers above 2^53: `parseInt` results are unbounded integers.
- ApiClient.TemplateText: an integer of magnitude 10^21 or more renders as its full decimal digits, not in the exponent form (`1e+21`) that JavaScript uses. Neither form holds `/` or `?`, so the URL facts are unaffected. A function renders as `[object Object]`, not as its source text; a session id read from a JSON body is never a function.
- Elements carry only `description`, `method` (the field `methodName`, since `method` is a Dafny keyword) and `arguments` besides `elementId`; other fields the model may return pass through unchanged in the source.
- `end()` beyond its path: the request and the returned response are network I/O.
- LlmProvider.GetAISDKLanguageModel: table membership is own-key membership. The source's inherited `Object.prototype` members (a sub-provider such as `constructor`) on the AI SDK tables are not modelled; the inherited-member problem is stated for the static table only.
- LlmProvider.GetModelProvider: likewise uses own-key membership for both tables, so an inherited member such as `toString` gives no answer rather than the inherited function.
- LlmProvider.GetAISDKLanguageModel: `baseURL` is a free identifier in the source, not declared in the function. It is taken as an opaque input, and nothing is claimed about where it comes from.
- Text.ToLowerAscii: lower-cases ASCII letters only. This is exact for the `category` comparison, since no non-ASCII character lower-cases into one of its letters, and for the `help`/`man` regular expressions, which lack the `u` flag. For the stored `env`, `api`, `provider` and `dataset` values it is weaker than `toLowerCase`, which also folds non-ASCII letters.
