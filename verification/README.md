# Conversation condensation, retry classification and JSON helpers — a Dafny model

This project models five pieces of an OpenHands agent runtime.

- **Semantic condenser** (`SemanticCondenser`, `semantic_condenser.dfy`). It decides when a view of
  events is over budget. It keeps the first `keep_first` events and a tail, and forgets the
  lowest-scoring half of the non-summary events in between. It emits a condensation action: the
  forgotten id range, a summary and the summary offset. The summary comes from a language-model
  reply, given here as an input, or from a bounded rule-based fallback.
- **Importance scorer** (`ImportanceScorer`, `importance_scorer.dfy`). It scores an event in [0, 1]
  as the sum of three parts:
  - a base score from the event type;
  - a keyword-driven content score, scaled by a length step function;
  - a recency bonus.

  It also scores task relevance by keyword overlap.
- **Retry classifier** (`RetryStrategies`, `retry_strategies.dfy`). It detects token-limit errors
  and extracts the numeric hints they carry. It has the capped exponential wait formula, and the
  manager that turns an exception into a strategy and retry parameters. The network classifier
  reads an unbound name; see "## Findings".
- **Retry hook** (`RetryMixin`, `retry_mixin.dfy`). These are the state changes the `before_sleep`
  hook makes between attempts, on small mutable objects standing for the retry library's state:
  - retry metadata on the exception;
  - the listener call;
  - emergency compression of the message list and a fixed short wait on token errors;
  - the temperature bump after a no-response error.
- **JSON helpers** (`JsonUtils`, `json_utils.dfy`):
  - recursive truncation of long string values;
  - the serialisation length guard;
  - the parse-error diagnostic;
  - the pre-checks of tool-call arguments.

Shared pieces:

- `results.dfy` holds `Option` and `Result`. A Python exception is an `Err` carrying its message.
- `text.dfy` holds string helpers with Python's meaning: substring search, ASCII lowercasing,
  `split`/`join`, `count`, integer formatting, and `{:,}` thousands grouping.
- `events.dfy` holds the event record the condenser and the scorer read. That is the type name and
  kind, the attributes content extraction probes, `str(event)`, and the event's age.

Scores are exact reals.

Several outside calls are parameters or inputs:

- `truncate_content` and `json.dumps` are function parameters.
- The language-model reply, the event age, the outcome of `json.loads` and a decode error's fields
  are inputs.

Methods model the code that works step by step:

- the selection and prompt loops;
- the fallback tally;
- the in-place retry-state updates;
- the dict-filling truncation;
- the diagnostic's line accumulation.

Each method is proved equal to a specification function. The properties are proved about that
function.

## Model

| member | source | states |
|---|---|---|
| SemanticCondenser.New | openhands/memory/condenser/impl/semantic_condenser.py:54-61 | construction succeeds iff `keep_first < max_size // 2` and `0 < ratio <= 1`. The keep-first error comes first and names both values in decimal |
| SemanticCondenser.ValidBounds | openhands/memory/condenser/impl/semantic_condenser.py:54-56 | a valid configuration has `max_size >= 2` and room for twice the head plus two |
| SemanticCondenser.TargetSize | openhands/memory/condenser/impl/semantic_condenser.py:86 | the target is `max(floor(max_size*ratio), keep_first+2)` and lies between `keep_first+2` and `max_size` |
| SemanticCondenser.EventsFromTail | openhands/memory/condenser/impl/semantic_condenser.py:127 | at least one tail event is kept, so the `view[keep_first:]` branch is never taken |
| SemanticCondenser.MiddleEnd | openhands/memory/condenser/impl/semantic_condenser.py:127-134 | the middle slice ends strictly after the head and strictly before the end of the view |
| SemanticCondenser.OverBudgetHasMiddle | openhands/memory/condenser/impl/semantic_condenser.py:79-81 | a view longer than `max_size` always has a middle of at least two events |
| SemanticCondenser.GetOrCreateSummary | openhands/memory/condenser/impl/semantic_condenser.py:118-123 | the result is `view[keep_first]` exactly when it exists and is a condensation observation, else the fixed initial summary |
| SemanticCondenser.NonSummariesFrom | openhands/memory/condenser/impl/semantic_condenser.py:136-140 | the collected events come from the slice and are not summaries; a slice without summaries is collected whole |
| SemanticCondenser.NonSummariesComplete | openhands/memory/condenser/impl/semantic_condenser.py:136-140 | every non-summary event of the slice is collected |
| SemanticCondenser.CandidatesInMiddle | openhands/memory/condenser/impl/semantic_condenser.py:125-140 | every candidate is a non-summary event of `view[keep_first .. len-events_from_tail]`; no head or tail event is a candidate |
| SemanticCondenser.MiddleInCandidates | openhands/memory/condenser/impl/semantic_condenser.py:125-140 | every non-summary event of `view[keep_first .. len-events_from_tail]` is a candidate |
| SemanticCondenser.InsertByScoreSorted | openhands/memory/condenser/impl/semantic_condenser.py:157 | inserting a scored event into a list sorted by score keeps it sorted |
| SemanticCondenser.InsertByScoreCounts | openhands/memory/condenser/impl/semantic_condenser.py:157 | insertion adds exactly the inserted event to the multiset of events |
| SemanticCondenser.SortByScore | openhands/memory/condenser/impl/semantic_condenser.py:150-157 | the result is sorted ascending by score and is a permutation of the scored events |
| SemanticCondenser.SortedSplit | openhands/memory/condenser/impl/semantic_condenser.py:157-161 | no event in the front of a sorted list scores higher than any event behind it |
| SemanticCondenser.FilterByImportance | openhands/memory/condenser/impl/semantic_condenser.py:147-161 | exactly `max(1, n//2)` events are kept, drawn from the input, in ascending order of score, and none scores higher than any left out |
| SemanticCondenser.FirstsAscending | openhands/memory/condenser/impl/semantic_condenser.py:157-161 | the events of a prefix of the sorted list come in ascending order of score |
| SemanticCondenser.IdentifyEventsToForget | openhands/memory/condenser/impl/semantic_condenser.py:125-145 | the result is every candidate without semantic analysis, and the lowest-scoring half of the candidates with it |
| SemanticCondenser.SelectedInMiddle | openhands/memory/condenser/impl/semantic_condenser.py:125-145 | every forgotten event is a non-summary middle event |
| SemanticCondenser.MinId | openhands/memory/condenser/impl/semantic_condenser.py:111 | the minimum id is the id of some event and no event has a smaller one |
| SemanticCondenser.MaxId | openhands/memory/condenser/impl/semantic_condenser.py:112 | the maximum id is the id of some event and no event has a larger one |
| SemanticCondenser.ForgottenRangeSparesHeadAndTail | openhands/memory/condenser/impl/semantic_condenser.py:109-113 | with increasing ids, every head event's id lies below the forgotten range and every kept tail event's id above it |
| SemanticCondenser.AppendPromptBody | openhands/memory/condenser/impl/semantic_condenser.py:224-237 | the loop appends the previous-summary block, one entry per forgotten event and the closing request, giving the prompt function |
| SemanticCondenser.BuildPrompt | openhands/memory/condenser/impl/semantic_condenser.py:196-237 | the built prompt equals the specification prompt |
| SemanticCondenser.EntriesQuoteEvents | openhands/memory/condenser/impl/semantic_condenser.py:230-232 | the event entries contain the `[事件 id]` entry of every forgotten event |
| SemanticCondenser.PromptFrame | openhands/memory/condenser/impl/semantic_condenser.py:198-237 | the prompt starts with the instructions and ends with the closing request |
| SemanticCondenser.PromptQuotesEvents | openhands/memory/condenser/impl/semantic_condenser.py:229-233 | the prompt contains the entry of every forgotten event |
| SemanticCondenser.BumpCounts | openhands/memory/condenser/impl/semantic_condenser.py:251 | a tally bump adds the name, adds one to the total and keeps names distinct |
| SemanticCondenser.TallyCountsEveryEvent | openhands/memory/condenser/impl/semantic_condenser.py:246-251 | the type tally has distinct names, exactly the events' type names, and counts summing to the number of events |
| SemanticCondenser.SnippetsDisjoint | openhands/memory/condenser/impl/semantic_condenser.py:254-257 | the error and success snippets together number at most the events, because `elif` never lists an event twice |
| SemanticCondenser.ErrorSnippet | openhands/memory/condenser/impl/semantic_condenser.py:255 | the snippet is "错误: ", then the first `min(100, len)` characters of the event, then "..."; at most 107 characters |
| SemanticCondenser.SuccessSnippet | openhands/memory/condenser/impl/semantic_condenser.py:257 | the snippet is "成功: ", then the first `min(100, len)` characters of the event, then "..."; at most 107 characters |
| SemanticCondenser.ErrorSnippetsSound | openhands/memory/condenser/impl/semantic_condenser.py:254-255 | every entry of `errors` is the snippet of an event that mentions "error" or "failed" |
| SemanticCondenser.ErrorSnippetsComplete | openhands/memory/condenser/impl/semantic_condenser.py:254-255 | every event that mentions "error" or "failed" has its snippet in `errors` |
| SemanticCondenser.SuccessSnippetsSound | openhands/memory/condenser/impl/semantic_condenser.py:254-257 | every entry of `key_results` is the snippet of an event that mentions success and no error |
| SemanticCondenser.SuccessSnippetsComplete | openhands/memory/condenser/impl/semantic_condenser.py:254-257 | every event that mentions success and no error has its snippet in `key_results` |
| SemanticCondenser.FirstThree | openhands/memory/condenser/impl/semantic_condenser.py:266-270 | at most three snippets are listed, and they are the first ones |
| SemanticCondenser.FallbackSummaryShape | openhands/memory/condenser/impl/semantic_condenser.py:260-276 | the fallback summary is at most 1000 characters and opens with the fallback header |
| SemanticCondenser.FallbackCompression | openhands/memory/condenser/impl/semantic_condenser.py:239-276 | the loop that tallies types and collects snippets returns exactly the specified fallback summary |
| SemanticCondenser.CompressedSummary | openhands/memory/condenser/impl/semantic_condenser.py:175-194 | the summary is never empty, and it is the fallback when the call raises or the total event length is 0 |
| SemanticCondenser.CompressConversationSegment | openhands/memory/condenser/impl/semantic_condenser.py:168-194 | it sends the specification prompt and returns the reply text, "压缩失败" for an empty reply, or the fallback |
| SemanticCondenser.GetCondensation | openhands/memory/condenser/impl/semantic_condenser.py:83-116 | an empty view raises. With nothing forgotten the range is the last id and the summary "No events to compress". Otherwise the range is min..max forgotten id. The offset is always `keep_first` |
| SemanticCondenser.OverBudgetForgetsSomething | openhands/memory/condenser/impl/semantic_condenser.py:125-161 | an over-budget view without summaries in its middle always forgets at least one event |
| SemanticCondenser.TenEventExample | openhands/memory/condenser/impl/semantic_condenser.py:86-161 | with ten events, max 8, keep 1 and ratio 0.5: target 4, candidates at indices 1..7, and three forgotten |
| ImportanceScorer.BaseScore | openhands/memory/condenser/impl/message_importance_scorer.py:87-116 | the base score lies in [0.1, 0.4]. It is 0.4 for User/Message type names. It is 0.1 exactly for observations without User, Message, Error or Exception in the name |
| ImportanceScorer.ExtractContent | openhands/memory/condenser/impl/message_importance_scorer.py:153-173 | a string `content` wins, then a `content.text`. Only when neither is text-bearing do `message`, `thought`, `command` and `str(event)` follow, in that order. A non-string `content.text` is returned as a non-text value |
| ImportanceScorer.KeywordBonus | openhands/memory/condenser/impl/message_importance_scorer.py:127-145 | the sum of the once-each bonuses lies in [0, 1.25], and is 0 iff no keyword list, number or path matches |
| ImportanceScorer.CueSum | openhands/memory/condenser/impl/message_importance_scorer.py:127-145 | the five bonuses 0.3, 0.2, 0.4, 0.25 and 0.1 add up to at most 1.25, and to 0 iff none applies |
| ImportanceScorer.TextScore | openhands/memory/condenser/impl/message_importance_scorer.py:147-151 | the score of textual content lies in [0, 0.5] |
| ImportanceScorer.LengthFactor | openhands/memory/condenser/impl/message_importance_scorer.py:216-229 | the factor lies in [0.5, 1]. It is 1.0 iff 50 <= length < 500, and 0.5 iff length < 10 |
| ImportanceScorer.Scaled | openhands/memory/condenser/impl/message_importance_scorer.py:147-151 | the scaled content score lies between 0 and the bonus, and is zero only for a zero bonus |
| ImportanceScorer.ContentScore | openhands/memory/condenser/impl/message_importance_scorer.py:118-151 | the content score is in [0, 0.5] and is 0 for empty content. It raises exactly when `content.text` is a truthy non-string |
| ImportanceScorer.ContentScoreZeroWithoutCues | openhands/memory/condenser/impl/message_importance_scorer.py:127-151 | content with no keyword, number or path scores 0 |
| ImportanceScorer.TemporalWeight | openhands/memory/condenser/impl/message_importance_scorer.py:175-214 | the weight lies in [0, 0.1] and is 0 without a usable timestamp. It is 0.1 iff age < 3600 s, and 0 iff age >= 86400 s |
| ImportanceScorer.TemporalWeightAntitone | openhands/memory/condenser/impl/message_importance_scorer.py:203-211 | an older event never gets a larger recency bonus |
| ImportanceScorer.ScoreEvent | openhands/memory/condenser/impl/message_importance_scorer.py:64-85 | the score is always in [0, 1], is 0.5 when scoring raises, and is at least 0.1 otherwise |
| ImportanceScorer.ScoreIsSumOfParts | openhands/memory/condenser/impl/message_importance_scorer.py:74-79 | without an exception the score is base + content + recency; the sum never exceeds 1.0, so the `min(1.0, …)` cap never applies |
| ImportanceScorer.ScoreAntitoneInAge | openhands/memory/condenser/impl/message_importance_scorer.py:64-85 | the same event, older, never scores higher |
| ImportanceScorer.ExtractKeywords | openhands/memory/condenser/impl/message_importance_scorer.py:258-264 | every keyword is a run of at least 3 word characters occurring in the text, and is not a stop word |
| ImportanceScorer.RunsListed | openhands/memory/condenser/impl/message_importance_scorer.py:261 | every maximal run of word characters in the text is found by the `\w+` scan |
| ImportanceScorer.KeepKeywordsCounts | openhands/memory/condenser/impl/message_importance_scorer.py:263-264 | each run of length >= 3 that is not a stop word is kept as often as it occurs, and nothing else is kept |
| ImportanceScorer.ExtractKeywordsComplete | openhands/memory/condenser/impl/message_importance_scorer.py:258-264 | every maximal word run of at least 3 characters that is not a stop word is among the keywords |
| ImportanceScorer.WordRunsAreWordSubstrings | openhands/memory/condenser/impl/message_importance_scorer.py:261 | every maximal word run is a non-empty substring made of word characters |
| ImportanceScorer.KeepKeywordsSubset | openhands/memory/condenser/impl/message_importance_scorer.py:263-264 | the kept keywords are runs of length >= 3 that are not stop words |
| ImportanceScorer.CountMatches | openhands/memory/condenser/impl/message_importance_scorer.py:252 | the number of hits is at most the number of keywords, duplicates counted |
| ImportanceScorer.CountMatchesAll | openhands/memory/condenser/impl/message_importance_scorer.py:252 | when the text contains a string holding every keyword, every keyword is a hit |
| ImportanceScorer.TaskRelevance | openhands/memory/condenser/impl/message_importance_scorer.py:231-256 | relevance is in [0, 0.3] and is 0 for an empty task or empty content. It raises exactly when the task is non-empty and the content is a truthy non-string |
| ImportanceScorer.ContentQuotingTaskIsFullyRelevant | openhands/memory/condenser/impl/message_importance_scorer.py:249-254 | content containing the task scores `min(0.3, 0.1·k)` for its `k` keywords |
| RetryStrategies.ShouldCompressOnRetryIff | openhands/llm/retry_strategies.py:22-28 | a token error is one whose lowercased text contains one of the nine phrases |
| RetryStrategies.ShouldCompressIgnoresCase | openhands/llm/retry_strategies.py:27 | the classification does not depend on letter case |
| RetryStrategies.ReduceTimeoutIsCompress | openhands/llm/retry_strategies.py:31-41 | `should_reduce_timeout` is the same predicate as `should_compress_on_retry` |
| RetryStrategies.FirstTokens | openhands/llm/retry_strategies.py:57 | the leftmost digit run followed by optional whitespace and "token" is found, and none occurs earlier |
| RetryStrategies.FirstLabel | openhands/llm/retry_strategies.py:62-69 | the leftmost `limit`/`quota` label followed by separators and digits is found, and none occurs earlier |
| RetryStrategies.LabelSearch | openhands/llm/retry_strategies.py:62-69 | a value is found iff a label match exists, and it is the value of one |
| RetryStrategies.ExtractTokenInfo | openhands/llm/retry_strategies.py:53-71 | each key is present iff its pattern matches, case-insensitively, and holds the first match's integer |
| RetryStrategies.CurrentTokensRoundTrip | openhands/llm/retry_strategies.py:57-59 | a message opening with `n tokens` yields `current_tokens = n` |
| RetryStrategies.OpensWithTokens | openhands/llm/retry_strategies.py:57-59 | the token pattern matches at the start of `n tokens…` and its digits spell `n` |
| RetryStrategies.TokenLimitRoundTrip | openhands/llm/retry_strategies.py:62-64 | a message `limit: n…` yields `token_limit = n` |
| RetryStrategies.ShouldUseExponentialBackoff | openhands/llm/retry_strategies.py:87-93 | as written, the classifier always raises the unbound-name error |
| RetryStrategies.BackoffRaisesOnGatewayError | openhands/llm/retry_strategies.py:87-93 | "503 service unavailable" makes the written classifier raise, while the intended one recognises it |
| RetryStrategies.IntendedBackoffRecognises | openhands/llm/retry_strategies.py:87-93 | the intended classifier holds whenever the lowercased text contains one of the seven network phrases |
| RetryStrategies.Pow2Monotone | openhands/llm/retry_strategies.py:107 | powers of two are monotone |
| RetryStrategies.GetRecommendedWaitTime | openhands/llm/retry_strategies.py:96-108 | the wait never exceeds 60, and for attempts >= 1 it is `min(base·2^(n-1), 60)` |
| RetryStrategies.WaitTimeMonotone | openhands/llm/retry_strategies.py:107 | for `base >= 0` the wait is non-decreasing in the attempt number |
| RetryStrategies.DefaultWaitSchedule | openhands/llm/retry_strategies.py:96-108 | with base 5 the waits are 5, 10, 20, 40, then 60 from attempt 5 on |
| RetryStrategies.Analyze | openhands/llm/retry_strategies.py:127-154 | the result always records the exception type. A token error gives the compress strategy with the token info. Any other error raises exactly when the network classifier does |
| RetryStrategies.AnalyzeException | openhands/llm/retry_strategies.py:118-154 | as written, analysis returns iff the exception is a token error, and otherwise raises the unbound-name error |
| RetryStrategies.IntendedAnalyzeAgrees | openhands/llm/retry_strategies.py:118-154 | the intended analysis never raises, agrees with the written one wherever that returns, and sets the network action iff the classifier matches |
| RetryStrategies.RetryParamsOf | openhands/llm/retry_strategies.py:166-180 | the params return iff the analysis does and carry it. Token errors wait `min(2n, 10) <= 10` |
| RetryStrategies.FixedWaitBranchUnreachable | openhands/llm/retry_strategies.py:172-177 | every strategy has backoff set, so the `5 * attempt` branch is never taken |
| RetryStrategies.TokenErrorParams | openhands/llm/retry_strategies.py:137-144 | a token error always gets params: compress, reduce wait, `compress_and_retry`, and wait `min(2n, 10)` |
| RetryStrategies.GetRetryParams | openhands/llm/retry_strategies.py:156-180 | as written, params are returned iff the exception is a token error, and then wait `min(2n, 10) <= 10` |
| RetryStrategies.GatewayErrorOnThirdAttempt | openhands/llm/retry_strategies.py:147-174 | a 503 error on attempt 3 raises as written |
| RetryStrategies.GatewayErrorIntendedWait | openhands/llm/retry_strategies.py:147-174 | a 503 error on attempt 3 would wait 20 s with the intended classifier |
| RetryStrategies.GatewayErrorWait | openhands/llm/retry_strategies.py:96-108 | any failure whose lowercased text is the 503 message waits 20 s on attempt 3 with the intended classifier |
| RetryStrategies.NotATokenError | openhands/llm/retry_strategies.py:22-28 | "503 service unavailable" matches no token phrase |
| RetryMixin.EmergencyCompress | openhands/llm/retry_mixin.py:210-211 | lists of at most three messages come back unchanged |
| RetryMixin.EmergencyCompressShape | openhands/llm/retry_mixin.py:213-230 | a longer list becomes the leading system message, if any, followed by the last `min(6, rest)` messages, in order; at most 7 |
| RetryMixin.EmergencyCompressShortens | openhands/llm/retry_mixin.py:210-230 | the list gets shorter iff it has more than 7 messages with a leading system message, or more than 6 without; otherwise it comes back equal |
| RetryMixin.CompressedMessages | openhands/llm/retry_mixin.py:169-185 | a missing list stays missing. A non-empty list is replaced by its emergency compression exactly when that is shorter, and then has at most 7 messages; any change is that replacement |
| RetryMixin.CompressedMessagesIdempotent | openhands/llm/retry_mixin.py:169-230 | compressing the carried list twice is the same as once |
| RetryMixin.BumpedTemperature | openhands/llm/retry_mixin.py:52-54 | an unset or zero temperature becomes 1.0, and any other value is kept |
| RetryMixin.BumpedTemperatureIdempotent | openhands/llm/retry_mixin.py:52-54 | applying the temperature rule twice is the same as once |
| RetryMixin.FirstMaxAttempts | openhands/llm/retry_mixin.py:98-103 | the first stop condition with `max_attempts` is found, and none comes before it |
| RetryMixin.DecoratorStopHidesRetries | openhands/llm/retry_mixin.py:63-103 | as written, no condition of the decorator's `stop_after_attempt(num_retries) \| stop_if_should_exit()` has `max_attempts`, so the scan finds nothing |
| RetryMixin.FirstRetryLimit | openhands/llm/retry_mixin.py:86-103 | the intended scan finds the first condition with `max_attempts` or, for `stop_after_attempt`, `max_attempt_number`, and none comes before it |
| RetryMixin.IntendedDecoratorStopExposesRetries | openhands/llm/retry_mixin.py:63-103 | with the intended scan the decorator's stop exposes `num_retries` as the max retries |
| RetryMixin.RetryLimitAgrees | openhands/llm/retry_mixin.py:98-103 | the written and the intended scan agree on every list without a `stop_after_attempt` |
| RetryMixin.LogRetryAttempt | openhands/llm/retry_mixin.py:83-103 | the exception records the attempt number and the first `max_attempts`, single or combined, and is untouched when no stop has one |
| RetryMixin.TriggerContextCompression | openhands/llm/retry_mixin.py:162-198 | the carried messages become their compressed form, and nothing else changes |
| RetryMixin.ApplyIntelligentRetryStrategy | openhands/llm/retry_mixin.py:124-160 | on a compress decision the messages are compressed and the wait becomes fixed at the recommended time. Otherwise, including a raising classifier, nothing changes |
| RetryMixin.HookDecisionUnaffectedByClassifierBug | openhands/llm/retry_mixin.py:131-160 | the hook changes the same state under the written and the intended classifier: a fixed wait of at most 10 s, exactly on token errors |
| RetryMixin.BeforeSleep | openhands/llm/retry_mixin.py:38-61 | in order: retry metadata, the listener call with attempt and `num_retries`, the strategy's state change, then the temperature rule for no-response errors |
| JsonUtils.SliceFrom | openhands/core/json_utils.py:150 | a Python tail slice `s[k:]` is a suffix of `s` |
| JsonUtils.TruncateString | openhands/core/json_utils.py:149-151 | a long string keeps its first `floor(m/2)` and last `ceil(m/2)` characters around the marker counting `len - m` |
| JsonUtils.TruncateStringAsWritten | openhands/core/json_utils.py:149-151 | the written rule keeps the first `floor(m/2)` characters. For `m >= 1` it keeps the last `ceil(m/2)` around the marker. For `m = 0` it is the marker followed by the whole string |
| JsonUtils.TruncateStringAgrees | openhands/core/json_utils.py:150 | for every `m >= 1` the written slice rule equals the intended one |
| JsonUtils.TruncateStringAtZero | openhands/core/json_utils.py:150 | with `m = 0` the written rule keeps the whole string behind the marker and grows it; the intended rule keeps nothing |
| JsonUtils.TruncateItem | openhands/core/json_utils.py:154-159 | in a list, dicts are truncated and strings over `m` become `item[:m] + "..."`; everything else, nested lists included, is kept |
| JsonUtils.TruncateValue | openhands/core/json_utils.py:149-161 | long strings are truncated and short ones kept. Dicts stay dicts, lists stay lists of the same length, and other scalars are untouched |
| JsonUtils.TruncateItems | openhands/core/json_utils.py:154-159 | the list keeps its length and each item is truncated on its own |
| JsonUtils.TruncateEntries | openhands/core/json_utils.py:145-162 | the same keys in the same order, each value truncated on its own |
| JsonUtils.TruncateValueKeepsShort | openhands/core/json_utils.py:145-162 | a value with no string over `m`, at any depth, is returned unchanged |
| JsonUtils.TruncateLargeValues | openhands/core/json_utils.py:145-162 | the loop over the dict, recursing into nested dicts, gives the specification truncation |
| JsonUtils.TruncateListItems | openhands/core/json_utils.py:154-159 | the list comprehension gives the specification item truncation |
| JsonUtils.Prepared | openhands/core/json_utils.py:43-44 | only dict inputs are truncated. A dict keeps its keys in order, and each value is truncated with limit `max_length // 10` |
| JsonUtils.SafeJsonDumps | openhands/core/json_utils.py:29-54 | the serialised text is returned iff it fits `max_length`, otherwise the "too large" error with its length |
| JsonUtils.SafeJsonDumpsKeepsSmallDicts | openhands/core/json_utils.py:43-46 | a dict whose strings all fit a tenth of the limit is serialised unchanged |
| JsonUtils.ClipLine | openhands/core/json_utils.py:122-123 | lines over 100 characters keep their first and last 50 around " ... "; shorter lines are kept |
| JsonUtils.ContextLine | openhands/core/json_utils.py:119-124 | the context line carries " >>> " iff it is the error line |
| JsonUtils.ContextLines | openhands/core/json_utils.py:117-124 | one formatted line per line number of the window, in order |
| JsonUtils.ContextWindow | openhands/core/json_utils.py:113-124 | context appears only when `1 <= L <= lines`. It covers `max(1, L-2)..min(n, L+2)`, which contains `L`, and only line `L` is marked |
| JsonUtils.Issues | openhands/core/json_utils.py:127-135 | "Unmatched quotes" iff the quote count is odd. No issues iff quotes, braces and brackets balance and there are at most 100 `\n` pairs |
| JsonUtils.CollectContext | openhands/core/json_utils.py:113-124 | the context loop gives the specification context block |
| JsonUtils.CollectIssues | openhands/core/json_utils.py:127-135 | the issue checks give the specification issues |
| JsonUtils.AnalyzeJsonError | openhands/core/json_utils.py:99-142 | the report is the error, position, length, context, issues and suggestion lines, joined by newlines |
| JsonUtils.DetailsLayout | openhands/core/json_utils.py:106-142 | the report lines are the error, position and length lines, then the context block, then an issues line exactly when there are issues, then the suggestion |
| JsonUtils.ReportFrame | openhands/core/json_utils.py:106-142 | the report opens with the error message and always ends with the suggestion line |
| JsonUtils.SafeJsonLoads | openhands/core/json_utils.py:8-26 | a parsed value is returned. A decode error raises "JSON parsing failed", with the context in parentheses when given, and the report |
| JsonUtils.ParseFailedMessageFrame | openhands/core/json_utils.py:24-26 | the parse-failure message quotes the decoder's message and ends with the suggestion |
| JsonUtils.PreValidationIssues | openhands/core/json_utils.py:74-87 | at most three issues, one per check |
| JsonUtils.PreValidationIssuesExact | openhands/core/json_utils.py:74-87 | the size issue is listed iff there are more than 500000 characters, the newline issue iff more than 1000 newlines, the syntax issue iff the decode error mentions "Expecting ',' delimiter" or "Unterminated string", and nothing else is listed |
| JsonUtils.CleanArgumentsPassPreValidation | openhands/core/json_utils.py:74-89 | arguments that parse within both limits raise no pre-check issue |
| JsonUtils.IssueList | openhands/core/json_utils.py:91 | each issue becomes its own "  - " line |
| JsonUtils.ValidateToolArguments | openhands/core/json_utils.py:70-96 | blank input fails with "Empty arguments" before any other check. Any issue fails with all of them listed. Otherwise the parse result, or the parse-failure report. Non-blank arguments that parse within both limits return their value |
| JsonUtils.UnterminatedStringIsPreValidationIssue | openhands/core/json_utils.py:82-86 | an "Unterminated string" decode error is always a pre-validation issue |
| JsonUtils.PreValidationListsAll | openhands/core/json_utils.py:89-93 | the pre-validation error lists every issue |

## Left out

- Logging, `add_metadata` payloads, `llm.completion`, `format_messages_for_llm`, metrics and `from_config`.
  They are I/O or configuration plumbing. The reply of the summarisation call is an input.
- `truncate_content` is not part of this model. It is a function parameter of the prompt builder.
- The retry library's loop, sleeping and re-raising. Only the hook's own state changes are modelled.
  The stop condition is a small datatype. The `hasattr` checks on `retry_state` and its
  `retry_object` are taken as true, since the library objects always have those attributes; the
  `max_attempts` check on each stop condition is modelled.
- `openhands/utils/tenacity_stop.py` is not part of this model. `stop_if_should_exit()` is taken as a
  stop condition without a `max_attempts` attribute.
- `retry_decorator`'s construction of the decorator is modelled only through the stop condition it
  builds.
- Messages that are not dicts make `_emergency_compress_messages` raise; `_trigger_context_compression`
  swallows the error and keeps the list. This is not modelled: messages are records with an optional
  role.
- The clock and ISO timestamp parsing. An event carries its age in seconds, or the reason it has none.
- Floating point. Scores and ratios are exact reals. `int(max_size * ratio)` is the exact floor, which
  can differ by one from Python's float product for some ratios.
- The regex engine and Unicode. Lowercasing and the `\w`, `\d` and `\s` classes are ASCII, and
  `str.strip` whitespace is ASCII whitespace.
- `json.loads`, `json.dumps` and the construction of `JSONDecodeError`. The parse outcome and the
  error's message and position are inputs. `json.dumps` is a function parameter.
- JSON objects are sequences of key/value pairs with string keys. Duplicate keys are not excluded.
- `get_importance_explanation`: it only formats floats into text.
- The `except` branch of `_filter_by_importance`. It is unreachable: `score_event` catches all its
  own errors, and sorting real scores cannot raise.
- A negative `keep_first`, `max_length` or `max_value_length` is not modelled; those are `nat`.
  Python's negative slicing would apply.
- SemanticCondenser.FilterByImportance: states ascending order of score but not which of several
  equally scored candidates is forgotten. Python's stable sort picks the earlier one.
- SemanticCondenser.SnippetsDisjoint: states that the two snippet lists together are no longer than
  the events, not that each event is listed at most once.
- JsonUtils.TruncateValue: truncates with the corrected rule (see "## Findings"). For a limit `m` of
  0 it keeps only the marker, where `json_utils.py:150` also appends the whole string.
  JsonUtils.TruncateStringAgrees shows the two rules agree for every `m` of at least 1.
- JsonUtils.TruncateLargeValues: inherits the corrected rule at `m = 0` from TruncateValue.
- JsonUtils.Prepared: inherits the corrected rule when `max_length // 10` is 0, that is for
  `max_length` below 10.
- JsonUtils.SafeJsonDumps: inherits the corrected rule for `max_length` below 10. On
  `safe_json_dumps({"k": "ab"}, 5)` the model serialises the marker alone, where the source also
  keeps "ab"; the reported length then differs by 2, and both are refusals over the limit.
- SemanticCondenser.New: the ratio message is a fixed text; the source formats the float
  `max_compression_ratio` into it, and float rendering is not modelled.
- RetryMixin.BeforeSleep: the listener call is returned rather than performed. An exception raised by
  the listener is not modelled.

## Findings

| source | as written | input that shows it | evidently intended | confidence | as-written member | corrected member |
|---|---|---|---|---|---|---|
| openhands/llm/retry_strategies.py:93 | `should_use_exponential_backoff` tests `error_indicators`, a name not bound there (the list is `network_indicators`, line 87), so it raises `NameError` | any exception that is not a token error, e.g. "503 Service Unavailable" on attempt 3: `get_retry_params` raises | test `network_indicators`: a 503 error is a network error and waits 20 s | high; not executed | RetryStrategies.GatewayErrorOnThirdAttempt | RetryStrategies.IntendedAnalyzeAgrees |
| openhands/llm/retry_mixin.py:99 | the scan looks for `max_attempts`, but tenacity's `stop_after_attempt` stores its limit as `max_attempt_number`, and the decorator built at line 65 combines it only with `stop_if_should_exit()` | any retry through the decorator: `retry_attempt` and `max_retries` are never recorded on the exception | read the limit of `stop_after_attempt`, as the comment at line 86 says, so `max_retries` is `num_retries` | medium; not executed | RetryMixin.DecoratorStopHidesRetries | RetryMixin.IntendedDecoratorStopExposesRetries |
| openhands/core/json_utils.py:150 | the tail slice `value[-max_value_length//2:]` is `value[(-m)//2:]`, which for `m = 0` is `value[0:]`, the whole string | `safe_json_dumps({"k": "ab"}, 5)`: `m = 0`, so "ab" becomes the marker for 2 dropped characters followed by "ab" | keep the last `ceil(m/2)` characters, none when `m = 0`, so the result is never longer than `m` plus the marker | medium; not executed | JsonUtils.TruncateStringAtZero | JsonUtils.TruncateString |

The retry hook keeps the written classifier, since the hook swallows the error. It also keeps the
written `max_attempts` scan: nothing in the modelled code reads the metadata it records, and
RetryMixin.RetryLimitAgrees shows the intended scan differs only on `stop_after_attempt`.
RetryMixin.HookDecisionUnaffectedByClassifierBug proves that the hook's state change is the same
under both classifiers. Truncation uses the corrected rule, and JsonUtils.TruncateStringAgrees
proves that it equals the written rule for every limit of at least 1.
