# cddclubbot in Dafny

A model of the core of cddclubbot, a Twitter bot that writes one tweet per
cycle with Google's Gemini models and posts it. The model has four parts:

- **The Gemini key/model rotation controller** (`RotationManager`, `gemini.dfy`).
  - A class with the fields the source updates in place: the current key and
    model positions, the two cooldown ledgers, the last request time, and a
    clock.
  - `generateContentWithRetry` is a `while` loop over a bounded attempt budget.
  - The catch block classifies each failure by case-sensitive substring search
    and applies the cooldowns and rotations of its class.
  - A ghost log of every SDK call lets the contracts state two guarantees:
    no key is called again within a minute of a rate-limit answer, and calls
    are at least two seconds apart.
- **One bot cycle** (`runBot` and `generateTweetContent`, `content_generator.dfy`).
  - Choose a mode other than the saved one and generate its tweet (a NEWS
    tweet links the article).
  - When that produces nothing, fall back to a coding tip, once.
  - Post unless this is a dry run, and save the mode only when the post went out.
  - Log "Bot cycle complete." last.
- **Posting** (`postTweet`, `twitter.dfy`): up to three attempts. A rate limit
  before the last attempt is followed by an exponential back-off sleep and a
  retry; any other failure stops at once.
- **Configuration** (`env.js`, `env.dfy`): the Gemini key list parsed from one
  comma-separated variable, the list of missing Twitter credentials, and the
  `PORT` and `NODE_ENV` defaults.

`strings.dfy` holds the JavaScript string primitives these use: `includes`,
`trim`, `split`/`join` and `String(n)`. `wrappers.dfy` holds `Option`.

The environment is explicit:
- `Date.now()` is the manager's field `now`, and every `setTimeout` sleep
  advances it.
- The Gemini SDK is a function from (key, model name, prompt, dispatch time)
  to a reply.
- The Twitter client is a function from (text, attempt number) to a reply.
- `Math.random()` results are real-valued rolls in [0, 1) passed in.
- The news article, the saved mode and the save timestamp are parameters.

Two details of the retry loop, as the code has them:
- Error matching is case-sensitive `includes` on `'429'`, `'Quota'`,
  `'RESOURCE_EXHAUSTED'` (rate limit) and `'404'`, `'not found'`,
  `'not supported'` (model error), the model-error test taking precedence.
- The model ledger is cleared every time no model is free, after waiting
  for the shortest model cooldown, and the loop goes back to the best model.

## Model

| member | source | states |
|---|---|---|
| Gemini.ModelPriorityListsEachModelOnce | src/services/gemini.js:6-11 | every model is in the priority list and the four model names are distinct |
| Gemini.MaxAttemptsIsPairCount | src/services/gemini.js:106 | the attempt budget is the number of keys times the number of models |
| Gemini.CleanReply | src/services/gemini.js:148 | the returned text has no white space at either end |
| Gemini.StripQuotesInfix | src/services/gemini.js:148 | stripping removes exactly one leading double quote when the text starts with one and one trailing double quote when what remains ends with one |
| Gemini.CleanReplyInfix | src/services/gemini.js:148 | the reply is the stripped quotes around white space around the cleaned text, so cleaning removes nothing else |
| Gemini.AfterFailure | src/services/gemini.js:153-185 | the key ledger changes exactly for a rate limit, where the failing key expires 60000 ms from now; the clock never goes back |
| Gemini.AfterFailureInBounds | src/services/gemini.js:155-184 | the catch block keeps the key and model positions in bounds |
| Gemini.AfterFailureMovesOn | src/services/gemini.js:155-184 | the key and model positions the catch block leaves differ from the ones it found, except exactly when an unclassified error meets at most one key (the next attempt's search may still come back to the same pair) |
| Gemini.AfterFailureClock | src/services/gemini.js:173-179 | the catch block sleeps only on a rate limit with one key at the last model, and then for exactly 10000 ms |
| Gemini.AfterFailureModelLedger | src/services/gemini.js:158-184 | a model error puts the model at now + 300000 and leaves the key ledger alone; a rate limit puts the model at now + 30000; an unclassified error only rotates the key |
| Gemini.ModWrap | src/services/gemini.js:75 | a position below two laps of the ring wraps at most once |
| Gemini.NextOnRing | src/services/gemini.js:75 | `(k + 1) % n` is the next position, wrapping to 0 after the last |
| Gemini.OffsetOfStep | src/services/gemini.js:41 | the `i`-th key the circular scan visits sits `i` places after the starting key |
| Gemini.StepOfOffset | src/services/gemini.js:41 | every key is visited by the circular scan, at its offset from the starting key |
| Gemini.CircularOffset | src/services/gemini.js:41 | a key's place in the circular scan from the starting key is below the key count |
| Gemini.Rank | src/services/gemini.js:6-11 | a model's rank is its position in the priority list |
| Gemini.RankOfPosition | src/services/gemini.js:51-61 | the model at a position of the priority list has that position as its rank |
| Gemini.MinWaitUnique | src/services/gemini.js:191-199 | the shortest remaining cooldown is determined by the ledger and the clock |
| Gemini.FreedomIgnoresPositions | src/services/gemini.js:38-61 | whether some key or model is free, and which model is the first free one, does not depend on the current positions |
| Gemini.PassCall | src/services/gemini.js:89-146 | a pass of the loop calls the SDK exactly when a key and a model are free, with the first free key from the current one and the most capable free model, at the throttled time after the last request, which becomes the last request time; a pass without a call keeps the last request time |
| Gemini.PassProgress | src/services/gemini.js:113-133 | a pass that makes no call leaves a key free, and when it found a key free, a model free too |
| Gemini.ProgressStep | src/services/gemini.js:109-185 | one more pass keeps the loop's progress: at most two passes without a call, and the first call uses the first free key and model of the start |
| Gemini.ProgressCalls | src/services/gemini.js:109-133 | after three passes a call has been made, and the first call is the one the start's free key and model dictate |
| Gemini.CallRunsAppend | src/services/gemini.js:109-186 | runs of calls answered by the SDK, or all failed, stay so when joined |
| Gemini.SucceededAfter | src/services/gemini.js:109-186 | failed calls followed by a run whose last call succeeded make a run whose last call succeeded |
| Gemini.KeysAppend | src/services/gemini.js:137-146 | a call with a configured key keeps every logged key index in range |
| Gemini.SpacedPairwise | src/services/gemini.js:89-96 | calls spaced from their neighbours by the minimum interval are spaced pairwise |
| Gemini.SpacedAppend | src/services/gemini.js:89-96 | a call made at least the interval after the last one keeps the call log spaced |
| Gemini.BackoffAfterCall | src/services/gemini.js:38-48 | calling a key whose cooldown has expired keeps every rate-limited key unused for its full cooldown |
| Gemini.LedgerAfterFailure | src/services/gemini.js:166-170 | the catch block's ledger update keeps every rate-limited call covered by its key's expiry |
| Gemini.RotationManager.constructor | src/services/gemini.js:14-27 | a fresh manager is at the first key and the best model, with empty ledgers and no request made, and satisfies the invariant |
| Gemini.RotationManager.Key | src/services/gemini.js:29-31 | the current key is one of the configured keys |
| Gemini.RotationManager.CurrentModel | src/services/gemini.js:33-35 | the current model name is the name of a listed model |
| Gemini.RotationManager.Sleep | src/services/gemini.js:93 | a sleep advances the clock by its duration |
| Gemini.RotationManager.FindAvailableKey | src/services/gemini.js:38-48 | finds a key iff some key is out of cooldown; the found key is the first free one in circular order from the current key; when none is free the position is unchanged |
| Gemini.RotationManager.FindAvailableModel | src/services/gemini.js:51-61 | returns the highest-priority free model and moves to it; no higher-priority model is free; returns none (position unchanged) iff every model is cooling down |
| Gemini.RotationManager.MarkKeyRateLimited | src/services/gemini.js:63-66 | the key's expiry becomes now + cooldown, overwriting any earlier entry, and nothing else changes |
| Gemini.RotationManager.MarkModelRateLimited | src/services/gemini.js:68-71 | the model's expiry becomes now + cooldown, overwriting any earlier entry, and nothing else changes |
| Gemini.RotationManager.RotateKey | src/services/gemini.js:73-77 | rotates iff there are at least two keys, to the next key wrapping around; otherwise nothing changes |
| Gemini.RotationManager.RotateModel | src/services/gemini.js:79-86 | rotates iff not at the last model, by one position; never leaves the list |
| Gemini.RotationManager.Throttle | src/services/gemini.js:89-96 | waits until the minimum interval since the last request has passed and never longer, then stamps the request time |
| Gemini.RotationManager.GetMinCooldownWait | src/services/gemini.js:191-199 | 0 iff no entry is in the future, otherwise the smallest positive `expiry - now` over the entries |
| Gemini.RotationManager.OnModelError | src/services/gemini.js:158-165 | the model-error branch has exactly the effect `AfterModelError` describes |
| Gemini.RotationManager.OnRateLimit | src/services/gemini.js:166-180 | the rate-limit branch has exactly the effect `AfterRateLimit` describes |
| Gemini.RotationManager.HandleFailure | src/services/gemini.js:153-185 | the catch block, model error tested first, has exactly the effect `AfterFailure` describes and keeps the invariant |
| Gemini.RotationManager.Recover | src/services/gemini.js:153-185 | the catch block's effect is exactly `AfterFailure` for the current key; every rate-limited call stays covered by the key ledger and the rate-limit discipline holds |
| Gemini.RotationManager.Dispatch | src/services/gemini.js:135-146 | the call goes out at now or 2000 ms after the last request, whichever is later, which becomes the last request time; it uses the current key, is logged with the backend's answer, and no key is called inside its cooldown |
| Gemini.RotationManager.WaitForKey | src/services/gemini.js:113-120 | the clock moves on by the shortest remaining key cooldown (0 when none is in the future), and some key is free afterwards |
| Gemini.RotationManager.WaitForModel | src/services/gemini.js:122-133 | the clock moves on by the shortest remaining model cooldown, then the model ledger is cleared and the position returns to the best model |
| Gemini.RotationManager.TryModel | src/services/gemini.js:135-185 | makes exactly one logged call with the current key and the given model at the throttled time; returns its cleaned text iff it succeeded; on success only the clock and the last request time moved, both to the call's time; on failure the state is `AfterFailure` of that |
| Gemini.RotationManager.SelectOrWait | src/services/gemini.js:109-133 | returns a model iff a key and a model are free, after moving to the first free key and the most capable free model; otherwise waits for the shortest key cooldown, or (a key being free) moves to it, waits for the shortest model cooldown and clears the model ledger |
| Gemini.RotationManager.Attempt | src/services/gemini.js:109-185 | one loop pass is a `Pass`: a call exactly when a key and a model are free, with the first of each, at the throttled time after the last request, ending in the catch block's state; otherwise the wait, with the last request time kept; text only when the call succeeded, cleaned |
| Gemini.RotationManager.Round | src/services/gemini.js:109-185 | one round is one `Pass` from the state before to the state after; it extends the request's calls by that pass's calls (at most one), and `LoopFacts` still holds: the rounds so far are a run of passes from the start whose calls are the request's, all answered, all failed or ending in the success of the last pass, with the loop's progress kept |
| Gemini.RotationManager.Retry | src/services/gemini.js:104-186 | with keys, the attempts are a run of passes (each consecutive pair of states is one `Pass`, which fixes each call's throttled time) from the entry state to the final state; the final last request time is the last call's time; and the calls are those of the passes in order: between 1 and keys × models, all answered; a success is the call of the last pass, which succeeded after only failures; a failure comes only after the full budget of passes; the first call uses the first free key and model when the start has both |
| Gemini.RotationManager.GenerateContentWithRetry | src/services/gemini.js:98-189 | with no keys it fails with no call and no state change; otherwise the attempts are a run of between 1 and keys × models passes (each fixing its call's throttled time) from the entry state with the best model selected to the final state, whose last request time, which the next request throttles against, is the last call's time; and the calls are those of the passes in order, all answered by the backend; success returns the cleaned text of the call of the last pass, after only failures; failure reports the full budget and follows exactly that many passes; the first call uses the first free key and the best free model when both exist; the rotation invariant and rate-limit discipline are kept |
| Gemini.PassesEach | src/services/gemini.js:109-186 | in a run of passes, the `i`-th pass goes from the `i`-th state to the next with the `i`-th calls |
| Gemini.PassesAppend | src/services/gemini.js:109-186 | a run of passes followed by one more pass is a run of passes, whose calls are the run's followed by the pass's |
| Gemini.PassesThrottled | src/services/gemini.js:89-96 | every call of a run of passes goes out at the throttled time after the last request of the state before its pass |
| Gemini.PassesLastRequest | src/services/gemini.js:89-96 | after a run of passes the last request time is the run's last call's time, or the start's when it made no call |
| Gemini.PassRunStep | src/services/gemini.js:109-186 | a run of passes from the start to one state, followed by a pass to the next, is a run from the start to the next state |
| Gemini.LoopStep | src/services/gemini.js:109-186 | after failed rounds, one more pass keeps `LoopFacts`: the run, the answered calls, failure or success of the last call, the first call and the loop's progress |
| Gemini.LoopDone | src/services/gemini.js:109-188 | when the loop stops, on success or after the full budget, at least one call was made, a success is the last pass's call, a failure follows the full budget, and the first call uses the start's first free key and model when it has both; the final last request time is the last call's time |
| Twitter.Pow2 | src/services/twitter.js:45 | powers of two are at least 1 |
| Twitter.BackoffDelay | src/services/twitter.js:45 | a back-off sleep is never shorter than the base delay |
| Twitter.RunFromFacts | src/services/twitter.js:27-61 | from any attempt on, the run stays within the retry budget, sleeps the listed back-offs, retries only after rate limits, and ends as its last answer dictates |
| Twitter.EmptyTextNotPosted | src/services/twitter.js:22-25 | an absent or empty text is refused with no client call and no sleep |
| Twitter.AttemptsBounded | src/services/twitter.js:27 | a non-empty text gets between one and three client calls, and the final `return false` is never reached |
| Twitter.PostedIffLastAccepted | src/services/twitter.js:31-33 | the text is posted iff the client accepted the last attempt, and every earlier attempt was rate limited |
| Twitter.ExponentialBackoff | src/services/twitter.js:43-49 | one sleep per retry, the i-th being 60000 · 2^(i-1) ms |
| Twitter.NoRetryWithoutRateLimit | src/services/twitter.js:53-60 | no attempt follows a rejection that is not a rate limit; when the run ends there, it is unposted and reported as forbidden iff the rejection was a 403 |
| Twitter.RateLimitRetriedUntilLast | src/services/twitter.js:43-50 | a rate limit before the last attempt is followed by its back-off and another attempt |
| Twitter.PostTweet | src/services/twitter.js:21-65 | the loop makes exactly the run `Expected` describes; at most three attempts; posted only for a non-empty text the client accepted |
| Env.Unset | src/config/env.js:10 | exactly the listed names that are unset or empty are kept, in their order |
| Env.MissingKeysExact | src/config/env.js:3-10 | `missingKeys` lists exactly the unset or empty required variables in their listed order, and is empty iff all four are set |
| Env.KeysSource | src/config/env.js:16 | `GEMINI_API_KEYS`, else `GEMINI_API_KEY`, else ""; empty iff both are unset or empty |
| Env.TrimmedNonEmpty | src/config/env.js:17 | no more keys than pieces |
| Env.TrimmedNonEmptyWellFormed | src/config/env.js:17 | every surviving key is non-empty and has no white space at either end |
| Env.TrimmedNonEmptyOmits | src/config/env.js:17 | a character absent from every piece is absent from every key |
| Env.TrimmedNonEmptyOfKeys | src/config/env.js:17 | pieces that are already non-empty and trimmed pass through unchanged |
| Env.TrimmedNonEmptyIsEmpty | src/config/env.js:17 | no key survives iff every piece trims to the empty string |
| Env.TrimmedNonEmptyAppend | src/config/env.js:17 | the keys of two runs of pieces are the keys of the first followed by those of the second |
| Env.ParseKeys | src/config/env.js:17 | every parsed key is non-empty, trimmed and comma-free |
| Env.ParseKeysOfJoin | src/config/env.js:17 | a list of well-formed keys joined with commas parses back to itself |
| Env.ParseKeysAroundComma | src/config/env.js:17 | a comma splits the key list into the keys on its left followed by the keys on its right |
| Env.ParseKeysEmptyIffBlank | src/config/env.js:16-17 | the key list is empty iff the source holds only white space and commas (the empty source included) |
| Env.Load | src/config/env.js:23-33 | `PORT` defaults to 3000, `NODE_ENV` to `development`, and the keys are parsed from the key source |
| Env.LoadedKeysWellFormed | src/config/env.js:31 | every exported Gemini key is non-empty, trimmed and comma-free |
| Strings.ContainsFromIffOccurs | src/services/gemini.js:155-156 | the search from a position succeeds iff the substring occurs at or after it |
| Strings.ContainsIffOccurs | src/services/gemini.js:155-156 | `includes` holds iff the substring occurs at some position |
| Strings.ContainsWithin | src/services/gemini.js:155-156 | a string containing a substring still contains it inside any larger string |
| Strings.ContainsBefore | src/services/gemini.js:155-156 | a string containing a substring still contains it with anything appended |
| Strings.SkipLeading | src/config/env.js:17 | the scan stops at the first non-space at or after the start, or at the end |
| Strings.SkipTrailing | src/config/env.js:17 | the scan back stops just after the last non-space, or at 0 |
| Strings.SkippedLeading | src/config/env.js:17 | every character the forward scan passes is white space |
| Strings.SkippedTrailing | src/config/env.js:17 | every character the backward scan passes is white space |
| Strings.TrimStart | src/config/env.js:17 | the result is no longer than the input and starts with a non-space or is empty |
| Strings.TrimEnd | src/config/env.js:17 | the result is no longer than the input and ends with a non-space or is empty |
| Strings.TrimStartIsSuffix | src/config/env.js:17 | trimming the start removes a white-space prefix and nothing else |
| Strings.TrimEndIsPrefix | src/config/env.js:17 | trimming the end removes a white-space suffix and nothing else |
| Strings.Trim | src/config/env.js:17 | the result has no white space at either end |
| Strings.TrimInfix | src/config/env.js:17 | `trim` keeps a contiguous slice of the input and removes only white space around it |
| Strings.TrimSplit | src/config/env.js:17 | a string is white space, then its trim, then white space |
| Strings.TrimOfTrimmed | src/config/env.js:17 | trimming a trimmed string changes nothing |
| Strings.TrimEmptyIffBlank | src/config/env.js:17 | a string trims to "" iff it is all white space |
| Strings.Split | src/config/env.js:17 | `split` yields at least one piece and no piece contains the separator |
| Strings.SplitPiecesCoverInput | src/config/env.js:17 | the pieces hold exactly the input's non-separator characters |
| Strings.JoinOfSplit | src/config/env.js:17 | joining the pieces of a split restores the input |
| Strings.SplitOfPlain | src/config/env.js:17 | a separator-free string splits into itself |
| Strings.SplitAfterPiece | src/config/env.js:17 | splitting a separator-free piece, a separator and a rest gives the piece followed by the pieces of the rest |
| Strings.SplitOfJoin | src/config/env.js:17 | splitting a join of separator-free pieces gives the pieces back |
| Strings.JoinAppend | src/config/env.js:17 | joining two lists of pieces puts one separator between their joins |
| Strings.SplitAroundSeparator | src/config/env.js:17 | a separator between two strings separates their pieces |
| Strings.DigitChar | src/services/gemini.js:188 | a digit value becomes the character of that digit |
| Strings.NatToString | src/services/gemini.js:188 | the attempt count is written in decimal digits that denote it, with a leading zero only for 0 |
| ContentGenerator.Logger.constructor | src/utils/logger.js:3-6 | a new logger holds no entries |
| ContentGenerator.Logger.Log | src/utils/logger.js:13-25 | each call appends exactly one entry and keeps the earlier ones |
| ContentGenerator.PreviousModeText | src/core/content-generator.js:55 | shows the saved mode when it is present and non-empty, otherwise a non-empty placeholder |
| ContentGenerator.Keep | src/core/content-generator.js:58 | a mode is kept iff it is listed and is not the last mode |
| ContentGenerator.AvailableModes | src/core/content-generator.js:57-58 | a mode is available iff it is not the last mode |
| ContentGenerator.AvailableModesCases | src/core/content-generator.js:57-58 | the available modes are the listed order without the last mode, and all three when the last mode is absent or unknown |
| ContentGenerator.PickIndex | src/core/content-generator.js:60 | `floor(roll · n)` is a valid position for any roll in [0, 1) |
| ContentGenerator.PickMode | src/core/content-generator.js:60 | the initial mode is an available mode, so never the last mode |
| ContentGenerator.Task | src/core/content-generator.js:16-35 | LIFE gets the life task; TIP, and NEWS without an article, get the tip task |
| ContentGenerator.PromptFraming | src/core/content-generator.js:11-35 | every prompt starts with the persona and a line break, and ends with the chosen length constraint |
| ContentGenerator.NewsPromptNamesArticle | src/core/content-generator.js:16-22 | a NEWS prompt contains the article's title line and its tags line |
| ContentGenerator.NewsTweet | src/core/content-generator.js:70 | the NEWS tweet is as long as the hook, the separator and the link together |
| ContentGenerator.NewsTweetParts | src/core/content-generator.js:70 | the NEWS tweet is the hook, then the "Read more" separator, then the link |
| ContentGenerator.TweetFrom | src/core/content-generator.js:67-82 | the tweet a generation makes is empty iff its text is missing or empty |
| ContentGenerator.TextOrEmpty | src/core/content-generator.js:78 | the tweet counts as generated iff the text is present and non-empty |
| ContentGenerator.GenerateTweetContent | src/core/content-generator.js:8-46 | sends exactly the prompt `BuildPrompt` gives for the mode and length roll; the text is the outcome of the calls made, none (not an error) when they failed; the log gains exactly the generating line, then the success or the failure line |
| ContentGenerator.Draft | src/core/content-generator.js:64-76 | NEWS with an article and LIFE generate once, with their own prompt, and TIP or NEWS without an article not at all; the draft is the tweet the generated text makes (the hook and the link for NEWS), empty without a generation; the calls are exactly the generation's; the log lines are exactly `DraftLog`: the NEWS or LIFE line, then the generation's generating line and its success or failure line |
| ContentGenerator.TipFallback | src/core/content-generator.js:78-83 | generates once with the TIP prompt; the tweet is that generation's text, its calls the only ones made; the log lines are exactly `FallbackLog`: the warning when leaving NEWS or LIFE, the TIP line, then the generation's two lines |
| ContentGenerator.Publish | src/core/content-generator.js:85-100 | success iff there is a tweet; no post on a dry run; the mode is saved iff the post went out; without a tweet an error record and no post or save; the log lines are exactly `PublishLog`: the tweet and the dry-run line, or the nothing-generated line |
| ContentGenerator.Compose | src/core/content-generator.js:61-83 | `CycleGenerations`: there is a first generation, followed by the TIP fallback, iff the chosen mode drafts (LIFE, or NEWS with an article) and the draft is empty; each generation has its mode's prompt and length roll; the tweet's mode is the chosen one iff the draft stood, TIP otherwise; the tweet is what the last generation's text makes in that mode; the calls are exactly the generations'; the log lines are exactly `CycleLog`: the draft's, then the fallback's |
| ContentGenerator.DraftStands | src/core/content-generator.js:64-76 | a non-empty draft comes from a generation in NEWS or LIFE, is the cycle's tweet in the chosen mode, and the cycle's log is the draft's |
| ContentGenerator.FallbackFollows | src/core/content-generator.js:78-83 | after an empty draft or none, the cycle's tweet is in TIP mode from the fallback's generation, the draft's generation (if any) comes first, and the log is the draft's then the fallback's |
| ContentGenerator.RunBot | src/core/content-generator.js:48-108 | the initial mode is picked from the available modes and the tweet's mode is returned, with `CycleGenerations` as in `Compose`; the log is exactly the wake-up lines, `CycleLog`, `PublishLog` and "Bot cycle complete."; success iff the last generation gave non-empty text, and then the result carries that mode and the tweet its text makes (a non-empty hook and the link for NEWS); dry runs never post or save; the mode is saved iff the post went out; the rotation invariant is kept |

## Left out

- Logging inside the rotation manager, the Twitter service, the news feed and the state file is not modelled. The cycle's log holds only `runBot`'s and `generateTweetContent`'s own lines, as values of `Event` whose `Message()` gives the text and whose `Level()` gives the level.
- Socket.IO emission, the console and log timestamps (src/utils/logger.js) are left out; a log call appends one entry.
- `runBot`'s `catch` block (src/core/content-generator.js:102-104) is not modelled. Every collaborator is an oracle or a model that returns a value, so no exception can reach it; the `finally` line is modelled.
- The "403" hint after a rate limit that persists on the last attempt (src/services/twitter.js:50-57) is not a separate outcome. Both return false; the run is reported as `RateLimitPersists`.
- The Twitter error's status is `Option<int>`: the numeric status the service reads, absent otherwise. A non-numeric `error.code` that hides a numeric `error.status` is not modelled. The error detail is the JSON text the service searches.
- The prompt texts are a `PromptTexts` parameter of the cycle; `PROMPT_TEXTS` holds the bot's own texts. `BASE_PROMPT` (src/config/constants.js) is copied there as data.
- `Math.random()` results are parameters (`modeRoll` and `rolls`), as are the news article, the saved mode and the save timestamp. The news feed's HTTP request and random pick (src/services/news.js) and the state file's reading and writing (src/utils/state.js) are not modelled.
- The Gemini SDK and the Twitter client are functions passed in. A generation call takes no time on the clock; only throttling and sleeps move it.
- Models are an enumeration with their names, so the model ledger is keyed by model rather than by name string. `ModelPriorityListsEachModelOnce` shows the two are interchangeable.
- `runBot`'s default options, concurrent cycles on the shared rotation manager, the cron schedule, keep-alive pings, the HTTP routes (including the `/status` route) and the browser script are left out.
- Gemini.RotationManager.GenerateContentWithRetry: does not promise success when some (key, model) pair would answer. Passes that only wait for a key or a model use up attempts, as in the source, so the budget can run out before every pair has been tried.
