# Telegram bot core: configuration, request metrics, conversation history

This project models three parts of a Telegram chat bot that answers users
through a large language model:

- **Configuration** (`config.dfy`, module `Config`): the settings the bot reads
  from environment variables (bot token, log level, administrator id, API key,
  primary model, fallback models, the fallback switch and the token limit),
  the start-up validation, and the administrator check. The environment is an
  explicit map from variable name to value. `strings.dfy` (module `Strings`)
  holds the Python string built-ins this code relies on: `split`, `strip`,
  `lower`, `int()` and `str()`.
- **Request metrics** (`metrics.dfy`, module `Metrics`): a record of request
  totals, primary and fallback model attempts and successes, per-model
  request counts and response-time sums. `MetricsManager` keeps the record in
  fields and updates them in place on every request; `Record` is the same
  update on values, and the lemmas about it say what any sequence of requests
  does (counter relations kept, and counters never decrease for non-negative
  response times).
- **Conversation history** (`conversations.dfy`, module `Conversations`): per
  user, a record with sessions of messages. `DataManager` keeps the store in
  fields and updates it in place; `Add` and `Clear` are the same updates on
  values. The statistics (users, sessions, messages) are proved to change by
  exactly one message per added message, and the shape every reachable store
  keeps (at most one session per user, no empty session) is proved preserved,
  which bounds sessions by users and by messages.

`wrappers.dfy` holds the `Option` type.

## Model

| member | source | states |
|---|---|---|
| Strings.TrimStart | src/config.py:23 | the result is a suffix of the text and begins with a non-space character unless empty |
| Strings.TrimStartCut | src/config.py:23 | every character cut from the front is white space |
| Strings.TrimEnd | src/config.py:23 | the result is a prefix of the text and ends with a non-space character unless empty |
| Strings.TrimEndCut | src/config.py:23 | every character cut from the end is white space |
| Strings.Strip | src/config.py:23 | `strip()` never lengthens the text and leaves no white space at either end |
| Strings.StripSlice | src/config.py:23 | what `strip()` keeps is one contiguous slice of the text |
| Strings.StripCut | src/config.py:23 | everything `strip()` removes from either end is white space |
| Strings.StripEmpty | src/config.py:23 | `strip()` gives the empty string exactly when the text is all white space (the filter `if m.strip()`) |
| Strings.StripIdempotent | src/config.py:23 | stripping twice is stripping once |
| Strings.Split | src/config.py:23 | `split(",")` gives at least one piece and no piece holds a comma |
| Strings.JoinSplit | src/config.py:23 | joining the pieces of `split` with the separator gives back the text |
| Strings.SplitJoin | src/config.py:23 | splitting a join of separator-free pieces gives back the pieces |
| Strings.SplitWithoutSeparator | src/config.py:23 | a text without the separator splits into itself alone |
| Strings.SplitAtSeparator | src/config.py:23 | a separator-free head followed by the separator splits off as the first piece |
| Strings.Lower | src/config.py:21 | `lower()` keeps the length and lower-cases each ASCII letter in place |
| Strings.NatToString | src/config.py:71 | `str(n)` is a non-empty run of digits with no leading zero unless `n` is 0 |
| Strings.IntToString | src/config.py:71 | `str(i)` is non-empty, starts with `-` exactly when `i` is negative, and is otherwise all digits |
| Strings.ParseInt | src/config.py:25-28 | `int(s)` succeeds exactly on a non-empty run of digits, optionally after one `+` or `-`; the value is not positive after `-` and not negative otherwise, and is the decimal value of the digits, negated after `-`, by `ParseIntOfDigits` and `ParseIntOfSigned` |
| Strings.ParseDigitsOfNat | src/config.py:71 | reading back the digits of `str(n)` gives `n` |
| Strings.ParseDigitsPositive | src/config.py:25-28 | a digit run that does not start with `0` has a positive value |
| Strings.NatToStringOfParseDigits | src/config.py:25-28 | `str(int(s)) == s` for a digit run without a leading zero, the other direction of the round trip |
| Strings.ParseDigitsLeadingZero | src/config.py:25-28 | a leading zero does not change the value of a digit run, so `"007"` reads as 7 |
| Strings.ParseIntOfDigits | src/config.py:25-28 | `int(t)` of an unsigned digit run is the run's decimal value |
| Strings.ParseIntOfSigned | src/config.py:25-28 | a `+` or `-` before a digit run gives the run's value, negated after `-` |
| Strings.ParseIntSigns | src/config.py:25-28 | `int("+" + t) == int(t)` and `int("-" + t) == -int(t)` for a digit run `t` |
| Strings.ParseIntOfZeroPadded | src/config.py:50-55 | a zero-padded decimal reads as its number: `int("0" + str(n)) == n`, as `"0123"` reads as 123 |
| Strings.ParseIntOfIntToString | src/config.py:71 | `int(str(i)) == i` for every integer |
| Strings.IntToStringInjective | src/config.py:71 | two integers render alike exactly when they are equal |
| Strings.IntToStringNoLeadingZero | src/config.py:71 | `str(i)` begins with `0` only when it is `"0"` |
| Config.StripOfCleanName | src/config.py:23 | stripping a name without outer white space changes nothing |
| Config.StripKeepsOut | src/config.py:23 | stripping never introduces a character, so a comma-free piece stays comma-free |
| Config.KeepNames | src/config.py:23 | the comprehension keeps at most one name per piece, each non-empty and unpadded, comma-free when the pieces are |
| Config.ParseFallbackModels | src/config.py:23 | every parsed fallback model is non-empty, unpadded and comma-free, and there are no more of them than pieces |
| Config.KeepNamesOfOne | src/config.py:23 | one piece gives its stripped form when that is non-empty, and nothing when it is blank |
| Config.KeepNamesAppend | src/config.py:23 | the comprehension works piece by piece: the names of two piece lists joined are the names of each, joined in order |
| Config.SplitThree | src/config.py:23 | three comma-free texts joined by two commas split back into those three pieces |
| Config.KeepThree | src/config.py:23 | of three pieces whose middle one is blank, the stripped first and last are kept, in order |
| Config.ParseDropsBlankEntry | src/config.py:23 | a blank entry between two named ones is dropped and the other two are stripped, as `" a , ,b"` gives `["a", "b"]` |
| Config.KeepCleanNames | src/config.py:23 | pieces that are already clean names are kept as they are, in order |
| Config.ParseEmptyModels | src/config.py:23 | an unset or empty LLM_FALLBACK_MODELS gives no fallback models |
| Config.ParseJoinedModels | src/config.py:23 | parsing a comma-joined list of clean names gives back exactly that list |
| Config.FallbackEnabled | src/config.py:21 | fallback is on when LLM_FALLBACK_ENABLED is unset, and otherwise exactly when it spells "true" in any letter case |
| Config.FallbackSwitch | src/config.py:21 | the same, stated about the settings read from an environment |
| Config.MaxTokens | src/config.py:25-28 | the token limit is 1200 when unset or not an integer, else the integer given |
| Config.MaxTokensOfDecimal | src/config.py:25-28 | any integer written in decimal is taken as the token limit unchanged |
| Config.FallbackNamesClean | src/config.py:23 | for any environment the fallback list holds only clean names |
| Config.PrimaryModelDefaults | src/config.py:17-19 | without LLM_PRIMARY_MODEL the primary model is LLM_MODEL, and without that "gpt-4" |
| Config.FallbackModels | src/config.py:31-37 | the parsed list when non-empty, else the single legacy fallback model when set, else nothing; empty exactly when both are empty |
| Config.FallbackModelsFromList | src/config.py:20-37 | with LLM_FALLBACK_MODELS a comma list of clean names, the fallback models are exactly those names in order |
| Config.FromEnvironment | src/config.py:10-28 | the settings read once from the environment; its properties are stated by the lemmas `FallbackNamesClean`, `FallbackSwitch`, `PrimaryModelDefaults`, `FallbackModelsFromList` and `EmptyEnvironment` |
| Config.Fails | src/config.py:42-59 | the four start-up checks: a missing bot token, a log level outside DEBUG/INFO/WARNING/ERROR, a non-empty administrator id that is not an integer, a missing API key; `Validate` is stated in its terms |
| Config.Validate | src/config.py:39-59 | passes exactly when no check fails; on failure reports a failing check and every earlier check passes (token, log level, administrator id, API key in that order) |
| Config.IsAdmin | src/config.py:66-71 | a user is the administrator exactly when the setting is the decimal form of the id; then the setting is non-empty and parses to that id |
| Config.AdminIsUnique | src/config.py:66-71 | at most one user id is the administrator |
| Config.PaddedAdminLocksEveryoneOut | src/config.py:50-55 | an administrator id of "0123" passes validation while no user is the administrator |
| Config.IsAdminById | src/config.py:66-71 | the value comparison accepts a user exactly when the setting parses to that id, and accepts everyone the text comparison does |
| Config.ValidatedAdminNamesOneUser | src/config.py:50-55 | compared by value, a validated administrator setting names exactly one user |
| Config.EmptyEnvironment | src/config.py:10-28 | with nothing set: primary model "gpt-4", log level INFO, fallback on, limit 1200, no fallback models, and validation stops at the missing bot token |
| Config.ValidationReadsFourSettings | src/config.py:39-59 | validation depends only on the bot token, log level, administrator id and API key: settings that agree on those four validate alike |
| Config.ValidationOfTestSettings | tests/test_config.py:6-19 | with token, key and level INFO validation passes; with level INVALID it fails on the log level |
| Config.AdminCheck | tests/test_config.py:22-25 | with ADMIN_USER_ID "123", user 123 is the administrator and 456 is not |
| Metrics.Default | src/metrics.py:26-45 | the record built without a file: every counter zero, no model seen, created now, never updated |
| Metrics.CountOutcome | src/metrics.py:65-69 | one more request, counted as exactly one success or one error, so the unclassified remainder of requests is unchanged |
| Metrics.CountPrimary | src/metrics.py:72-75 | an attempt exactly when the request made one, a success only for a successful attempt without fallback (never more successes than attempts added); no other counter changes |
| Metrics.CountFallback | src/metrics.py:76-79 | an attempt exactly when the fallback was used, a success only when that request succeeded (never more successes than attempts added); no other counter changes |
| Metrics.CountModel | src/metrics.py:81-83 | a non-empty model name gains one request, starting from 0 when unseen, every other model keeps its count; an absent or empty name changes nothing |
| Metrics.CountTime | src/metrics.py:86-88 | a given response time joins the sum and adds one to the count; none changes nothing |
| Metrics.Record | src/metrics.py:64-88 | one request adds one request and one success or error; a primary attempt, a primary success only without fallback, a fallback attempt and success; one more for a non-empty model name with other models untouched; the response time when given; the counter relations are kept and no counter decreases for a non-negative time |
| Metrics.Saved | src/metrics.py:47-53 | saving stamps the update time and changes nothing else |
| Metrics.RecordAllCountsRequests | src/metrics.py:55-90 | after any sequence of requests the request total has grown by their number |
| Metrics.RecordAllKeepsConsistent | src/metrics.py:55-90 | successes plus errors equal requests, successes never exceed attempts and no count is negative after any sequence of requests from a consistent record |
| Metrics.FromDefaultConsistent | src/metrics.py:26-90 | those relations hold after any sequence of requests from the default record |
| Metrics.RecordAllGrows | src/metrics.py:55-90 | no counter decreases and no model is forgotten over requests with non-negative response times |
| Metrics.RepeatedPrimarySuccess | src/metrics.py:64-79 | any n requests that are successful primary attempts without fallback, whatever their models and times, count n requests, successes, primary attempts and primary successes, and no errors, fallback attempts or fallback successes |
| Metrics.TwoRequests | tests/test_metrics.py:6-17 | a primary success then a fallback success: 2 requests, 2 successes, 1 primary and 1 fallback attempt, 2 timed responses |
| Metrics.MetricsManager.constructor | src/metrics.py:18-45 | starts from the saved record when one is read, else from the default record |
| Metrics.MetricsManager.Save | src/metrics.py:47-53 | the fields become the saved record |
| Metrics.MetricsManager.RecordRequest | src/metrics.py:55-90 | the fields become `Record` of the old record, then saved; the counter relations are kept |
| Metrics.MetricsManager.AddOutcome | src/metrics.py:64-69 | the totals are updated and no other section changes |
| Metrics.MetricsManager.AddPrimary | src/metrics.py:71-75 | the primary counters are updated and no other section changes |
| Metrics.MetricsManager.AddFallback | src/metrics.py:76-79 | the fallback counters are updated and no other section changes |
| Metrics.MetricsManager.AddModel | src/metrics.py:81-83 | the per-model count is updated and no other section changes |
| Metrics.MetricsManager.AddTime | src/metrics.py:85-88 | the timings are updated and no other section changes |
| Conversations.Empty | src/data_manager.py:32-34 | the store without a data file has no users |
| Conversations.AppendMessage | src/data_manager.py:58-74 | a session is opened only when the user has none; the message goes last into the last session; earlier sessions and the user's name and creation time are unchanged |
| Conversations.SessionId | src/data_manager.py:60 | the id of a new session: `session_` followed by the time stamp |
| Conversations.NewUser | src/data_manager.py:50-56 | the record of a first-seen user: the given id and name, created now, no sessions |
| Conversations.Add | src/data_manager.py:48-74 | the user's record becomes `AppendMessage` of the old record (a new user's record when unknown) with the message stamped now; a new user is appended to the order, a known user keeps name, creation time and place; other users are unchanged |
| Conversations.Clear | src/data_manager.py:83-88 | the user's sessions become empty, the user stays, other users and the order are unchanged; an unknown user changes nothing |
| Conversations.Stats | src/data_manager.py:103-117 | the number of users and the sessions and messages summed over users in order; its properties are stated by `UsersCounted`, `AddStatistics`, `ClearStatistics` and `TidyBounds` |
| Conversations.History | src/data_manager.py:79-81 | the user's record for a known user, nothing for an unknown one |
| Conversations.MessagesInAppend | src/data_manager.py:108-111 | message counts of two session lists add up |
| Conversations.AppendMessageCounts | src/data_manager.py:58-74 | a message adds one message to the user, and a session exactly when the user had none |
| Conversations.TotalUpdate | src/data_manager.py:108-111 | replacing one user's record changes a total by the change in that user's count |
| Conversations.UsersCounted | src/data_manager.py:114 | the user count equals the number of users walked in order |
| Conversations.AddStatistics | src/data_manager.py:48-74 | adding a message adds one message, a user exactly when new, and a session exactly when the user had none |
| Conversations.ClearStatistics | src/data_manager.py:83-88 | clearing keeps the user count and removes exactly that user's sessions and messages |
| Conversations.ClearIdempotent | src/data_manager.py:83-88 | clearing twice is clearing once |
| Conversations.HistoryAfterAdd | src/data_manager.py:48-81 | after a message the user's history exists and ends with that message |
| Conversations.AddKeepsTidy | src/data_manager.py:58-65 | adding keeps every user at one session at most and every session non-empty |
| Conversations.ClearKeepsTidy | src/data_manager.py:83-88 | clearing keeps that shape |
| Conversations.MessagesAtLeastSessions | src/data_manager.py:108-111 | non-empty sessions hold at least as many messages as there are sessions |
| Conversations.TidyBounds | src/data_manager.py:103-117 | in such a store sessions are no more than users and no more than messages |
| Conversations.TwoMessages | tests/test_data_manager.py:17-23 | two messages from one user: 1 user, 1 session, 2 messages |
| Conversations.ClearedHistory | tests/test_data_manager.py:33-37 | a cleared user is still known and has no sessions |
| Conversations.DataManager.constructor | src/data_manager.py:13-37 | starts from the saved store when one is read, else from the empty store |
| Conversations.DataManager.AddMessage | src/data_manager.py:48-77 | the fields become `Add` of the old store |
| Conversations.DataManager.GetUserHistory | src/data_manager.py:79-81 | returns `History` of the store |
| Conversations.DataManager.ClearUserHistory | src/data_manager.py:83-88 | the fields become `Clear` of the old store |
| Conversations.DataManager.GetStatistics | src/data_manager.py:103-117 | the nested walk over users and sessions returns `Stats` of the store |

## Findings

| source | as written | input that shows it | evidently intended | confidence | as-written member | corrected member |
|---|---|---|---|---|---|---|
| src/config.py:50-55, 66-71 | `validate()` accepts any administrator id `int()` parses, but `is_admin` compares `str(user_id)` with the text | ADMIN_USER_ID "0123" (or "+123"): validation passes and `is_admin` is false for every user | compare by value, so every administrator id that validates names one user | medium; not executed | Config.PaddedAdminLocksEveryoneOut | Config.ValidatedAdminNamesOneUser |

## Left out

- File persistence: reading and writing `data/metrics.json` and `data/conversations.json`, directory creation and logging. A saved record is a constructor parameter; `_save` and `_save_data` change only what is modelled (`updated_at`) or nothing.
- Malformed saved files: a metrics file missing a section, or a conversation file whose records lack keys, is not modelled; the saved values have the shape the code writes. `Conversations.DataManager.constructor` requires the insertion order to list each user once, which any dictionary read from JSON gives.
- `export_all_history` (src/data_manager.py:90-101): it renders the store as JSON text; JSON encoding is not part of this model.
- `get_log_level` (src/config.py:61-64): it looks a name up in the `logging` module, which is not part of this model.
- Clocks: `datetime.now()` becomes the parameters `now` (ISO text) and `stamp` (the `%Y%m%d_%H%M%S` text in the session id); the several calls inside one `add_message` are taken to return one instant, while separate calls take their own `now` and `stamp`.
- Metrics.MetricsManager.RecordRequest: the keyword defaults of `record_request` (`response_time_ms=None`, `primary_attempt=True`, src/metrics.py:61-62) are not modelled; every argument is passed explicitly.
- Conversations.DataManager.GetUserHistory: `get_user_history` returns the stored dictionary itself (src/data_manager.py:81), so a caller mutating it changes the store; the model returns a value, and that aliasing is not captured.
- Import-time reading: `Config` reads the environment once, when the module is imported, after `load_dotenv()`; the model is a function of an explicit environment map, and `.env` loading is not modelled.
- Strings.ParseInt: accepts only an optional sign followed by ASCII digits; Python's `int()` also accepts surrounding white space, underscores between digits and non-ASCII decimal digits, so `Config.MaxTokens` and `Config.Validate` reject such values where the source accepts them; conversely Python 3.11 and later refuse decimal texts longer than 4300 digits, which the model accepts, so for such a value the source falls back to 1200 and fails validation while `Config.MaxTokens` returns the number and `Config.Validate` passes.
- Strings.Lower: lower-cases ASCII letters only; no other character lower-cases to a letter of "true", so `Config.FallbackEnabled` agrees with the source.
- src/llm.py, src/bot.py, src/logging_utils.py and main.py are not part of this model.
