# MindEase core in Dafny

MindEase is a mental-wellness chat service. This project models its core and proves properties about it:

- **Crisis classifier** (`CrisisDetection`, `TextMatch`, `CrisisExamples`):
  - `detect_crisis` flags a message on a configured keyword found as a raw substring of the lower-cased text, or on one of eight word-boundary phrase patterns.
  - `get_crisis_severity` ranks a flagged message as high, medium or low.
  - `get_crisis_resources` builds the help block for a severity.
  - Each pattern is modelled as a sequence of alternatives built from literal words, `\s+`, `\s*` and `[-]?`. A backtracking matcher is proved equal to the pattern's declarative language, read between two ASCII word boundaries.
  - Example lemmas pin down the classifier's quirks on concrete messages.
- **Chat turn composition** (`AiService`, `Chat`):
  - The system prompt is assembled from a fixed base prompt, an emotion clause and a topic clause.
  - The message list is the system turn, the history and the user turn.
  - The history window is the last ten turns over the user's three newest sessions.
  - The Anthropic transcript is flattened into one string.
  - A provider is chosen, and the call falls back to five stock replies.
  - The chat router stores the user's message with its crisis flag before generation, and the reply after it. It attaches the fixed crisis-resource block exactly when the flag is set.
  - It also covers session creation, ending a session and listing a session's messages.
  - The provider SDK calls are function parameters that may return a completion or fail.
- **Store** (`Database`): the SQLAlchemy tables as sequences in a `Store` class. Each insert appends a row with a fresh id and a later timestamp, which the class invariant keeps increasing.
- **Wellness, analytics and topics routers** (`Wellness`, `Analytics`, `Topics`, with `Tally` and `Metrics`):
  - Guards and validators.
  - The activity-completion update, with its "falsy rating is skipped" rule.
  - Per-user listings, newest first.
  - Counting, averaging, argmax with first-seen tie-breaking.
  - Grouping by activity type in first-seen order.
  - The seven-day mood trend.
  - The constant topic catalogue.
- **Frontend logger** (`FrontendLogger`): the `Logger` class keeps the last 1000 entries in a buffer updated in place.

Modelling conventions:

- Python `None` and raised HTTP errors become `Option` and `Result` (`Wrappers`, `Http`).
- Truthiness of an optional string is `Truthy`.
- Row ids are `nat`s drawn from a counter, and timestamps are a logical clock.
- A time window (`created_at >= utcnow() - timedelta(days)`) is a `start: nat` parameter.
- Day names and calendar dates are functions passed in (`dayOf`, `dateOf`, `today`).

Quirks of the code that the model keeps and proves:

- The user row is committed before the history is read. So when the session written to is the user's only session, the current message appears twice in the provider's message list (`Chat.CurrentMessageRepeated`). With several sessions the message can fall outside the window, as the next quirk shows.
- When the third-newest session is long, the whole history window comes from it: the oldest of the three sessions (`AiService.WindowFromOldestOfThree`).

## Model

| member | source | states |
|---|---|---|
| CrisisDetection.AnyKeywordMeans | backend/app/services/crisis_detection.py:24-26 | the keyword loop fires exactly when some keyword, lower-cased, occurs as a substring of the text |
| CrisisDetection.AnyPatternMeans | backend/app/services/crisis_detection.py:29-31 | the pattern loop fires exactly when some pattern of the list is found in the text |
| CrisisDetection.KeywordsAreLowerCase | backend/app/core/config.py:27-30 | every configured crisis keyword is already lower case, so `keyword.lower()` is the keyword itself |
| CrisisDetection.PatternsWellFormed | backend/app/services/crisis_detection.py:8-14 | every crisis and distress pattern alternative starts with a literal word and is well formed for the matcher |
| CrisisDetection.EmptyNotFlagged | backend/app/services/crisis_detection.py:18-19 | the empty message is not flagged |
| CrisisDetection.DetectCrisis | backend/app/services/crisis_detection.py:16-44 | the result is true exactly when the message is non-empty and a keyword, crisis pattern or distress pattern matches its lower-cased form, independent of the order of the checks |
| CrisisDetection.KeywordAnywhereDetected | backend/app/services/crisis_detection.py:21-26 | a message containing a keyword is detected whatever text surrounds it |
| CrisisDetection.CrisisSeverity | backend/app/services/crisis_detection.py:46-73 | severity is one of none/low/medium/high; none exactly when not detected; high exactly when detected and a high pattern matches; medium exactly when detected, no high pattern and a medium pattern matches |
| CrisisDetection.CaseInsensitive | backend/app/services/crisis_detection.py:21-51 | detection and severity give the same answer on a message and on its lower-cased form |
| CrisisDetection.GetCrisisResources | backend/app/services/crisis_detection.py:75-93 | severity defaults to "medium"; hotline "988" and text line "Text HOME to 741741" always; urgent exactly for "high"; the urgent message exactly for "high", the support message exactly for "medium", and the gentle message for every other string |
| CrisisExamples.KillMyselfIsHigh | backend/app/services/crisis_detection.py:54-61 | "I want to kill myself" is detected and has severity high |
| CrisisExamples.CutMyselfIsMedium | backend/app/services/crisis_detection.py:64-71 | "I want to cut myself" is detected and has severity medium |
| CrisisExamples.HopelessIsLow | backend/app/services/crisis_detection.py:34-42 | "I feel hopeless and can't go on" is detected through the distress patterns and has severity low |
| CrisisExamples.SuicidalNotDetected | backend/app/services/crisis_detection.py:9-13 | "I feel suicidal" matches no keyword and no pattern, so it is not detected and its severity is none |
| CrisisExamples.SkillMyselfIsLow | backend/app/services/crisis_detection.py:24-26 | "skill myself" trips the raw "kill myself" keyword but no word-bounded pattern, so its severity is low |
| CrisisExamples.GiveUpDetected | backend/app/services/crisis_detection.py:13 | "give up" alone is detected |
| CrisisExamples.PlanToDieAloneNotDetected | backend/app/services/crisis_detection.py:56 | "plan to die" alone is not detected and gets severity none, although it is a high-severity phrase |
| CrisisExamples.HopelessPlanFlagged | backend/app/services/crisis_detection.py:35 | "hopeless, plan to die" is found by the first distress pattern |
| CrisisExamples.PlanToDieRaisesFlaggedToHigh | backend/app/services/crisis_detection.py:48-61 | once another rule has flagged the message, "plan to die" raises it to high |
| CrisisExamples.SelfHarmRunTogether | backend/app/services/crisis_detection.py:10 | the self-harm pattern finds "selfharm" |
| CrisisExamples.SelfHarmSpaced | backend/app/services/crisis_detection.py:10 | the self-harm pattern finds "self harm" |
| CrisisExamples.SelfHarmHyphenated | backend/app/services/crisis_detection.py:10 | the self-harm pattern finds "self-harm" |
| TextMatch.LowerIsLower | backend/app/services/crisis_detection.py:21 | lower-casing keeps the length and leaves no upper-case ASCII letter |
| TextMatch.LowerIdempotent | backend/app/services/crisis_detection.py:21 | lower-casing twice is lower-casing once |
| TextMatch.LowerConcat | backend/app/services/crisis_detection.py:21 | lower-casing distributes over concatenation |
| TextMatch.ContainsInExtension | backend/app/services/crisis_detection.py:25 | a substring of a text is a substring of any text that contains it |
| TextMatch.MatchTailMeansLang | backend/app/services/crisis_detection.py:30 | the backtracking matcher succeeds from a position exactly when some span from there lies in the alternative's language and ends on a word boundary |
| TextMatch.SearchMeansPhraseBetweenBoundaries | backend/app/services/crisis_detection.py:30 | `re.search` of a `\b(...)\b` pattern succeeds exactly when some substring between two word boundaries is in the language of one alternative |
| AiService.SystemPromptShape | backend/app/services/ai_service.py:70-95 | the prompt starts with the base prompt; the emotion clause with the emotion verbatim follows it when the emotion is truthy; it ends with the topic clause exactly when the session is topic-based with a truthy topic id; with neither it is the base prompt |
| AiService.TopicClauseIffRequested | backend/app/services/ai_service.py:92-93 | the prompt ends with the topic clause if and only if the topic is requested |
| AiService.TopicIdNotInPrompt | backend/app/services/ai_service.py:92-93 | the prompt does not depend on the topic id (the id is never interpolated): any two non-empty ids give the same prompt |
| AiService.PromptDeterminesContext | backend/app/services/ai_service.py:89-93 | equal prompts have equal emotion truthiness, equal emotion text when truthy, and equal topic requests: the prompt encodes its context |
| AiService.PreparedMessagesShape | backend/app/services/ai_service.py:129-144 | the message list has length of the history plus two, the system turn first, the history in order in the middle and the user turn last |
| AiService.PrepareMessages | backend/app/services/ai_service.py:122-144 | the loop builds exactly that message list |
| AiService.LastN | backend/app/services/ai_service.py:118 | the slice `[-n:]` is the last min(n, len(s)) elements of the input s: exactly that many, a suffix, and the whole input when it is short |
| AiService.HistoryWindowProperties | backend/app/services/ai_service.py:102-118 | the window is the last min(10, n) of the n turns of the (at most three) newest sessions, concatenated in order; it is that whole concatenation when it is short, and holds only turns of those sessions |
| AiService.NewestSessionWhole | backend/app/services/ai_service.py:107-118 | when only the newest session has turns and there are at most ten, the window is that session |
| AiService.SingleSessionWindowEnd | backend/app/services/ai_service.py:107-118 | with one non-empty session the window ends with that session's last turn |
| AiService.WindowFromOldestOfThree | backend/app/services/ai_service.py:104-118 | when the third-newest session has ten or more turns, the window is its last ten turns: the two newer sessions drop out entirely |
| AiService.ConversationHistory | backend/app/services/ai_service.py:97-120 | the nested append loop and the final slice compute the history window |
| AiService.Speaking | backend/app/services/ai_service.py:160-166 | the turns kept are exactly those with role system, user or assistant |
| AiService.TranscriptIgnoresUnknownRoles | backend/app/services/ai_service.py:160-166 | turns of any other role contribute nothing to the transcript |
| AiService.TranscriptSingle | backend/app/services/ai_service.py:160-166 | a single turn flattens to its labelled line |
| AiService.TranscriptOfPrepared | backend/app/services/ai_service.py:159-168 | the transcript of a prepared list is the system line, the history's transcript, then the Human line with the current message |
| AiService.AnthropicPrompt | backend/app/services/ai_service.py:158-168 | the accumulating loop yields the transcript followed by the final "Assistant:" cue |
| AiService.TrimLeftSpec | backend/app/services/ai_service.py:154 | left trimming removes exactly a leading run of whitespace and leaves no leading whitespace |
| AiService.TrimRightSpec | backend/app/services/ai_service.py:154 | right trimming removes exactly a trailing run of whitespace and leaves no trailing whitespace |
| AiService.StripSpec | backend/app/services/ai_service.py:154 | `strip()` yields a slice whose removed ends are whitespace and whose own ends are not |
| AiService.TrimLeftKeeps | backend/app/services/ai_service.py:176 | a text with no leading whitespace is unchanged by left trimming |
| AiService.TrimRightKeeps | backend/app/services/ai_service.py:176 | a text with no trailing whitespace is unchanged by right trimming |
| AiService.StripIdempotent | backend/app/services/ai_service.py:176 | stripping a stripped reply changes nothing |
| AiService.FallbackResponsesDistinct | backend/app/services/ai_service.py:180-186 | there are exactly five stock replies, pairwise different and non-empty |
| AiService.FallbackResponse | backend/app/services/ai_service.py:178-189 | the fallback is one of the five stock replies, whatever the message |
| AiService.RouteFor | backend/app/services/ai_service.py:60-65 | Anthropic exactly when the provider is "anthropic" and its client exists; otherwise OpenAI exactly when its client exists; the fallback exactly when neither applies |
| AiService.MessagesForRepeatsLastTurn | backend/app/services/ai_service.py:52-57 | when the only session ends with the current user turn, the message list ends with that turn twice |
| AiService.AIService.constructor | backend/app/services/ai_service.py:11-32 | a client exists exactly when its key is truthy and its construction did not raise |
| AiService.AIService.GenerateResponse | backend/app/services/ai_service.py:34-68 | fails only when a user id is given and the history read raises; otherwise replies via the chosen route with the stripped completion, or with a stock reply when that provider call fails, so a provider error never propagates |
| Chat.CreateAnonymousUser | backend/app/core/security.py:77-84 | appends one user row whose anonymous id is "anon_" plus the tag and whose email is empty; other tables unchanged |
| Chat.CreateChatSession | backend/app/routers/chat.py:47-76 | with no user an anonymous user is created first; appends exactly one session owned by that user with the requested type and context and a fresh id; the response echoes it |
| Chat.Turns | backend/app/services/ai_service.py:112-116 | each stored message becomes a turn with its role and content, in order |
| Chat.Generate | backend/app/routers/chat.py:104-116 | generation fails exactly when the history read fails; otherwise the reply is generated from the message list built from the stored history |
| Chat.ResolveOwner | backend/app/routers/chat.py:85-88 | the owner is the current user, or a freshly appended anonymous user when there is none |
| Chat.Exchange | backend/app/routers/chat.py:90-142 | the user row with its crisis flag is stored first and survives a 500; on success the assistant row carries the reply and the same flag; the response echoes the session id and the flag, with the resource block exactly when the flag is set |
| Chat.SendMessage | backend/app/routers/chat.py:78-142 | the whole handler: anonymous fallback, one or two appended rows carrying the flag of `detect_crisis`, 500 exactly when generation fails, resource block exactly when flagged, no session ownership check |
| Chat.OnlySessionHistory | backend/app/routers/chat.py:100-111 | when the user has one session and the new row belongs to it, the history read after the commit ends with that row |
| Chat.CurrentMessageRepeated | backend/app/routers/chat.py:94-111 | when the session written to is the user's only session, the current user message reaches the provider twice: once from the stored history, once appended by `_prepare_messages` |
| Chat.GetSessionMessages | backend/app/routers/chat.py:144-182 | 401 exactly without a user; 404 exactly when no session with that id belongs to the user |
| Chat.GetSessionMessagesSpec | backend/app/routers/chat.py:169-171 | on success: exactly the stored messages of that session, ascending by timestamp |
| Chat.EndSession | backend/app/routers/chat.py:184-211 | 401 without a user, 404 when the session is not the user's; on success only that session's `ended_at` changes |
| Database.Store.NewKeys | backend/app/database.py:24-29 | each insert draws a fresh id and a later timestamp from the counters |
| Database.Store.AddUser | backend/app/database.py:21-30 | appends one active user with a fresh id; other tables unchanged |
| Database.Store.AddSession | backend/app/database.py:37-46 | appends one open session with a fresh id and the latest creation time; other tables unchanged |
| Database.Store.AddMessage | backend/app/database.py:53-61 | appends one message with a fresh id and the latest timestamp; other tables unchanged |
| Database.Store.AddTopic | backend/app/database.py:66-75 | appends one active topic; other tables unchanged |
| Database.Store.AddMood | backend/app/database.py:80-88 | appends one mood entry with the given fields; other tables unchanged |
| Database.Store.AddActivity | backend/app/database.py:93-102 | appends one activity, not completed and without rating; other tables unchanged |
| Database.Store.UpdateSession | backend/app/routers/chat.py:208-209 | replaces one session row in place, keeping its id and creation time |
| Database.Store.UpdateActivity | backend/app/routers/wellness.py:171-180 | replaces one activity row in place, keeping its id and creation time |
| Database.FirstOwned | backend/app/routers/chat.py:158-161 | `.first()` of a query by primary key and owner (the session lookup here, the activity lookup at wellness.py:160-163): the first index whose row has that key and owner, or none exactly when no row has both |
| Database.KeysUnique | backend/app/database.py:21-105 | in a valid store no two rows of a table share a primary key |
| Database.SessionMessagesInOrder | backend/app/routers/chat.py:169-171 | a session's messages keep the store's ascending timestamp order |
| Database.UserSessionsNewestFirstSpec | backend/app/services/ai_service.py:102-104 | the user's sessions are listed newest first and are exactly the user's sessions |
| Wellness.CreateMoodEntry | backend/app/routers/wellness.py:40-75 | 401 exactly without a user, then 400 exactly when the intensity is outside 1..10, storing nothing on either; otherwise appends one entry with the given fields |
| Wellness.GetMoodEntries | backend/app/routers/wellness.py:77-88 | fails, with 401, exactly without a user |
| Wellness.MoodEntriesSpec | backend/app/routers/wellness.py:92-95 | exactly the caller's entries inside the window, newest first |
| Wellness.CreateWellnessActivity | backend/app/routers/wellness.py:108-144 | 401 exactly without a user, then 400 exactly for a type other than breathing, affirmations or reframing; any duration is accepted; stores nothing on failure |
| Wellness.Complete | backend/app/routers/wellness.py:171-178 | fails with 400 exactly for a truthy rating outside 1..5; on success the activity is completed and keeps its identity, type and duration |
| Wellness.CompleteRating | backend/app/routers/wellness.py:172-178 | a None or 0 rating only sets `completed`; a rating in 1..5 is stored; any other rating gives 400 |
| Wellness.CompleteIdempotent | backend/app/routers/wellness.py:171-180 | completing again with the same rating changes nothing, and any later successful completion stays completed |
| Wellness.CompleteWellnessActivity | backend/app/routers/wellness.py:146-190 | 401, then 404 unless the activity is the user's, then 400 for a bad truthy rating, all leaving the store unchanged; on success only that activity row is replaced by its completed form |
| Wellness.GetWellnessActivities | backend/app/routers/wellness.py:192-203 | fails, with 401, exactly without a user |
| Wellness.WellnessActivitiesSpec | backend/app/routers/wellness.py:207-210 | exactly the caller's activities inside the window, newest first |
| Wellness.GetWellnessStats | backend/app/routers/wellness.py:224-277 | 401 exactly without a user; totals are the window's counts; the average is the mean intensity; the most common emotion is absent exactly when there are no entries and otherwise the first-seen emotion of maximal count; completed is at most total and the rate lies in 0..100 |
| Tally.MostCommonUnique | backend/app/routers/wellness.py:264 | with first-seen tie-breaking there is only one most common key |
| Tally.ScanFindsMostCommon | backend/app/routers/wellness.py:264 | `max` over the dict in insertion order returns the first key of maximal count |
| Tally.CountKeys | backend/app/routers/wellness.py:260-262 | the counting loop gives each key its number of occurrences and records keys in first-seen order |
| Tally.MostCommon | backend/app/routers/wellness.py:260-264 | none exactly for no keys; otherwise the first-seen key of maximal count |
| Tally.CountsAddUp | backend/app/routers/analytics.py:217-224 | the counts of the distinct keys add up to the number of keys |
| Metrics.Mean | backend/app/routers/wellness.py:253 | zero for no items; otherwise the value times the count is the total |
| Metrics.Percent | backend/app/routers/wellness.py:257 | zero for an empty whole; otherwise the value times the whole is a hundred times the part |
| Metrics.PercentBounds | backend/app/routers/analytics.py:105-107 | a part of a whole is between 0 and 100 percent |
| Metrics.MeanBounds | backend/app/routers/analytics.py:97 | the mean of values between two bounds lies between those bounds |
| Analytics.WeekdayName | backend/app/routers/analytics.py:86 | a weekday name is never the "No activity" marker |
| Analytics.UserMessagesSinceSpec | backend/app/routers/analytics.py:53-58 | the joined query returns exactly the window's messages of sessions the user owns |
| Analytics.MostActiveDay | backend/app/routers/analytics.py:84-89 | "No activity" exactly when there are no sessions; otherwise the first-seen weekday of maximal count |
| Analytics.EntriesOnSpec | backend/app/routers/analytics.py:95 | a day's entries are exactly the mood entries dated that day |
| Analytics.DayPoint | backend/app/routers/analytics.py:95-102 | a day gives one point exactly when it has entries, carrying their sum and count |
| Analytics.ComputeMoodTrend | backend/app/routers/analytics.py:92-102 | the seven-day loop computes the mood trend |
| Analytics.MoodTrendPoints | backend/app/routers/analytics.py:92-102 | at most n points, each for a day in the window, each with a positive count and the sum of that day's intensities |
| Analytics.MoodTrendNewestFirst | backend/app/routers/analytics.py:93-94 | the points run strictly from newest day to oldest |
| Analytics.MoodTrendComplete | backend/app/routers/analytics.py:93-96 | every day of the window that has entries has a point |
| Analytics.IntensitySumBounds | backend/app/routers/analytics.py:97 | the sum of intensities within bounds lies between count times the bounds |
| Analytics.TrendAveragesOnScale | backend/app/routers/analytics.py:97 | with valid intensities every point's average lies between 1 and 10 |
| Analytics.GetUserInsights | backend/app/routers/analytics.py:29-120 | 401 exactly without a user; totals count the window's sessions and messages; average session length is their mean; most active day as above; the mood trend; completion rate in 0..100; crisis detections count the flagged messages and never exceed the message total |
| Analytics.TalliesStep | backend/app/routers/analytics.py:220-224 | one more activity adds one to its type's total, and one to its completed count when completed |
| Analytics.CountedTallies | backend/app/routers/analytics.py:220-224 | updating the dict for one more activity keeps every entry equal to the counts over the longer list |
| Analytics.GroupedStep | backend/app/routers/analytics.py:218-224 | one loop step keeps the dict's tallies and the first-seen key order correct |
| Analytics.GroupByType | backend/app/routers/analytics.py:217-224 | the grouping loop yields per-type total and completed counts, with types in first-seen order |
| Analytics.ProgressEntry | backend/app/routers/analytics.py:228-237 | one result entry from a type's tallies is that type's progress |
| Analytics.ListEntries | backend/app/routers/analytics.py:227-238 | the result loop over the grouped dict yields the progress list |
| Analytics.GetWellnessProgress | backend/app/routers/analytics.py:192-248 | 401 exactly without a user, 500 exactly when the query raises, otherwise the progress list of the window's activities |
| Analytics.CompletedAtMostTotal | backend/app/routers/analytics.py:222-224 | a type's completed count never exceeds its total |
| Analytics.ProgressEntries | backend/app/routers/analytics.py:227-237 | each entry is its type's progress, with a type that occurs, a positive total, completed at most total and a rate in 0..100 |
| Analytics.ProgressCovers | backend/app/routers/analytics.py:217-224 | every activity's type has an entry |
| Analytics.ProgressOrder | backend/app/routers/analytics.py:217-238 | the entries have distinct types, in first-seen order |
| Analytics.ProgressTotals | backend/app/routers/analytics.py:217-238 | the totals add up to the number of activities |
| Topics.DailyTopicsMembers | backend/app/routers/topics.py:86-87 | with a category: exactly the sample topics of that category |
| Topics.DailyTopicsByCategory | backend/app/routers/topics.py:72-100 | no category (or empty) gives all five topics in order; each known category its topics in order; any other category nothing |
| Topics.GetRandomDailyTopic | backend/app/routers/topics.py:102-132 | 404 exactly when the filtered list is empty; otherwise a member of that list |
| Topics.CategorySetValue | backend/app/routers/topics.py:139 | the set of sample categories is exactly workplace, social and personal |
| Topics.GetTopicCategories | backend/app/routers/topics.py:134-140 | three categories, without duplicates, exactly workplace, social and personal |
| Topics.FindTopic | backend/app/routers/topics.py:150 | `next(...)` finds the first topic with that id, or none exactly when no topic has it |
| Topics.GetTopicById | backend/app/routers/topics.py:142-166 | success exactly when a sample topic has that id, returning it; 404 otherwise |
| Topics.GetTopicByIdFindsEach | backend/app/routers/topics.py:150-156 | each sample topic is found by its own id |
| Topics.CreateTopic | backend/app/routers/topics.py:169-203 | 401, storing nothing, unless there is a user with a truthy email; otherwise appends one active topic with the given fields |
| Topics.GetAllTopics | backend/app/routers/topics.py:205-215 | fails, with 401, exactly when there is no user with a truthy email |
| Topics.GetAllTopicsSpec | backend/app/routers/topics.py:217 | exactly the active topics |
| FrontendLogger.PushedSpec | frontend/lib/logger.ts:27-30 | a push keeps the buffer within the cap with the new entry last; below the cap it only appends; at the cap it drops exactly the oldest entry |
| FrontendLogger.Recent | frontend/lib/logger.ts:15 | the kept entries never exceed 1000 |
| FrontendLogger.PushedKeepsRecent | frontend/lib/logger.ts:27-30 | pushing onto the last 1000 entries of a history gives the last 1000 entries of the longer history |
| FrontendLogger.EmojiDistinct | frontend/lib/logger.ts:56-64 | each level has its own marker |
| FrontendLogger.Logger.constructor | frontend/lib/logger.ts:14-15 | an empty buffer with the cap 1000 |
| FrontendLogger.Logger.Log | frontend/lib/logger.ts:17-30 | the buffer becomes the push of the new entry, stays within the cap with that entry last, and holds the newest entries logged |
| FrontendLogger.Logger.LogDebug | frontend/lib/logger.ts:80-82 | records exactly one entry at level debug with the given fields |
| FrontendLogger.Logger.LogInfo | frontend/lib/logger.ts:84-86 | records exactly one entry at level info with the given fields |
| FrontendLogger.Logger.LogWarn | frontend/lib/logger.ts:88-90 | records exactly one entry at level warn with the given fields |
| FrontendLogger.Logger.LogError | frontend/lib/logger.ts:92-94 | records exactly one entry at level error with the given fields |
| FrontendLogger.Logger.GetLogs | frontend/lib/logger.ts:97-99 | a freshly allocated copy equal to the buffer, so writing to it cannot change the logger |
| FrontendLogger.Logger.ClearLogs | frontend/lib/logger.ts:102-104 | the buffer is empty |

## Left out

- The OpenAI and Anthropic SDK calls (network clients) are function parameters returning a completion or a failure. The model, token limits and temperature are not modelled.
- `random.choice` in the fallback reply and the random topic is a nondeterministic choice from the list. The contracts state only membership.
- The time windows (`utcnow() - timedelta(days)`), `strftime` day names and calendar dates are parameters: `start`, `dayOf`, `dateOf` and `today`. A trend point stores its date as an integer day and its intensity sum, and its average is a function of the point.
- Floating point and `round(..., 1)`: averages and percentages are exact reals, and rounding is not modelled.
- Unicode: lower-casing, `\s`, `\w` and the whitespace set of `str.strip()` (`AiService.Strip`) are modelled over ASCII only; Python's `strip()` also removes the other Unicode whitespace characters. Over ASCII, `re.IGNORECASE` adds nothing, because the text is lower-cased and the pattern literals are lower case. Its Unicode case folding is not modelled: a pattern `i` also matches `ı` (U+0131) and a pattern `s` also matches `ſ` (U+017F), which `lower()` leaves as they are. So `detect_crisis` flags "kıll myself" or "ſelf harm" through the patterns, while `CrisisDetection.DetectCrisis` does not.
- The general regex engine: only the fixed pattern shapes of the classifier are modelled.
- SQLAlchemy sessions and the schema: tables are sequences in `Database.Store`. uuids are fresh `nat` ids, and timestamps are a logical clock. Unordered `.all()` results are taken in table order.
- The join in `get_user_insights` is modelled as a membership test on the user's session ids, so it counts each message once whatever the ids are. The store invariant also makes ids unique, as the primary keys do (`Database.KeysUnique`).
- Authentication (`get_current_user_optional`, bcrypt, JWT): the current user is a parameter. The anonymous id's random hex suffix is a parameter too.
- Chat.Generate: an exception while reading the history is a flag, `historyReadFails`. Any exception in `get_wellness_progress` is the flag `queryFails`.
- Wellness.CompleteWellnessActivity: the 400 raised after `completed = True` but before the commit is modelled as leaving the store unchanged, since nothing is committed.
- Topics: the `created_at` stamp of the sample topics is `utcnow()` at response time and is not modelled.
- The SQL-side aggregates in `get_mood_trend`, `get_session_activity` and `get_emotion_summary`, and `track_analytics_event`, run in the database or only record an event. Only their 401 guards match the modelled endpoints, and these endpoints are not modelled.
- FrontendLogger: console output, the development switch, `sendToAnalytics` (which does nothing) and `exportLogs` (JSON text) are left out. The `data?: any` payload is kept as an optional string. The `default` branch of `getEmoji` cannot be reached by a typed level.
- `async` handlers are sequential methods: the code has no concurrency.
