# Ticket-sales agents: the decision core in Dafny

This project models the decision layer of a multi-agent ticket-sales system
and proves properties of that model. The system calls fans on the phone to
sell game tickets. For each call:

- an **orchestrator** gathers a user's profile, attendance history,
  preferences and similar users from a graph store;
- it searches a game index for candidate games and deduplicates them;
- a **data analyst agent** runs three tasks: profile analysis, game matching
  and conversation insights. The agent runs each task through a **task
  harness** that tracks its status and caches completed results;
- a **call client** turns the result into a context text and an assistant
  configuration, and the call is placed and recorded.

A batch mode runs many such calls and sorts the results into successful and
failed.

Around the pipeline are three more pieces:
- a **webhook aggregator**, which keeps a per-call record (transcript,
  whether a purchase link was sent, summary) and gives a binary success
  verdict when a call ends;
- a **`start_call` tool**, which dials and resets a call's record;
- a **Model Context Protocol server**, which exposes five graph-store tools.

Modules (one per source file, plus shared ones):

| file | module | models |
|---|---|---|
| wrappers.dfy | Wrappers | `Option`, and `Outcome` for "returned a value or raised" |
| text.dfy | Text | Python string operations: `in`, `lower`, `join`, `<=`, `\s` |
| records.dfy | Records | the dictionaries passed between components, and the graph store's operations |
| base_agent.dfy | BaseAgent | tasks, results and the `Agent` class (status state machine and result cache) |
| data_analyst.dfy | DataAnalyst | segmentation, scoring and insight helpers; task dispatch |
| orchestrator.dfy | Orchestrator | query building, dedup, the staged pipeline, recording, batch |
| caller.dfy | Caller | the call-context text and the assistant configuration |
| vapi_events.dfy | VapiEvents | link detection, the per-call record table, `start_call`, the call payload |
| mcp_server.dfy | McpServer | tool registry, tool dispatch, request routing, the user-context text |

How the model stands in for Python:
- **Collaborators become function-typed values.** This covers the graph
  store, the game search, the call provider, the template renderer and the
  HTTP client.
- **Calls that may raise return `Outcome`.** Raised exceptions and their
  messages are part of the model.
- **Dictionary keys that may be missing are `Option`s.**
- **Decimal constants are in tenths.** 0.8 becomes 8 and 0.3 becomes 3.
- **Averages are compared by cross-multiplication.** "avg ≥ 4.5" is
  `2*sum >= 9*n`.

Two data-flow quirks of the source are modelled as written:
- **The pipeline passes the whole payload.** It gives the analyst's helpers
  `{"analysis": ...}`, so they never find `user_segment` or
  `engagement_level` and use their defaults.
- **The rating key differs.** The graph store returns the rating under
  `rating`, but the analyst reads `satisfaction_rating`.

## Model

| member | source | states |
|---|---|---|
| BaseAgent.NewTask | src/agents/base_agent.py:25-36 | a task built from id, type and data has priority 1 and an empty dependency list |
| BaseAgent.ErrorResult | src/agents/base_agent.py:39-51 | an ERROR result carries its error, and its data defaults to the empty dictionary |
| BaseAgent.CompletedResult | src/agents/base_agent.py:39-51 | a COMPLETED result carries its data and no error |
| BaseAgent.Agent.constructor | src/agents/base_agent.py:57-69 | a new agent is IDLE with an empty queue and an empty cache |
| BaseAgent.Agent.ExecuteTask | src/agents/base_agent.py:86-128 | status goes to PROCESSING, then to COMPLETED whenever process_task returns (even with an ERROR result) or to ERROR when it raises; only COMPLETED results enter the cache, under the task id, overwriting; a raise yields "Agent <name> failed task <id>: <msg>" and leaves the cache alone; the queue never changes |
| BaseAgent.Agent.AddTask | src/agents/base_agent.py:130-138 | the task is appended at the end of the queue; cache and status unchanged |
| BaseAgent.Agent.GetCachedResult | src/agents/base_agent.py:140-150 | a pure lookup: present exactly for cached ids, and then a COMPLETED result |
| BaseAgent.Agent.ClearCache | src/agents/base_agent.py:152-155 | the cache becomes empty; queue and status untouched |
| BaseAgent.Agent.GetStatus | src/agents/base_agent.py:157-170 | reports id, name, the status's string value, the queue length and the cache size |
| DataAnalyst.UserSegment | src/agents/data_analyst_agent.py:164-175 | each of the five segments holds exactly on its band of history length (≥10, 5-9, 2-4, <2), and below 2 entries it depends on whether teams or sports are listed |
| DataAnalyst.SegmentDependsOnlyOnLengthAndPresence | src/agents/data_analyst_agent.py:164-175 | two inputs with equal history length and equal teams-or-sports presence get the same segment |
| DataAnalyst.Dated | src/agents/data_analyst_agent.py:182 | the dated entries are history entries with a truthy attended_date, no more of them than the history |
| DataAnalyst.EngagementLevel | src/agents/data_analyst_agent.py:177-190 | empty history gives "Low"; a non-empty history without dated entries raises division by zero and nothing else does; otherwise High/Medium/Low exactly when the average rating (missing = 3) of the first five dated entries is ≥4.5, in [3.5,4.5), <3.5 |
| DataAnalyst.EngagementIgnoresLaterEntries | src/agents/data_analyst_agent.py:182-183 | once five dated entries exist, appending entries does not change the level |
| DataAnalyst.StoreRowsRateThree | src/agents/data_analyst_agent.py:183 | rows as the store returns them (rating under `rating`) sum to 3 per entry |
| DataAnalyst.StoreHistoryIsNeverEngaged | src/agents/data_analyst_agent.py:182-190 | over store rows the engagement level is never High or Medium |
| DataAnalyst.CategoriesAreDistinct | src/agents/data_analyst_agent.py:197-201 | "Team: t" names one team and never equals a "Sport: s" category |
| DataAnalyst.PreferredCategoriesExact | src/agents/data_analyst_agent.py:192-206 | a team's (sport's) category is present exactly when it is a favourite team (sport) |
| DataAnalyst.ExtractPreferredCategories | src/agents/data_analyst_agent.py:192-206 | the loops build exactly the category set |
| DataAnalyst.TicketTypes | src/agents/data_analyst_agent.py:213 | one tier per entry, "Standard" when missing |
| DataAnalyst.PremiumCount | src/agents/data_analyst_agent.py:214 | the premium count never exceeds the number of tiers |
| DataAnalyst.ModalFrom | src/agents/data_analyst_agent.py:218 | the scan returns a tier whose count is maximal |
| DataAnalyst.ModalTier | src/agents/data_analyst_agent.py:218 | the average ticket type is a tier of the history with the highest count |
| DataAnalyst.Spending | src/agents/data_analyst_agent.py:208-220 | empty history gives Unknown/Standard; otherwise premium_preference = premium/len lies in [0,1], the pattern is High-Value exactly when it exceeds 0.3, and the average type is a most frequent tier |
| DataAnalyst.LatestFrom | src/agents/data_analyst_agent.py:227 | the scan ends on an entry whose date key is largest and first among equals |
| DataAnalyst.LatestStep | src/agents/data_analyst_agent.py:227 | an entry that beats the best so far beats every earlier entry |
| DataAnalyst.LatestIndex | src/agents/data_analyst_agent.py:227 | `max` by date string picks the first entry with the lexicographically largest date (missing = "") |
| DataAnalyst.LastActivityOf | src/agents/data_analyst_agent.py:222-232 | "No prior activity" exactly for an empty history; otherwise the title, date and satisfaction (defaults Unknown/Unknown/3) of the first entry with the largest date, as `max` picks it |
| DataAnalyst.ContactPreferencesFor | src/agents/data_analyst_agent.py:234-240 | phone / evening / friendly whatever the profile |
| DataAnalyst.RiskFactors | src/agents/data_analyst_agent.py:242-254 | "No purchase history" exactly for an empty history; "Recent low satisfaction" exactly when the mean of the first three ratings is below 3; never both |
| DataAnalyst.StoreHistoryNeverLowSatisfaction | src/agents/data_analyst_agent.py:249-252 | over store rows the low-satisfaction flag never appears |
| DataAnalyst.AnalyzeUser | src/agents/data_analyst_agent.py:49-63 | the analysis raises exactly when the engagement level does; otherwise all seven keys are the helpers' answers for the user data: segment, level, preferred categories, spending pattern, last activity, contact preferences and risk factors |
| DataAnalyst.GameMatchScore | src/agents/data_analyst_agent.py:256-265 | the score is 0.8 (capped at 1.0) for every game and analysis |
| DataAnalyst.MatchScoreIgnoresInputs | src/agents/data_analyst_agent.py:256-265 | any two games and analyses get equal scores |
| DataAnalyst.MatchReasons | src/agents/data_analyst_agent.py:267-277 | every game gets the same two fixed reasons |
| DataAnalyst.Priority | src/agents/data_analyst_agent.py:104 | high exactly above 0.8, medium exactly in (0.6, 0.8], low otherwise |
| DataAnalyst.MatchOf | src/agents/data_analyst_agent.py:96-105 | each entry wraps its game with score 0.8, priority "medium" and the fixed reasons |
| DataAnalyst.MatchAll | src/agents/data_analyst_agent.py:96-105 | the loop's entries correspond one-to-one, in order, to the games |
| DataAnalyst.InsertByScore | src/agents/data_analyst_agent.py:108 | insertion adds exactly one entry (as a multiset) |
| DataAnalyst.SortByScore | src/agents/data_analyst_agent.py:108 | the sort is a permutation |
| DataAnalyst.InsertKeepsSorted | src/agents/data_analyst_agent.py:108 | insertion into a non-increasing list keeps it non-increasing |
| DataAnalyst.SortIsSorted | src/agents/data_analyst_agent.py:108 | the sort's output is ordered by non-increasing score |
| DataAnalyst.InsertIsStable | src/agents/data_analyst_agent.py:108 | insertion keeps the order of the entries of each score |
| DataAnalyst.SortIsStable | src/agents/data_analyst_agent.py:108 | the sort is stable: entries of each score keep their input order |
| DataAnalyst.SortOfEqualScores | src/agents/data_analyst_agent.py:108 | with all scores equal the sort is the identity |
| DataAnalyst.RankMatchesShape | src/agents/data_analyst_agent.py:96-114 | the ranked list has min(5, games) entries, is sorted, and is the first games in input order |
| DataAnalyst.BuildMatches | src/agents/data_analyst_agent.py:96-105 | the appending loop yields one entry per game, in input order |
| DataAnalyst.MatchGamesToUser | src/agents/data_analyst_agent.py:90-114 | the loop-and-sort method returns the ranked list: min(5, games) entries, sorted, each wrapping the input game at its position with priority "medium" |
| DataAnalyst.OpeningApproach | src/agents/data_analyst_agent.py:279-288 | the VIP and Regular openings occur exactly for those segments; any other segment, or none, gets the introductory opening |
| DataAnalyst.TalkingPoints | src/agents/data_analyst_agent.py:290-301 | two fixed points, preceded by "Highlight the <title or 'upcoming game'>" exactly when there are matches |
| DataAnalyst.PredictedObjections | src/agents/data_analyst_agent.py:303-314 | the price objection answered by stressing value and payment options, then the schedule objection answered by offering other dates |
| DataAnalyst.Offers | src/agents/data_analyst_agent.py:316-328 | one offer per game among the first two, in order |
| DataAnalyst.SuggestOffers | src/agents/data_analyst_agent.py:316-328 | the appending loop builds exactly those offers |
| DataAnalyst.ConversationStyle | src/agents/data_analyst_agent.py:330-339 | enthusiastic exactly for High; friendly exactly for Medium or a missing level; educational and patient for any other level |
| DataAnalyst.ConversationInsights | src/agents/data_analyst_agent.py:135-147 | all seven insight fields are the helpers applied to the looked-up segment, level, analysis and matches |
| DataAnalyst.NestedAnalysisUsesDefaults | src/agents/data_analyst_agent.py:279-339 | given a whole result payload, the opening approach and conversation style are always the defaults |
| Records.SegmentKey | src/agents/data_analyst_agent.py:281 | `user_segment` is found only in a flat analysis, never in a nested payload |
| Records.EngagementKey | src/agents/data_analyst_agent.py:332 | `engagement_level` is found only in a flat analysis |
| DataAnalyst.AnalyzeUserProfile | src/agents/data_analyst_agent.py:39-78 | ERROR (division by zero) exactly when the history is non-empty and has no dated entry; otherwise COMPLETED with the user's analysis dictionary as its payload |
| DataAnalyst.MatchGamesResult | src/agents/data_analyst_agent.py:80-123 | always COMPLETED with the ranked top-five matches of the available games (default []) |
| DataAnalyst.InsightsResult | src/agents/data_analyst_agent.py:125-162 | always COMPLETED, carrying the conversation insights of the task's analysis (default: a payload with no keys) and matched games (default []) |
| DataAnalyst.ProcessTask | src/agents/data_analyst_agent.py:22-37 | never raises; results carry the task id; COMPLETED results have a truthy payload and no error, ERROR results an error and empty data |
| DataAnalyst.ProcessTaskRouting | src/agents/data_analyst_agent.py:25-37 | an unknown type gives ERROR "Unknown task type: <type>"; matching and insights always complete |
| Orchestrator.GatherUserData | src/agents/orchestrator.py:113-134 | None exactly when the profile is missing or a store call raises; otherwise profile, history (limit 20), preferences and similar users (limit 5) |
| Orchestrator.SearchQueries | src/agents/orchestrator.py:140-154 | "games <team>" for the first 3 teams, then "<sport> games tickets" for the first 2 sports, then "upcoming games schedule" |
| Orchestrator.SearchQueryCount | src/agents/orchestrator.py:147-154 | between 1 and 6 queries |
| Orchestrator.BuildSearchQueries | src/agents/orchestrator.py:136-154 | the appending loops build exactly those queries |
| Orchestrator.SearchAllFromSearches | src/agents/orchestrator.py:156-160 | every gathered game was returned by the search for some query |
| Orchestrator.SearchAllStopsAtRaise | src/agents/orchestrator.py:156-168 | one raising search makes the whole gathering raise (and so yield []) |
| Orchestrator.Ids | src/agents/orchestrator.py:163 | the ids of the games, position by position |
| Orchestrator.FirstIndex | src/agents/orchestrator.py:163 | the position of an id's first occurrence holds that id |
| Orchestrator.FirstIndexIsFirst | src/agents/orchestrator.py:163 | no earlier position holds the id |
| Orchestrator.FirstIndexOfPrefix | src/agents/orchestrator.py:163 | first occurrences inside a prefix are first occurrences of the whole list |
| Orchestrator.LastWithId | src/agents/orchestrator.py:163 | the game kept for an id is its last occurrence |
| Orchestrator.IndexById | src/agents/orchestrator.py:163 | the dict comprehension has pairwise distinct keys, exactly the ids of the games |
| Orchestrator.IndexHoldsLast | src/agents/orchestrator.py:163 | each key maps to the last game with that id |
| Orchestrator.KeysOrdered | src/agents/orchestrator.py:163 | keys appear in the order of their first occurrence |
| Orchestrator.IndexKeepsFirstOrder | src/agents/orchestrator.py:163 | the whole key list is ordered by first occurrence |
| Orchestrator.IndexValues | src/agents/orchestrator.py:164 | the values are listed in key order |
| Orchestrator.MergeGamesProperties | src/agents/orchestrator.py:162-164 | at most 10 games, distinct ids, ordered by first occurrence, each the last occurrence of its id, all from the input |
| Orchestrator.MergedAreKeys | src/agents/orchestrator.py:162-164 | the merged list follows the key list position by position |
| Orchestrator.MergeGamesKeepsEveryIdUnderCap | src/agents/orchestrator.py:162-164 | with at most 10 distinct ids no id is lost |
| Orchestrator.GameDataFromSearches | src/agents/orchestrator.py:136-168 | at most 10 candidate games, each returned by some search |
| Orchestrator.StageData | src/agents/orchestrator.py:179-185 | a stage yields data exactly when the result is COMPLETED |
| Orchestrator.PromoItems | src/agents/orchestrator.py:246-249 | the call context receives the matched-game wrappers, in order |
| Orchestrator.DetailsOf | src/agents/orchestrator.py:274-280 | the recorded details are the call id, games promoted, segment and context size of the call result |
| Orchestrator.AnalysisStageOutcome | src/agents/orchestrator.py:170-189 | the analysis stage passes exactly when the history is empty or has a dated entry, and then carries the user's segment |
| Orchestrator.MatchStageOutcome | src/agents/orchestrator.py:191-214 | the match stage always passes with the ranked candidates, even when there are none |
| Orchestrator.InsightsStageOutcome | src/agents/orchestrator.py:216-239 | the insights stage always passes, with the default opening approach and style |
| Orchestrator.CallStage | src/agents/orchestrator.py:84-106 | once reached the run succeeds, places exactly one call with the pipeline's assistant and records one "sales_call" interaction |
| Orchestrator.Stopped | src/agents/orchestrator.py:62-82 | a stopped run reports its stage's error and has no effects |
| Orchestrator.InsightsStage | src/agents/orchestrator.py:79-82 | the insights stage executes the third task after the first two |
| Orchestrator.InsightsStageShortCircuits | src/agents/orchestrator.py:79-106 | from the insights stage on: a failure has no effects and a fixed error; a success has exactly the call and the record |
| Orchestrator.MatchStageShortCircuits | src/agents/orchestrator.py:74-106 | the same from the match stage on |
| Orchestrator.AnalysisStageShortCircuits | src/agents/orchestrator.py:69-106 | the same from the analysis stage on |
| Orchestrator.SalesCallShortCircuits | src/agents/orchestrator.py:60-106 | every run: a failure has no call and no record and one of the four fixed errors; a success has the call to the given phone and then the record |
| Orchestrator.MatchStageSucceeds | src/agents/orchestrator.py:74-77 | with the analyst, a run that reaches the match stage succeeds |
| Orchestrator.AnalysisStageResult | src/agents/orchestrator.py:69-72 | with the analyst, a run from the analysis stage succeeds exactly when the history is empty or has a dated entry, and otherwise fails with "Failed to analyze user profile" |
| Orchestrator.StageOutcomes | src/agents/orchestrator.py:60-106 | with the analyst: "Could not retrieve data for user <id>" exactly when gathering fails; then success exactly when engagement can be computed; the match and insights errors never occur |
| Orchestrator.SuccessfulRunSummary | src/agents/orchestrator.py:97-106 | a successful run reports the user's segment, at most 5 games recommended, and call_initiated exactly when the provider returned a call with an id |
| Orchestrator.CacheAfterAppend | src/agents/base_agent.py:107-109 | caching over two task lists in a row equals caching over their concatenation |
| Orchestrator.CacheAfterGrowsByTaskIds | src/agents/base_agent.py:107-109 | running tasks only adds their ids to the cache and removes none |
| Orchestrator.BatchRuns | src/agents/orchestrator.py:304-310 | one result per user |
| Orchestrator.BatchRunsPointwise | src/agents/orchestrator.py:304-310 | result i is the pipeline run for user i |
| Orchestrator.Successes | src/agents/orchestrator.py:316-328 | the successful list holds only successful results from the batch |
| Orchestrator.PartitionCount | src/agents/orchestrator.py:313-339 | successful + failed = number of results |
| Orchestrator.SuccessesComplete | src/agents/orchestrator.py:316-323 | every successful result is listed as successful |
| Orchestrator.FailuresComplete | src/agents/orchestrator.py:316-328 | every failed result i is listed with user_list[i]'s user id and its error |
| Orchestrator.FailuresNameUsers | src/agents/orchestrator.py:318-328 | every failure names a user of the batch |
| Orchestrator.BatchPartition | src/agents/orchestrator.py:313-340 | each index lands in exactly one list, failures carry their user's id, and the counts add up |
| Orchestrator.SplitResults | src/agents/orchestrator.py:313-328 | the sorting loop builds exactly the successful and failed lists, whose lengths add up |
| Orchestrator.AgentOrchestrator.constructor | src/agents/orchestrator.py:25-39 | the orchestrator holds its collaborators and a fresh, idle analyst |
| Orchestrator.AgentOrchestrator.GatherGameData | src/agents/orchestrator.py:136-168 | the queries, searches and dedup give the candidate games |
| Orchestrator.AgentOrchestrator.RunStage | src/agents/orchestrator.py:179-185 | a stage returns the result's data exactly when COMPLETED, caching it in the analyst |
| Orchestrator.AgentOrchestrator.MakeSalesCall | src/agents/orchestrator.py:241-269 | builds the context from the user data and matched games, the assistant from the context, and places one call |
| Orchestrator.AgentOrchestrator.RecordInteraction | src/agents/orchestrator.py:271-289 | records one "sales_call" interaction with the call's details |
| Orchestrator.AgentOrchestrator.ProcessSalesCall | src/agents/orchestrator.py:47-111 | the method's result, its calls and records, and the analyst's cache are those of the staged pipeline run |
| Orchestrator.AgentOrchestrator.BatchProcessCalls | src/agents/orchestrator.py:291-340 | the lists are the partition of the per-user runs and total = successful + failed; the calls placed and interactions recorded are the runs' effects, user by user, and the analyst's cache is that of running their tasks in order |
| Caller.PromoProperties | src/vapi/caller.py:93 | a matched-game wrapper has no top-level `properties`, so every field falls back to its default |
| Caller.HeaderLines | src/vapi/caller.py:49-57 | the context opens with the banner and 30 "=" signs |
| Caller.FooterLines | src/vapi/caller.py:99-110 | the context closes with the guidelines and the "Remember" line |
| Caller.ProfileLines | src/vapi/caller.py:59-65 | Name, Email and Phone lines (defaults Customer, N/A, N/A) exactly when a profile exists |
| Caller.PreferenceLines | src/vapi/caller.py:67-74 | the PREFERENCES section exactly when preferences are truthy, with joined teams and sports |
| Caller.AttendanceEntries | src/vapi/caller.py:81-85 | one attendance line per shown entry, in order |
| Caller.GameEntries | src/vapi/caller.py:92-97 | one game line per shown game, in order |
| Caller.AttendanceLines | src/vapi/caller.py:76-85 | nothing for an empty history; otherwise the heading and the first min(3, n) entries in order |
| Caller.GameLines | src/vapi/caller.py:87-97 | nothing for no games; otherwise the heading and the first min(2, n) games in order |
| Caller.Take3 | src/vapi/caller.py:81 | the first min(3, n) entries |
| Caller.Take2 | src/vapi/caller.py:92 | the first min(2, n) games |
| Caller.AppendAttendance | src/vapi/caller.py:76-85 | the loop appends exactly the attendance section |
| Caller.AppendGames | src/vapi/caller.py:87-97 | the loop appends exactly the games section |
| Caller.CreateCallContext | src/vapi/caller.py:37-112 | the method builds the newline-joined context lines |
| Caller.ContextFrame | src/vapi/caller.py:49-112 | the context starts with the banner and rule and ends with the "Remember" line |
| Caller.ContextLineCount | src/vapi/caller.py:49-112 | 17 fixed lines plus 3 (profile), 4 (preferences), 2+min(3,n) (history), 2+min(2,m) (games) |
| Caller.SectionHeadings | src/vapi/caller.py:67-97 | the PREFERENCES heading appears exactly when preferences are truthy, the GAMES heading exactly when there are games |
| Caller.PreferenceSectionHeading | src/vapi/caller.py:67-74 | the preferences section holds its heading exactly when shown, and never the games heading |
| Caller.GameSectionHeading | src/vapi/caller.py:87-97 | the games section holds its heading exactly when there are games, and never the preferences heading |
| Caller.FixedLinesHaveNoHeading | src/vapi/caller.py:49-110 | no fixed line is a section heading |
| Caller.ProfileLinesHaveNoHeading | src/vapi/caller.py:59-65 | no profile line is a section heading |
| Caller.AttendanceLinesHaveNoHeading | src/vapi/caller.py:76-85 | no attendance line is a section heading |
| Caller.MatchedItemsShowDefaults | src/vapi/caller.py:92-97 | through the pipeline every game line reads "- Game on TBD at TBD" |
| Caller.CreateAssistant | src/vapi/caller.py:114-148 | the system message is the context; recording on, 300 s maximum, temperature 0.7, 300 tokens, fixed end phrases |
| Caller.AssistantDependsOnlyOnContext | src/vapi/caller.py:124-146 | two configurations differ only in the system message |
| VapiEvents.ExtractLink | vapi_integration.py:70-71 | a link needs at least 8 characters, so "" gives false |
| VapiEvents.ExtractLinkMeansLink | vapi_integration.py:70-71 | the scan is true exactly when some offset starts "http://" or "https://" followed by a non-whitespace character |
| VapiEvents.CallIdOf | vapi_integration.py:85 | the call id is data.id, else data.callId, else body.callId (skipping empty ones), else "unknown" |
| VapiEvents.AnyMessageLinkMeansSome | vapi_integration.py:97-102 | the messages set link_sent exactly when some dictionary message's content holds a link |
| VapiEvents.UpdateRecordEffect | vapi_integration.py:87-107 | a non-empty transcript replaces (not appends), an empty one keeps; link_sent becomes true exactly on a link in the transcript or a message, and never goes back; the summary changes only to a non-empty one |
| VapiEvents.ApplyEventFrame | vapi_integration.py:85-87 | an event touches only its call's record; a new id starts from the initial record |
| VapiEvents.ApplyEventIdempotent | vapi_integration.py:85-107 | applying the same event twice equals applying it once |
| VapiEvents.ReplayedVerdict | vapi_integration.py:110-112 | a replayed terminal event gives the same verdict |
| VapiEvents.LinkSentStays | vapi_integration.py:93-102 | across any sequence of webhook events, a record with link_sent stays present and link_sent stays true |
| VapiEvents.CallStateStore.constructor | vapi_integration.py:63 | the call-state table starts empty |
| VapiEvents.CallStateStore.HandleEvent | vapi_integration.py:73-119 | the field-by-field updates give the event's record update; the verdict (link sent and the transcript mentions "ticket" or "single-game") is given exactly on terminal events; the answer is always ok |
| VapiEvents.CallStateStore.ApplyTranscript | vapi_integration.py:90-94 | the transcript step of the handler |
| VapiEvents.CallStateStore.MarkMessageLinks | vapi_integration.py:97-102 | the message loop sets link_sent exactly when some message holds a link |
| VapiEvents.CallStateStore.ApplySummary | vapi_integration.py:105-107 | the summary step of the handler |
| VapiEvents.CallStateStore.StartCall | vapi_integration.py:217-256 | bad JSON returns "Invalid JSON for variables_json: <msg>" and changes nothing; a failing post raises and changes nothing; otherwise the new call's record is reset and "Dialing <n>. Vapi call id: <id>" is returned |
| VapiEvents.StartThenEvent | vapi_integration.py:253-254 | after start_call a call's first event starts from a record with no link and no success |
| VapiEvents.WithDefaults | vapi_integration.py:238-240 | the three defaults are added only where missing, and no other key changes |
| VapiEvents.BuildInlineAssistant | vapi_integration.py:130-170 | the inline assistant carries the prompts, the webhook URL and the fixed settings (assistant first, temperature 0.6, 50 tokens, "Goodbye.") |
| VapiEvents.InlineAssistantDependsOnlyOnPrompts | vapi_integration.py:138-170 | two inline configurations differ only in the prompts |
| VapiEvents.StartPayload | vapi_integration.py:184-189 | the assistant is the id exactly when a non-empty id is given, otherwise the inline configuration; the phone number and webhook URL are passed through |
| McpServer.RegisteredTools | src/mcp/server.py:35-126 | exactly five tools in order, each requiring user_id |
| McpServer.RegistryMatchesDispatch | src/mcp/server.py:139-171 | the dispatcher recognises exactly the registered tool names |
| McpServer.RegisteredNamesDistinct | src/mcp/server.py:35-126 | the registered names are pairwise distinct |
| McpServer.Required | src/mcp/server.py:141 | `arguments[key]` on a null object raises the subscript error and on a missing key raises KeyError, whose message is the quoted key |
| McpServer.HandleToolCall | src/mcp/server.py:128-175 | an unknown or missing tool name gives "Unknown tool: <name>"; success only for a registered tool given a user_id |
| McpServer.ReadToolCalls | src/mcp/server.py:139-160 | given a user_id, each read tool answers with the envelope of its own store call, and a given limit is the one the store receives (10 and 5 only when absent) |
| McpServer.MissingUserIdFails | src/mcp/server.py:139-175 | every tool reports a missing user_id as "'user_id'" |
| McpServer.DefaultLimits | src/mcp/server.py:144-160 | missing limits become 10 for game history and 5 for similar users; store errors become failure envelopes |
| McpServer.RecordInteractionCall | src/mcp/server.py:162-168 | the three arguments are required in order, and the store's answer is wrapped as recorded |
| McpServer.NullArgumentsFail | src/mcp/server.py:139-175 | a null arguments object fails every tool with the subscript error |
| McpServer.NewServer | src/mcp/server.py:29-33 | a new server holds the registered tools |
| McpServer.HandleRequest | src/mcp/server.py:177-223 | tools/list returns the tools; tools/call returns the tool call's envelope (or the error of a null params); any other method gives "Unknown method: <m>" |
| McpServer.ListingOfNewServer | src/mcp/server.py:191-207 | a new server lists the five tools in registry order; a call with no params names no tool |
| McpServer.ToolLines | src/mcp/server.py:267-268 | one "- <name>: <description>" line per tool, in order |
| McpServer.ContextLines | src/mcp/server.py:260-275 | 8 fixed lines plus one per tool; the first names the user; tool lines start at the fifth |
| McpServer.GetContextForUser | src/mcp/server.py:247-277 | the loop builds exactly the newline-joined context lines |
| McpServer.ContextFrame | src/mcp/server.py:260-277 | the context starts with "User Context for <id>:" and ends with the closing advice |

## Left out

- **Database drivers.** The Cypher and near-text queries are not modelled:
  the graph store and the game index are function values.
- **Network I/O.** `make_call`, `_monitor_call`, `get_call_status`,
  `end_call`, the HTTP post of `start_vapi_call` and its headers are all
  function values. The provider's answer is `CallData`: the client turns
  every failure into an `{"error": ...}` map, so it never raises.
- **Jinja template rendering.** The renderer is a function value of
  `CallSettings`.
- **FastAPI, uvicorn, threading and `main`.** The webhook is a method call.
- **Debug printing.** The handler returns its verdict instead of printing it.
- **The duplicated `ping` and `start_call` registrations.** The first
  `start_call` has no body, and `ping` has no logic to model.
- **The undefined globals `TO_NUMBER`, `PUBLIC_URL` and
  `VAPI_ASSISTANT_ID`.** They are fields of `CallSettings`.
- **`asyncio.gather`.** The batch runs its calls one after another, and the
  `return_exceptions` branch cannot occur because `process_sales_call`
  never raises.
- **The `run` loop, `get_system_status` and the `active_tasks` and
  `completed_tasks` bookkeeping.** None of it feeds back into the pipeline.
- **Task ids and timestamps.** Ids are parameters (`TaskIds`, `ids`). The
  interaction timestamp and `execution_time` are clock readings.
- **Configuration, scripts, server lifecycle and logging.** `start`/`stop`
  and configuration reads are plumbing.
- **The `except` branches of `_make_sales_call`, `_match_games_to_user`,
  `_generate_conversation_insights` and `process_sales_call`.** Nothing
  inside them raises in the model, so those branches cannot be reached. The
  `except` of `_analyze_user_profile` is modelled: its one reachable raise,
  the division by zero of `_calculate_engagement_level`, becomes an ERROR
  result.
- **Batch entries without `user_id` or `phone_number`.** `CallRequest` always
  has both, so the KeyError such an entry raises before any call is placed
  is not modelled.
- **Dictionary keys present with a null value.** They are collapsed with
  missing keys into `None`. The source would sometimes raise `TypeError` on
  them.
- **Tool arguments.** The `details` argument is the interaction record the
  store accepts, not an arbitrary JSON object. `json.dumps` of a tool result
  is not modelled, and the envelope itself is returned.
- **Parsed `start_call` variables.** The variables are a string map, so a
  JSON value that is not an object is not modelled.
- **`str.lower`.** It is exact only for characters that lower to ASCII
  letters. Python also lowers other scripts.
- DataAnalyst.ExtractPreferredCategories: returns the category set; the order of the list Python builds from that set is unspecified and not modelled.
- DataAnalyst.ModalTier: states that the result is one of the most frequent tiers; which one Python's set iteration order picks among ties is not modelled.
