# Insider-threat detection: the decision pipeline in Dafny

This project models the risk-and-behaviour decision pipeline of an
insider-threat detection backend (an Express/Mongoose service). Activity-log
entries and user records are immutable datatypes. Database collections are
sequences and queries are filters over them. Every operation is a pure
function of its inputs. The clock values (`now` in milliseconds, the local
hour, the weekday, today's midnight, the instant a week ago) are parameters.

The modules follow the services and routes of the program:

| module | file | models |
|---|---|---|
| `Basics` | basics.dfy | `Option`, counting and filtering over sequences, sums |
| `Text` | text.dfy | ASCII lower-casing, substring search, trimming, splitting on a character |
| `Domain` | domain.dfy | roles, log entries (`models/ActivityLog.js`), users and risk notes (`models/User.js`), the clock |
| `RiskEngine` | risk_engine.dfy | the additive rule-based risk scorer (`services/riskEngine.js`) |
| `BehaviorMonitor` | behavior_monitor.dfy | work hours, download quotas, weekly and risk-score blocking, consequences (`services/behaviorMonitor.js`) |
| `Features` | features.dfy | feature extraction for the analyser: histograms, action frequency, access patterns |
| `AIResponse` | ai_response.dfy | the tolerant `RISK_SCORE / ANALYSIS / RECOMMENDATIONS` reply parser |
| `ThreatDetector` | threat_detector.dfy | fallback scoring, risk banding, the availability state machine, the weekly run |
| `Aggregates` | aggregates.dfy | risk buckets, per-role breakdown, the top-10 ranking (shared by the monthly trends and `/insights`) |
| `Scheduler` | scheduler.dfy | job registration, health check, daily alert, the monthly run and its report, the weekly job |
| `AIRoutes` | ai_routes.dfy | `PUT /thresholds`, `POST /scheduler/:action`, `GET /history` paging, `GET /insights`, `POST /trigger-weekly` |
| `UserRoutes` | user_routes.dfy | `GET /download-files`, `POST /unblock/:userId`, `GET /all-users`, `GET /logs/:userId` |

The external language-model service is an oracle. For the k-th analysed
user, `Oracle.reply(k)` is either a completion or a failure with an error
code and an HTTP status. `Oracle.queryFails(k)` says whether that user's
log query throws. Failing saves and failing queries are boolean
parameters. The mailer catches its own errors and reports them by its
return value, so a failing e-mail never changes what a caller does.

Four behaviours of the code that a reader might not expect, and that the
model keeps:

- Twelve downloads in the last hour and nothing else score 3 + 8 = 11.
  That is below the suspicion threshold of 12, so the result is not
  suspicious (`RiskEngine.TwelveDownloadsNotSuspicious`).
- `User.riskNotes` is declared as a list of strings (models/User.js:14).
  The behaviour monitor pushes objects with a reason, a timestamp and an
  action into it (services/behaviorMonitor.js:177-193). The model keeps
  the notes as records (`Domain.RiskNote`). How the database would cast
  them is not modelled.
- The raw risk-engine score (an integer from 0 to 34) is stored as the log
  entry's `riskScore`. It is also passed to the behaviour monitor, whose
  thresholds expect a value in [0, 1] (routes/userRoutes.js:242-256). The
  model keeps this unit mismatch. Its consequence is stated in
  `UserRoutes.RawScoreBlocksTeamLeads`: a Manager or an Analyst within
  their download quota is blocked by a download whose raw score is 1 or
  more. Over quota the route answers 429 before any evaluation.
- The weekly run blocks users of every role, Admin included. Only the
  behaviour monitor exempts Admin (`ThreatDetector.AdminBlockedByWeekly`
  against `BehaviorMonitor.AdminNeverBlocked`).

## Model

| member | source | states |
|---|---|---|
| RiskEngine.Score | services/riskEngine.js:12-66 | the score is a sum of fixed weights: never negative, at most 2+3+1+8+5+15 = 34 |
| RiskEngine.Evaluate | services/riskEngine.js:3-73 | an empty log gives score 0, not suspicious, no reasons; the score lies in [0, 34]; suspicious exactly when the score is at least 12 |
| RiskEngine.ReasonPerTrigger | services/riskEngine.js:12-66 | one reason per triggered heuristic, and the score is 0 exactly when no heuristic triggers |
| RiskEngine.HeuristicConditions | services/riskEngine.js:13-31 | late-hours reason iff hour < 6 or hour > 22; high-activity reason iff more than 10 entries in the last hour; new-IP reason iff the IP is unseen and more than 3 distinct IPs are known |
| RiskEngine.ReasonFlags | services/riskEngine.js:13-31 | each of the first three reasons appears exactly when its condition holds |
| RiskEngine.DownloadsMonotone | services/riskEngine.js:34-46 | more recent downloads never lower the score |
| RiskEngine.ScoreMonotone | services/riskEngine.js:12-66 | the score is monotone in every signal at once |
| RiskEngine.StaleEntryIgnored | services/riskEngine.js:20-57 | an entry older than an hour from a known IP changes nothing: only last-hour entries feed the activity, download and keyword heuristics |
| RiskEngine.RecentDownloadRaises | services/riskEngine.js:34-46 | appending a last-hour download from a known IP never lowers the score |
| RiskEngine.TwelveDownloadsNotSuspicious | services/riskEngine.js:20-46 | twelve last-hour downloads in daytime from a known IP score 11 with reasons high activity and excessive downloads, and are not suspicious |
| RiskEngine.Scan | services/riskEngine.js:8-57 | the loop over the log computes the same signals as the reference definition `Observe` |
| RiskEngine.EvaluateRisk | services/riskEngine.js:3-73 | the imperative evaluation agrees with `Evaluate` on every input |
| BehaviorMonitor.WorkHoursAreDaytime | services/behaviorMonitor.js:25-32 | work hours iff weekday 1 to 5 and 9 <= hour < 17; work hours are never late hours for the risk engine |
| BehaviorMonitor.CheckDownloadLimit | services/behaviorMonitor.js:49-62 | outside work hours exactly (false, 0, 0); inside, today's downloads against the role's quota, and exceeded iff current >= limit |
| BehaviorMonitor.QuotaTable | services/behaviorMonitor.js:11-15 | quotas Manager 10, Analyst 8, Intern 5, and Admin falls back to 5 |
| BehaviorMonitor.QuotaMonotone | services/behaviorMonitor.js:35-62 | logging more entries never clears an exceeded quota; a download logged today raises the count by one |
| BehaviorMonitor.ShouldBlockForWeeklyViolations | services/behaviorMonitor.js:65-85 | never for Admin; otherwise iff at least 3 violations in the last week |
| BehaviorMonitor.WeeklyLimitBoundary | services/behaviorMonitor.js:80-85 | three violations block a non-Admin, two do not |
| BehaviorMonitor.ShouldBlockForRiskScore | services/behaviorMonitor.js:88-93 | never for Admin; otherwise iff the score reaches the role's threshold |
| BehaviorMonitor.RiskThresholds | services/behaviorMonitor.js:16-20 | thresholds Manager 0.8, Analyst 0.8, Intern 1.5, and Admin is exempt |
| BehaviorMonitor.EvaluateBehavior | services/behaviorMonitor.js:96-170 | block iff a weekly or risk-score block fires; action block iff blocking; notify iff score > 0.7 or an exceeded download quota; the reason prefers the risk-score reason over the weekly one, and sets the high-risk reason only when none is set yet; a block always raises an alert |
| BehaviorMonitor.ApplyConsequences | services/behaviorMonitor.js:173-196 | identity is kept; a block sets isBlocked and blockedAt and appends one note with the evaluation's action; notify-only appends one monitor note; otherwise the user is unchanged |
| BehaviorMonitor.AdminNeverBlocked | services/behaviorMonitor.js:80-93 | an unblocked Admin stays unblocked after evaluation and consequences |
| BehaviorMonitor.BlockNoteSaysBlock | services/behaviorMonitor.js:174-184 | after a block the user is blocked and the last note's action is block |
| Features.Histogram | services/aiThreatDetector.js:100-111 | one bin per key value, and each bin counts the entries with that key |
| Features.HistogramTotal | services/aiThreatDetector.js:100-111 | the bins add up to the number of entries |
| Features.TimeDistributionTotals | services/aiThreatDetector.js:100-111 | the 24 hourly and 7 daily bins each add up to the number of entries |
| Features.Bump | services/aiThreatDetector.js:114-121 | counting one action adds one to that action's count and leaves every other count alone |
| Features.ActionFrequency | services/aiThreatDetector.js:114-121 | each lower-cased action's count is the number of entries with it, and the counts add up to the entry count |
| Features.PairCount | services/aiThreatDetector.js:124-146 | a counter over consecutive pairs is at most n - 1, and 0 for one entry |
| Features.AnalyzeAccessPatterns | services/aiThreatDetector.js:124-146 | the loop computes the reference patterns; each counter is at most n - 1; mixedActions is the number of distinct actions |
| Features.FirstEntryNotUnusual | services/aiThreatDetector.js:132-137 | the first entry never counts as an unusual hour, whatever it is |
| Features.RiskScores | services/aiThreatDetector.js:83 | the per-entry scores, in order |
| Features.PrepareAnalysisData | services/aiThreatDetector.js:73-97 | work + after-hours activity = total; downloads <= total; both histograms and the action counts add up to the total; one score per entry |
| AIResponse.ParseFloat | services/aiThreatDetector.js:287 | a run of digits and dots reads as a number unless it starts with a dot not followed by a digit; a number read is never negative |
| AIResponse.ParseFloatDecimal | services/aiThreatDetector.js:287 | digits, a dot and digits read as their decimal value; a second dot ends the number |
| AIResponse.ParseRiskScore | services/aiThreatDetector.js:284-287 | with no `risk_score:` label in any case the score defaults to 0.5 |
| AIResponse.ParseAnalysis | services/aiThreatDetector.js:285-288 | with no `analysis:` label the text is "Analysis parsing failed" |
| AIResponse.ParseRecommendations | services/aiThreatDetector.js:286-291 | never empty; with no `recommendations:` label it is ["Manual review required"] |
| AIResponse.ParseAIAnalysis | services/aiThreatDetector.js:282-299 | no content gives the three defaults; each missing label gives its own default; recommendations are never empty; a parsed score is never negative and never clamped |
| AIResponse.ParseAIAnalysisOf | services/aiThreatDetector.js:282-299 | the three fields are parsed independently of each other |
| AIResponse.BulletItemsOfLines | services/aiThreatDetector.js:290-291 | `- ` lines read back as their items with the prefix stripped |
| AIResponse.ParseRendered | services/aiThreatDetector.js:282-299 | a reply written in the expected layout parses back to its score, analysis and recommendations |
| AIResponse.RenderedFields | services/aiThreatDetector.js:284-291 | each of the three fields of a well-formed reply reads back exactly |
| ThreatDetector.Level | services/aiThreatDetector.js:355-357 | High iff score >= highRisk; Medium iff mediumRisk <= score < highRisk; Low otherwise |
| ThreatDetector.RunChecks | services/aiThreatDetector.js:308-344 | the fallback's weight, recommendations and warnings come from exactly the rules that fire |
| ThreatDetector.FallbackAnalysis | services/aiThreatDetector.js:302-368 | score = min(fired weights + 0.3 x mean entry score, 1.0); level by banding; recommendations never empty; one warning per fired rule |
| ThreatDetector.WeightSumNonNegative | services/aiThreatDetector.js:308-344 | the fired rules' weights never sum below zero |
| ThreatDetector.FallbackInRange | services/aiThreatDetector.js:346-352 | with non-negative entry scores the fallback score lies in [0, 1] |
| ThreatDetector.MediumYetNormal | services/aiThreatDetector.js:355-362 | a fallback score of 0.6 is banded Medium but described with the normal-behaviour text |
| ThreatDetector.InitialState | services/aiThreatDetector.js:10-25 | a client is built and the service is available iff a key is configured and is not the placeholder |
| ThreatDetector.CheckAIAvailability | services/aiThreatDetector.js:371-387 | re-enables iff a key is set, no client exists and construction succeeds; otherwise nothing changes and the current flag is answered |
| ThreatDetector.PlaceholderReenabled | services/aiThreatDetector.js:10-25 | the placeholder key starts unavailable, yet an explicit availability check re-enables it |
| ThreatDetector.ClassifyError | services/aiThreatDetector.js:186-238 | quota code or status 429 gives quotaExceeded; invalid key gives apiKeyError; rate limit without 429 gives rateLimited; anything else gives aiError; only the first two disable the service |
| ThreatDetector.FallbackResult | services/aiThreatDetector.js:186-238 | an error answer carries the fallback score and the error's flag |
| ThreatDetector.GetAIAnalysis | services/aiThreatDetector.js:149-240 | unavailable: the fallback, no call, no change; a completion is parsed; a failure gives the fallback, disabling the service iff the error disables it |
| ThreatDetector.ErrorsFallBack | services/aiThreatDetector.js:149-240 | whenever unavailable or failing, the answer is rule-based with the fallback score |
| ThreatDetector.QuotaSticky | services/aiThreatDetector.js:188-199 | after a quota error every later request is answered by the fallback without a call |
| ThreatDetector.AnalyzeUserBehavior | services/aiThreatDetector.js:43-70 | a failing query gives 0.5 and manual review; an empty window gives score 0 and no recommendations; otherwise the analysis of the window's features |
| ThreatDetector.WeeklyAction | services/aiThreatDetector.js:424-436 | block iff score >= highRisk; monitor iff mediumRisk <= score < highRisk |
| ThreatDetector.WeeklyActionIsLevel | services/aiThreatDetector.js:424-436 | the weekly action agrees with the risk level: High blocks, Medium monitors, Low does nothing |
| ThreatDetector.AnalyzeAll | services/aiThreatDetector.js:410-422 | one result row per user, in order |
| ThreatDetector.OffStaysOff | services/aiThreatDetector.js:151-154 | once unavailable, a whole run makes no call and stays unavailable |
| ThreatDetector.FlagRows | services/aiThreatDetector.js:424-436 | one item per flagged row; every item comes from a row and carries that row's decision; every row with a decision has its item; the block and monitor counts match the rows decided so |
| ThreatDetector.ApplyItem | services/aiThreatDetector.js:457-490 | identity, name and e-mail kept; a block sets the flag and the block time to now; a monitor leaves flag and block time alone; one note with the item's action, stamped now, is appended |
| ThreatDetector.ApplyWeeklyActions | services/aiThreatDetector.js:456-504 | exactly the items whose save succeeds are saved and alerted, each with its action applied |
| ThreatDetector.AdminBlockedByWeekly | services/aiThreatDetector.js:459-469 | a flagged Admin is blocked: the weekly run has no role exemption |
| ThreatDetector.WeeklySummaryOf | services/aiThreatDetector.js:507-534 | blocked and monitored are the block and monitor item counts, adding up to the total suspicious and the number of violations; the average times n is the score sum and the share times n is 100 times the flagged count; both are absent iff nothing was analysed |
| ThreatDetector.AnalyzeActive | services/aiThreatDetector.js:405-421 | the i-th row is for the i-th non-blocked user of the store, one row each; a coherent state stays coherent |
| ThreatDetector.WeeklyFlagging | services/aiThreatDetector.js:405-440 | for each non-blocked user: flagged for blocking iff the score reaches highRisk, for monitoring iff it lies in [mediumRisk, highRisk); a block whose save succeeds is among the saved records |
| ThreatDetector.WeeklyRowFlagged | services/aiThreatDetector.js:424-436 | a row of the weekly flag list is flagged for blocking iff its score reaches highRisk, for monitoring iff it lies in [mediumRisk, highRisk) |
| ThreatDetector.PerformWeeklyAnalysis | services/aiThreatDetector.js:401-453 | no report iff the user query fails, and then nothing changes; the i-th row is for the i-th non-blocked user; the flagged list is exactly the rows the thresholds flag; the summary counts match the classification; the saved records and alerts are those of applying the actions to the flagged users |
| Aggregates.Distribute | services/scheduler.js:279-285 | low < 0.4 <= medium < 0.7 <= high, and the buckets add up to n |
| Aggregates.Record | services/scheduler.js:287-295 | recording one observation adds one to its role's count and its score to its role's total, and nothing else |
| Aggregates.Tally | services/scheduler.js:287-295 | per role: the count and total score of its observations; roles listed once; counts add up to n |
| Aggregates.WithAverage | services/scheduler.js:297-301 | averageScore x count = totalScore |
| Aggregates.RoleBreakdown | services/scheduler.js:287-301 | each listed role carries its tallied count (at least 1), its total and its average |
| Aggregates.RolePresent | services/scheduler.js:287-295 | a role is listed iff some observation has it |
| Aggregates.SortByRisk | routes/aiAnalysisRoutes.js:236 | the result is descending by risk and a permutation of the input |
| Aggregates.SortStable | routes/aiAnalysisRoutes.js:236 | entries with equal risk keep their relative order |
| Aggregates.TopRiskUsers | routes/aiAnalysisRoutes.js:236-237 | at most 10 entries, descending, drawn from the input, and none left out ranks above one kept |
| Aggregates.PrefixDominates | routes/aiAnalysisRoutes.js:237 | a prefix of a descending list dominates everything after it |
| Scheduler.Initialize | services/scheduler.js:12-34 | a second call changes nothing; a successful first call registers exactly the three jobs; a failure keeps the jobs registered so far and stays uninitialised |
| Scheduler.InitializeIdempotent | services/scheduler.js:13-16 | initialising twice is the same as initialising once |
| Scheduler.StopAll | services/scheduler.js:364-372 | no jobs are left and the scheduler is uninitialised |
| Scheduler.StopThenStart | services/scheduler.js:364-372 | stopping and then starting registers the three jobs at their schedules again |
| Scheduler.ConfigChecks | services/scheduler.js:173-194 | healthy iff the database is connected and the API key and mail credentials are set; every issue found is critical |
| Scheduler.PerformHealthCheck | services/scheduler.js:165-223 | healthy iff no critical issue; no recent logs and more than 10 blocked users are warnings that leave health alone; a failing query is critical |
| Scheduler.ConfigChecksIssues | services/scheduler.js:173-194 | the database, key and mail issues are each listed exactly when their check fails |
| Scheduler.QueryChecks | services/scheduler.js:196-220 | only a query failure changes health; the status stays consistent |
| Scheduler.QueryWarnings | services/scheduler.js:196-220 | the no-recent-logs warning is listed iff the log query answers zero; the blocked-users warning iff both queries answer and the count exceeds 10 |
| Scheduler.WarningsStayHealthy | services/scheduler.js:196-214 | with a sound configuration and working queries the check is healthy whatever the logs hold |
| Scheduler.PlaceholderPassesHealthCheck | services/scheduler.js:182-187 | the placeholder key passes the health check although the analyser treats it as unconfigured |
| Scheduler.DailyAlert | services/scheduler.js:99-118 | an alert is raised iff the check is unhealthy, and then it has critical issues |
| Scheduler.DailyHealthJob | services/scheduler.js:90-130 | the daily job alerts iff the health check has a critical issue |
| Scheduler.MonthlyAction | services/scheduler.js:246-251 | block iff score >= 0.8; monitor iff 0.7 <= score < 0.8; nothing below 0.7, whatever the configured thresholds |
| Scheduler.MonthlyDiffersFromWeekly | services/scheduler.js:246-251 | a score of 0.65 is monitored weekly but ignored monthly |
| Scheduler.AnalyzeTrends | services/scheduler.js:266-304 | empty input gives zero trends; the buckets are the shared risk buckets and add up to n; the role breakdown is the shared per-role tally, whose counts add up to n; the average is the mean score |
| Scheduler.Average | services/scheduler.js:276-277 | average x n = sum |
| Scheduler.RoleCountsTotal | services/scheduler.js:287-295 | the per-role counts add up to the number of rows |
| Scheduler.PerformMonthlyAnalysis | services/scheduler.js:226-263 | the i-th row is for the i-th non-blocked user; the flagged list is exactly the rows with score >= 0.7, blocked iff >= 0.8; trends over all rows; no user changes |
| Scheduler.MonthlyFlagging | services/scheduler.js:229-252 | for each non-blocked user: flagged for blocking iff the score is at least 0.8, for monitoring iff it lies in [0.7, 0.8), otherwise not flagged |
| Scheduler.GenerateMonthlyReport | services/scheduler.js:307-335 | blocked and monitored are the block and monitor counts of the flagged list, adding up to the total suspicious and the number of violations; the trends are passed through |
| Scheduler.MonthlyJob | services/scheduler.js:133-162 | a report exists iff the users query succeeds; its total, blocked and monitored counts and trends are those of the run's flagged users, and the counts balance |
| Scheduler.WeeklyJob | services/scheduler.js:37-87 | exactly one failure alert iff the user query fails, never rethrown; a failing summary mail is not a failure |
| AIRoutes.UpdateThresholds | routes/aiAnalysisRoutes.js:254-300 | any provided value outside [0, 1] rejects the whole update, reported in field order, leaving every threshold unchanged; otherwise exactly the provided fields change |
| AIRoutes.ThresholdStatus | routes/aiAnalysisRoutes.js:259-291 | 200 iff every provided value is in [0, 1], else 400 |
| AIRoutes.UpdateIdempotent | routes/aiAnalysisRoutes.js:281-283 | applying the same update twice equals applying it once |
| AIRoutes.UpdateKeepsUnitRange | routes/aiAnalysisRoutes.js:259-283 | thresholds in [0, 1] stay in [0, 1] |
| AIRoutes.NoOrderingEnforced | routes/aiAnalysisRoutes.js:259-283 | highRisk 0.3 is accepted below mediumRisk 0.6, after which no score is Medium |
| AIRoutes.SchedulerAction | routes/aiAnalysisRoutes.js:326-356 | start initialises (500 if that fails), stop stops everything, any other action is 400 and changes nothing |
| AIRoutes.StartStopEffect | routes/aiAnalysisRoutes.js:326-347 | a successful start leaves all three jobs registered; stop leaves none |
| AIRoutes.CeilDiv | routes/aiAnalysisRoutes.js:173 | the rounded-up quotient: the smallest c with a <= c x b for b > 0, mirrored for b < 0 |
| AIRoutes.Window | routes/aiAnalysisRoutes.js:154-160 | skip entries, then take limit of them; limit 0 takes all, a negative limit takes its absolute value |
| AIRoutes.History | routes/aiAnalysisRoutes.js:139-185 | a negative skip is an error; the page holds the window at (page - 1) x limit; pages is the ceiling of total / limit, and absent for limit 0 |
| AIRoutes.EveryEntryOnOnePage | routes/aiAnalysisRoutes.js:154-173 | every entry appears on exactly one page, and that page is within the page count |
| AIRoutes.Rankings | routes/aiAnalysisRoutes.js:220-226 | one ranking entry per analysed user with its id, role and score |
| AIRoutes.Assemble | routes/aiAnalysisRoutes.js:205-251 | buckets and role counts add up to the number of users; the role breakdown and buckets are the shared aggregates; the top list is descending, at most 10 long and drawn from the rankings |
| AIRoutes.GetInsights | routes/aiAnalysisRoutes.js:188-251 | a failing users query is a 500; otherwise the non-blocked users are analysed and counted, then assembled with the health check |
| AIRoutes.InsightsAgreeWithTrends | routes/aiAnalysisRoutes.js:205-234 | the insights' buckets and role breakdown equal the monthly trends' over the same rows |
| AIRoutes.TriggerWeekly | routes/aiAnalysisRoutes.js:66-90 | runs the weekly analysis; 500 iff the user query fails, 200 otherwise with the run's counts: users analysed, flagged, blocked and monitored, which balance |
| UserRoutes.Lookup | routes/userRoutes.js:186 | the found user has the id; nothing is found iff no user has it |
| UserRoutes.DownloadFiles | routes/userRoutes.js:214-284 | blocked: 403 and nothing happens; quota exceeded: 429, one entry at 0.8 logged, no evaluation; otherwise log, evaluate on the new log, apply consequences, then 403 iff blocked, else success with count current + 1 |
| UserRoutes.DownloadFilesAsWritten | routes/userRoutes.js:214-284 | as written, every request from an unblocked user fails with 500 and changes nothing |
| UserRoutes.LoggerBindingBreaksDownloads | routes/userRoutes.js:3 | as written an unblocked user always gets 500; corrected they get 429, 403 or 200 |
| UserRoutes.DownloadCountIsLogged | routes/userRoutes.js:245-275 | the reported download count is today's count in the updated log |
| UserRoutes.DownloadedMentionsDownload | routes/userRoutes.js:242-256 | the logged action mentions a download, so the evaluation checks the quota |
| UserRoutes.RawScoreBlocksTeamLeads | routes/userRoutes.js:242-256 | a raw score of 1 or more blocks a Manager or Analyst on a download |
| UserRoutes.DownloadNeverBlocksAdmin | routes/userRoutes.js:242-278 | a download never blocks an Admin |
| UserRoutes.Cleared | routes/userRoutes.js:194-197 | unblocking keeps identity and role, clears the block and the notes |
| UserRoutes.Unblock | routes/userRoutes.js:184-205 | unknown id: 404; a Manager on a non-team user: 403; otherwise 200 with the cleared user, always for an Admin |
| UserRoutes.UnblockIdempotent | routes/userRoutes.js:194-197 | unblocking an unblocked user again yields the same record |
| UserRoutes.UnblockAsWritten | routes/userRoutes.js:194-204 | as written the unblock is saved but answered with 500 |
| UserRoutes.LoggerBindingMisreportsUnblock | routes/userRoutes.js:197-203 | as written an Admin's unblock takes effect and is reported as a failure |
| UserRoutes.AllUsers | routes/userRoutes.js:27-57 | Admin sees every full record; a Manager sees full records of Analysts and Interns only; Analysts and Interns see every user's basic fields |
| UserRoutes.AllUsersAsWritten | routes/userRoutes.js:27-57 | as written every admitted request fails with 500, because the log write at line 51 throws after the query |
| UserRoutes.LoggerBindingBreaksListing | routes/userRoutes.js:3 | as written an Admin gets 500; with the intended binding they get every record |
| UserRoutes.ManagerSeesWholeTeam | routes/userRoutes.js:37-42 | a Manager's list holds every Analyst and Intern |
| UserRoutes.ViewLogs | routes/userRoutes.js:60-98 | Admin sees any user's logs; a Manager only a team member's; an Analyst or Intern only their own; refusals carry the route's messages |
| UserRoutes.ViewLogsAsWritten | routes/userRoutes.js:60-98 | as written the two 403 refusals stand unchanged and every permitted view fails with 500 at the log write of line 92; no log is ever shown |
| UserRoutes.LoggerBindingHidesLogs | routes/userRoutes.js:3 | as written an Admin, Analyst or Intern viewing their own log gets 500; with the intended binding they get it |
| UserRoutes.LogVisibility | routes/userRoutes.js:71-90 | seeing someone else's logs requires being Admin, or a Manager looking at an existing team member |

## Left out

- Database access (Mongoose `find`, `countDocuments`, `save`, `populate`) is modelled as filters over sequences. A save returns the updated record; how the collection is updated afterwards is not modelled.
- Query result order (newest first, or by timestamp) is not modelled. The risk engine and the feature extraction work on the sequence as given.
- Time conversion (`Date`, `getHours`, `getDay`, "today at midnight", `setDate`) is left out: hour, weekday, midnight, a week ago and the analysis window start are parameters.
- cron expressions, fire times and the job status report (`getStatus`, `/status`, `/scheduler/config`) are left out; the jobs are registered with their cron strings only.
- The mail service (`utils/emailService.js`) is left out; alerts are returned as values. Its senders catch every error and return false (utils/emailService.js:67-69 and 134-136), so no caller sees a mail failure and the model has none.
- The language-model client and the prompt text are left out; the reply is an oracle.
- Floating-point arithmetic and `toFixed` strings are left out; scores are reals, and the percentage strings of the summaries are not produced.
- Features.ActionFrequency: keys are lower-cased in ASCII only. JavaScript's `toLowerCase` (services/aiThreatDetector.js:117) also folds non-ASCII letters, so "Unblocked User Émile" and "Unblocked User émile" share one key in the program and get two in the model. Full Unicode case mapping is not modelled. The download tests (services/aiThreatDetector.js:86, services/behaviorMonitor.js:105) are unaffected, since no non-ASCII letter lower-cases into "download". The reply parser's case-insensitive label matches are unaffected too, since they use regular expressions without the `u` flag, which match the ASCII labels only in ASCII case variants.
- ThreatDetector.ScoreOf: a reply whose score text is only dots parses to NaN in the program. The model reads it as 0.0. The two agree on the `>=` decisions (weekly and monthly actions, risk bands) whenever the thresholds are positive, since both fail every such test. They disagree elsewhere:
  - in the averages, where NaN spreads;
  - in the risk buckets of `Aggregates.Distribute` and `AIRoutes.Assemble`: the buckets test `< 0.4` and `< 0.7` (services/scheduler.js:282-284, routes/aiAnalysisRoutes.js:208-210), so NaN fails both and lands in `high`, where 0.0 lands in `low`;
  - in the ranking sort, whose comparator returns NaN for such a user.
- The authentication middleware (`middleware/authMiddleware.js`) is left out. It rejects a blocked user with 403 before any handler runs, and it admits only the listed roles. The handlers are modelled as if reached directly, and `UserRoutes.Unblock` requires an Admin or Manager actor for that reason.
- `logActivity`'s own error handling is left out: a failed log write is swallowed there, and the model treats every log write as succeeding.
- Saves on the download path are modelled as succeeding.
- Non-numeric query and body values (`parseInt` of text, `NaN` thresholds) are not modelled: page, limit and thresholds are numbers.
- Routes that only read or forward data are left out: `/all-logs`, `/my-logs`, `/flagged-users`, `/total-logs-count`, `/logs`, `/view-reports`, `/manage-users`, `/behavior-summary`, `/send-weekly-summary`, `/test`, `/status`, `/analyze-user/:userId`, `/trigger-health-check` and the mock routes. `getBehaviorSummary` and `getSystemStatus` are aggregation queries and are left out too.
- `controllers/userController.js`, `utils/logger.js`, `app.js`, `setup-env.js` and `test-ai-integration.js` are not part of this model: registration, login, console output and bootstrap.
- AIResponse.ParseRiskScore: the contract states the default only. The found case is stated for replies in the expected layout by `AIResponse.RenderedFields`.
- AIResponse.ParseAnalysis: the contract states the default only. The found case is stated by `AIResponse.RenderedFields`.
- AIResponse.ParseRecommendations: the contract states the default and non-emptiness. The found case is stated by `AIResponse.RenderedFields`.
- AIRoutes.GetInsights: each user's window starts at a `since` parameter, standing for the clock moved back by `days` calendar days.
- ThreatDetector.AnalyzeAll: the contract states the row shape only. The content of each row is the per-user analysis, stated by `ThreatDetector.AnalyzeUserBehavior`.

## Findings

| source | as written | input that shows it | evidently intended | confidence | as-written member | corrected member |
|---|---|---|---|---|---|---|
| routes/userRoutes.js:3 | `logActivity` is bound to the whole logger module (utils/logger.js:48 exports `{ logActivity, logger }`), so every call to it throws a TypeError that the handler turns into a 500 | any download request from an unblocked user; an Admin unblocking an existing user; any `GET /all-users`; any permitted `GET /logs/:userId` (an Analyst viewing their own log, say) | bind the function itself, as the other modules do, so the handler logs and carries on | high, not executed | UserRoutes.DownloadFilesAsWritten, UserRoutes.UnblockAsWritten, UserRoutes.AllUsersAsWritten, UserRoutes.ViewLogsAsWritten (shown by UserRoutes.LoggerBindingBreaksDownloads, UserRoutes.LoggerBindingMisreportsUnblock, UserRoutes.LoggerBindingBreaksListing and UserRoutes.LoggerBindingHidesLogs) | UserRoutes.DownloadFiles, UserRoutes.Unblock, UserRoutes.AllUsers, UserRoutes.ViewLogs |
