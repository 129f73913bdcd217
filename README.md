# Front-lever progress tracker — verified model of the scoring and coaching core

This project models the logic of a front-lever training tracker:

- session scores and the total score;
- the training streak, in three versions: the app's, the optimized one the
  streak test exercises, and the original list-based one the benchmark
  compares against;
- the milestone ladder and the progress inside the current band;
- the deterministic daily challenge, chosen by a 32-bit string hash of the
  date;
- variation names as they are shown;
- the context snapshot and the automatic prompt sent to the coach, and the
  45-second cooldown on automatic prompts;
- the choice between asking the provider directly (when a key is
  configured) and asking the relay, with the canned-reply fallback;
- the relay endpoint itself: its CORS headers, its ladder of early answers,
  and how it maps the provider's answer to its own response.

Modelling conventions:

- Dates are integer day numbers; the day before `d` is `d - 1`.
- Score weights are exact tenths (1, 1.4, 1.7, 2, 2.4 become 10, 14, 17, 20, 24).
- `Math.round(x)` is `floor(x + 1/2)`.
- The JavaScript `| 0` truncation is `ToInt32`, written out as arithmetic
  modulo 2^32.
- Anything the code gets from the outside world is a parameter:
  - the current time;
  - the outcome of a network request;
  - the server's key;
  - the random index into the canned replies.

Modules:

- `Common`: Option, Result, `join`.
- `Scoring`: sessions, weights, scores.
- `Streaks`: the specification of a streak as a run of consecutive days.
- `AppStreak`: `calculateStreak` of app.js.
- `StreakLogic`: the streak test.
- `StreakPerf`: the benchmark.
- `Milestones`: the ladder and progress.
- `DailyChallenge`: the challenge hash.
- `Format`: `formatVariation`.
- `Coach`:
  - the context and the automatic prompt;
  - advice tiers;
  - the `App` class holding the mutable state.
- `ScoreCard`: the numbers on the score card.
- `Relay`: api/coach.js.

Where the design description and the code disagree, the model follows the
code:

- With a provider key, `fetchCoachAdvice` asks only the provider. A failure
  there is thrown, not passed on to the relay or the canned replies. Only
  without a key does it go to the relay and then to a canned reply
  (`Coach.FetchCoachAdvice`).
- `calculateStreak` in app.js sorts the distinct dates and starts at the
  latest one, not at `sessions[0].date`. The streak test and the benchmark
  start at `sessions[0].date`. `AppStreak.FirstAnchorDiffersWhenUnsorted`
  shows a list where the two disagree.
- The progress value is a percentage in [0, 100], not a fraction. At a score
  of exactly 42 it is 0, not 100 (see Findings).

## Model

| member | source | states |
|---|---|---|
| Scoring.TotalScore | app.js:165-167 | the left fold is 0 for no sessions and equals the first session's score plus the total of the rest |
| Scoring.WeightTenths | app.js:84-90 | the weight is one of the five listed weights; a variation not in the table weighs 1 |
| Scoring.Score | app.js:160-163 | the score is the nearest integer to hold time × sets × weight, halves rounded up |
| Scoring.TuckExampleScoresThirty | app.js:160-163 | a tuck hold of 10 s for 3 sets scores 30 |
| Scoring.ScoreNonNegative | app.js:160-163 | a session with non-negative hold time and sets never scores below 0 |
| Scoring.TotalScoreAppend | app.js:165-167 | the total of two concatenated lists is the sum of their totals |
| Scoring.TotalScorePrepend | app.js:305-306 | adding a session in front adds exactly its score to the total |
| Scoring.TotalScoreNonNegative | app.js:165-167 | the total is 0 for no sessions and never negative for valid sessions |
| Streaks.DatesOf | app.js:171 | `sessions.map(s => s.date)`: same length, the i-th date is the i-th session's date |
| Streaks.DateSet | app.js:171 | every session's date is in the set of dates (the converse is `Streaks.DatesOfMembers`) |
| Streaks.DatesOfMembers | app.js:171 | the mapped list of dates and the set of dates have the same members |
| Streaks.Distinct | app.js:171 | the distinct dates: same members, no repeats, first occurrence first, never longer |
| Streaks.Run | app.js:177-185 | the run ending at `d`: every day of it is a session date, and the day before it is not |
| Streaks.RunUnique | app.js:177-185 | those two facts determine the run's length uniquely |
| Streaks.Earliest | app.js:177-185 | a lower bound on all session dates, which bounds the backward walk |
| Streaks.StreakFromFirst | tests/verify_streak_logic.js:4-23 | 0 exactly for no sessions, at most the number of distinct dates, else the run ending at `sessions[0].date` |
| Streaks.ConsecutiveDaysStreak | benchmarks/streak_perf.js:52 | sessions on today, today−1, … give a streak equal to their number |
| AppStreak.Latest | app.js:171-176 | the start date after the descending sort: a member of the dates and at least every date |
| AppStreak.LatestDate | app.js:171-176 | the latest session date: a session date no earlier than any other |
| AppStreak.StreakOf | app.js:169-188 | 0 exactly for no sessions, and never more than the number of distinct dates |
| AppStreak.CalculateStreak | app.js:169-188 | the while loop counts exactly the run of consecutive days ending at the latest date |
| AppStreak.StreakDependsOnDatesOnly | app.js:169-188 | two lists with the same set of dates have the same streak |
| AppStreak.StreakIgnoresOrder | app.js:169-188 | reordering the sessions does not change the streak |
| AppStreak.StreakIgnoresRepeatedDay | app.js:171 | a second session on a day already present does not change the streak |
| AppStreak.FirstAnchorAgreesWhenNewestFirst | app.js:169-188 | when the first session is the newest, the app's streak equals the first-anchored one |
| AppStreak.FirstAnchorDiffersWhenUnsorted | tests/verify_streak_logic.js:10-11 | sessions [yesterday, today]: the first-anchored streak is 1 while the app's is 2 |
| StreakLogic.CalculateStreakOptimized | tests/verify_streak_logic.js:4-23 | the set-based loop returns the run ending at `sessions[0].date`: those days are all present and the day before is not |
| StreakLogic.SingleSessionStreak | tests/verify_streak_logic.js:48 | one session today gives 1 |
| StreakLogic.ConsecutiveStreak | tests/verify_streak_logic.js:51-55 | today, yesterday, the day before give 3 |
| StreakLogic.DuplicateDayStreak | tests/verify_streak_logic.js:58-62 | two sessions today and one yesterday give 2 |
| StreakLogic.GapStreak | tests/verify_streak_logic.js:65-68 | today and four days ago give 1 |
| StreakLogic.ComplexStreak | tests/verify_streak_logic.js:71-77 | today, yesterday twice, the day before, and four days ago give 3 |
| StreakLogic.RunScenarios | tests/verify_streak_logic.js:38-77 | the six scenarios give 0, 1, 3, 2, 1, 3 as the test expects |
| StreakPerf.GenerateSessions | benchmarks/streak_perf.js:5-20 | exactly `count` tuck sessions (10 s, 3 sets, RPE 7) dated today, today−1, … |
| StreakPerf.CalculateStreakOriginal | benchmarks/streak_perf.js:23-33 | the list-based version returns the run ending at the first distinct date, which is `sessions[0].date` |
| StreakPerf.CompareVersions | benchmarks/streak_perf.js:22-50 | the original and optimized versions return the same count on every list, 0 exactly for the empty one |
| StreakPerf.BenchmarkInput | benchmarks/streak_perf.js:52 | on the 1000 generated sessions both versions return 1000 |
| StreakPerf.GeneratedTotalScore | benchmarks/streak_perf.js:11-17 | the generated sessions score 30 each |
| Milestones.LadderStrictlyIncreasing | app.js:40-66 | five milestones with strictly increasing requirements, the last one 42 |
| Milestones.FirstAbove | app.js:217 | the first ladder index at or after `i` whose requirement exceeds the score; every requirement before it is met |
| Milestones.NextMilestone | app.js:217 | a ladder entry that is met only once all of them are (score ≥ 42), every cheaper entry being met; the last entry then |
| Milestones.PreviousRequirementOf | app.js:219-226 | 0 exactly below the first requirement; otherwise the largest requirement not above the score |
| Milestones.PreviousRequirement | app.js:219-226 | the loop with its early `break` computes the largest met requirement, or 0 |
| Milestones.ProgressRange | app.js:228 | the range is at least 1, and below 42 it is the width of the current band |
| Milestones.ProgressAsWritten | app.js:228-230 | the progress value as written always lies in [0, 100] |
| Milestones.ProgressAtFinalRequirementIsZero | app.js:228-230 | as written, the progress is 0 at a score of exactly 42 and 100 at 43 |
| Milestones.ProgressCorrected | app.js:228-230 | the corrected progress lies in [0, 100], is 100 from 42 on, and equals the written formula below 42 |
| Milestones.CorrectionOnlyAtFinalRequirement | app.js:228-230 | the corrected and written values differ exactly at 42 |
| Milestones.ProgressMonotoneWithinBand | app.js:219-230 | inside one band a higher score never shows less progress |
| ScoreCard.UpdateScoreCard | app.js:208-230 | the card shows the total, the newest hold with its formatted name (absent for no sessions), the streak, the next milestone, the previous requirement, and the progress exactly as the code computes it: in [0, 100], 0 at a total of exactly 42 and 100 above it |
| DailyChallenge.HashStep | app.js:200-201 | one step of the loop as written, `((h << 5) − h) + c` then `\| 0`, stays in the signed 32-bit range |
| DailyChallenge.Hash | app.js:198-202 | the loop's hash over the whole string stays in the signed 32-bit range (its reference is `DailyChallenge.HashIsPolynomial`) |
| DailyChallenge.ToInt32 | app.js:201 | `\| 0`: a value in the signed 32-bit range congruent to the input modulo 2^32 |
| DailyChallenge.ToInt32Congruent | app.js:200-201 | inputs congruent modulo 2^32 truncate to the same value |
| DailyChallenge.PolynomialHash | app.js:197-202 | the reference hash h := int32(31·h + code) stays in the signed 32-bit range |
| DailyChallenge.HashStepIsPolynomial | app.js:200-201 | `((h << 5) − h) + c`, truncated, equals int32(31·h + c) |
| DailyChallenge.HashIsPolynomial | app.js:198-202 | the shift-based hash of a string equals the polynomial reference hash |
| DailyChallenge.ChallengeIndex | app.js:203 | the index \|hash\| mod 7 always lies inside the catalogue |
| DailyChallenge.GetDailyChallenge | app.js:197-205 | the loop returns a catalogue entry, the one the reference hash selects, so the same date always gives the same challenge |
| DailyChallenge.PolynomialHashSnoc | app.js:199-201 | appending a character takes one more hash step |
| DailyChallenge.PrefixHash2024January | app.js:197-202 | the hash of "2024-01-0" is 534404113 |
| DailyChallenge.JanuaryDayHash | app.js:197-202 | the hash of "2024-01-0d" is −613341633 + d for d in 1..7 |
| DailyChallenge.JanuaryDayIndex | app.js:203 | the challenge index of 2024-01-0d is (9 − d) mod 7 |
| DailyChallenge.FirstWeekOf2024CoversCatalog | app.js:197-205 | 2024-01-01 … 2024-01-07 select indices 1, 0, 6, 5, 4, 3, 2: every challenge once |
| Format.FormatVariation | app.js:190-195 | split on "-", capitalize each part, join with " " equals the character-wise transformation `Spaced` from the start of a part |
| Format.JoinedPartsAreSpaced | app.js:190-195 | formatting equals replacing each "-" by a space and upper-casing the first letter of each part |
| Format.SpacedCharacters | app.js:190-195 | in that view each "-" becomes " ", each part's first letter is upper-cased, every other character is kept |
| Format.FormatVariationCharacters | app.js:190-195 | the formatted name has the input's length; position by position "-" becomes " ", a part's first letter is upper-cased, the rest is unchanged |
| Format.AdvancedTuckExample | app.js:190-195 | "advanced-tuck" is shown as "Advanced Tuck" |
| Coach.BuildContext | app.js:329-340 | the total, the newest session (none for no sessions), the six newest sessions in order, and the next milestone's title (the last title once all are met) |
| Coach.ContextAfterAddSession | app.js:305-306 | after adding a session the context shows it as latest, adds its score, and keeps it in front of the five previous newest |
| Coach.BuildAutoPrompt | app.js:401-417 | five lines: the reason, the score with the next milestone, the latest entry, the five newest sessions, the fixed request |
| Coach.AutoPromptAgreesWithContext | app.js:401-417 | the prompt and the context agree on the latest session and the milestone, and the prompt's history is the front of the context's list |
| Coach.StripTrailingSlash | app.js:377 | removes exactly one trailing "/" and leaves other strings unchanged |
| Coach.RelayEndpoint | app.js:377-378 | the base without its trailing slash followed by "/api/coach"; just "/api/coach" for an empty base or "/" |
| Coach.PlanAdviceRequest | app.js:342-392 | a direct request to the provider, with the key, model, persona, context and message, exactly when a key is set; otherwise a relay request with the message and the context |
| Coach.ResolveAdvice | app.js:371-397 | the advice fails exactly when the direct request fails; relay failure yields one of the canned replies; any advice is non-empty |
| Coach.ReplyOrDefault | app.js:393 | the reply when it is non-empty, else "Keine Antwort."; never empty |
| Coach.FetchCoachAdvice | app.js:342-399 | with a key it fails exactly when the provider fails; without a key it never fails, giving a canned reply when the relay fails; returned advice is never empty |
| Coach.App.constructor | app.js:93-102 | the loaded state with no automatic prompt yet |
| Coach.AutoPromptReply | app.js:425-431 | the automatic prompt's advice is posted, or its failure is caught and only logged; nothing is posted exactly when the direct provider fails, and a posted reply is never empty |
| Coach.App.RequestCoachUpdate | app.js:419-432 | a prompt is built exactly when 45 s have passed since the last one, and then the time is recorded; otherwise nothing changes |
| Coach.App.AddSession | app.js:305-310 | the session goes in front of the list, and an automatic prompt follows under the cooldown rule |
| Coach.App.CompleteChallenge | app.js:288-291 | today's challenge is marked done and the other days are kept |
| Coach.TwoTriggers | app.js:419-432 | two triggers 1 s apart give one prompt, 46 s apart give two |
| Relay.SetCors | api/coach.js:4-8 | the three CORS headers are set to their values and every other header is kept |
| Relay.HasMessage | api/coach.js:30-31 | a missing body reads as `{}` and carries no message; a message counts only when present and non-empty |
| Relay.SystemPrompt | api/coach.js:36-43 | the three instruction sentences and the context sentence ("keine Daten vorhanden" without context) joined by spaces |
| Relay.Decide | api/coach.js:10-59 | preflight 200 with no body; other non-POST 405; no server key 500 before the body is read; no message 400; otherwise one provider call with the key, the model, the system prompt and the message |
| Relay.Complete | api/coach.js:61-74 | a thrown error gives 500 with its detail; a response that is not OK gives 502 with the raw data; success gives 200 with the first choice's content, "" when it is missing |
| Relay.Handler | api/coach.js:10-75 | every response carries the CORS headers, its status is one of 200, 400, 405, 500, 502, and 502 only follows a provider call |
| Relay.EarlyAnswersIgnoreProvider | api/coach.js:13-34 | an early answer never depends on the provider |
| Relay.PreflightIgnoresKeyAndBody | api/coach.js:13-16 | a preflight is answered the same whatever the key and the body |
| Relay.MissingKeyBeforeMessage | api/coach.js:23-34 | a POST without a server key gets 500 whatever its body |

## Left out

- Rendering, DOM writes, event wiring and the service worker are not modelled. This covers `renderHistory`, `renderMilestones`, the challenge card, `pushMessage`, `setStatus` and the form listeners. The score-card numbers and the challenge button's state change are modelled.
- Storage is not modelled: `loadState`, `saveState`, `saveConfig` and `saveChallengeState` are I/O.
- The `App` constructor takes the loaded state as its arguments.
- Network requests are not modelled. Each one becomes an outcome parameter: `Coach.FetchOutcome` for the app and `Relay.UpstreamOutcome` for the relay. `async` scheduling is not modelled.
- `Math.random` is the parameter `pick`.
- The server's `SAFE_API_KEY` is the parameter `serverKey`, where "" means unset.
- JavaScript `Date` parsing, `setDate`, `toISOString`, time zones and daylight saving are not modelled. Dates are integer day numbers.
- IEEE-754 rounding of the fractional weights is not modelled. Weights are exact tenths.
- Scoring.Score: hold time and sets are integers. The form's number fields are not modelled, and neither are fractional or NaN values.
- The exact wording of `buildAutoPrompt` lines is not modelled. Only the data each line carries is.
- The JSON text of the context is not modelled. The relay takes it as an already serialized string.
- `Format.ToUpper` upper-cases ASCII a–z only. Non-ASCII case mapping is not modelled.
- `charCodeAt` returns UTF-16 code units. The model takes the character's code, which agrees for the ASCII date strings the app passes.
- Variation names such as "toString" or "constructor" are not modelled. In JavaScript they would read an inherited property of the weight table.
- Scoring.TotalScoreNonNegative: stated only for sessions with non-negative hold time and sets. The source does not validate them.
- Coach.App.RequestCoachUpdate: returns the prompt instead of sending it. The advice request and its `catch` (app.js:425-431) are `Coach.AutoPromptReply`, which takes the prompt as text; rendering the prompt lines to that text is not modelled.
- Relay.Complete: a provider body that parses to JSON `null` is not modelled. There `data.choices` throws and the relay answers 500, while the model's OK response always answers 200.
- The relay treats a non-string `message` or `context` value as the string it is in the model. JSON bodies of other shapes are not modelled.
- A `req.body` that is not an object is not modelled, and neither is a failure of the destructuring inside `try`.
- The direct and relay instructions carry the same three sentences (app.js:356 and api/coach.js:37-39). This equality is not proved.
- The coach chat form submit handler and the API-key dialog are not modelled. They call `fetchCoachAdvice` and save the configuration, which is modelled or is storage.
- The timing loops of the benchmark are not modelled. They measure speed.
- The benchmark's optimized streak function is not modelled separately. It is the same code as the test's and is modelled once, as `StreakLogic.CalculateStreakOptimized`.
- verify.py and verify_core.py are not part of this model. They are browser automation scripts.

## Findings

| source | as written | input that shows it | evidently intended | confidence | as-written member | corrected member |
|---|---|---|---|---|---|---|
| app.js:217-230 | at a score of exactly 42 the next milestone is the last (42) and the previous requirement is 42, so the range `0 \|\| 1` is 1 and the progress is (42 − 42)/1 = 0 % | total score 42 (all milestones just met) shows 0 % progress, while 43 shows 100 % | 100 % once every milestone is met | not executed | Milestones.ProgressAsWritten (Milestones.ProgressAtFinalRequirementIsZero) | Milestones.ProgressCorrected (Milestones.CorrectionOnlyAtFinalRequirement) |
