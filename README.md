# TruNorth career-coaching core, modelled in Dafny

TruNorth is a career-coaching web application. It has a FastAPI backend and a React frontend. A user answers a questionnaire and talks to an AI coach. They then explore ranked career recommendations, save or dismiss them, and work through a plan of microsteps. A journey row tracks their milestones.

This project models the rule-bearing core of that system and proves properties of the model. The core covers:

- **Journey** (`journey.dfy`, module `Journey`): the journey row as a class. One update assigns the flags the caller sent. The progression rules then re-derive the milestones, the current stage and the progress percentage.
- **Recommendations** (`ranking.dfy`, `ledger.dfy`, `growth.dfy`, `numbers.dfy`, `search_terms.dfy`, `dedup.dfy`, `industry.dfy`, `salary.dfy`, `explanation.dfy`, `card.dfy`):
  - the ranking walk that drops candidates already seen, the bounded widening, the score clamp and the rescaling into [0.72, 0.96];
  - the `(user, career)` action ledger with its save/unsave toggle;
  - the growth and percentage strings, the Adzuna search terms, the industry tag and the salary range;
  - the fallback explanation and the card merge.
- **AI confidence** (`confidence.dfy`): the per-milestone heuristic scores and the weighted percentage over completed milestones.
- **External data** (`external.dfy`, `adzuna.dfy`): the feature and credential guards, occupation filtering, skill ranking with a cap, salary rows and the trend arrow.
- **Microsteps** (`microsteps.dfy`): status edits on nested steps and ministeps, the cascade to ministeps, and the reflection chat.
- **Questionnaire and final data** (`questionnaire.dfy`, `final_data.dfy`, `loaders.dfy`):
  - the answer upserts and the forward-only progress row;
  - the two required-question checks;
  - the final JSON and its create/update/skip policy;
  - the question and chat lookup tables.
- **Smaller rule sets**:
  - feedback (`feedback.dfy`) and chat history (`chat_history.dfy`);
  - the profile text (`user_profile.dfy`) and the reset codes with bcrypt's input (`auth.dfy`);
  - admin review and audit (`admin.dfy`);
  - recommendation route authorisation (`recommendation_routes.dfy`);
  - the coach routes (`coach_routes.dfy`).
- **Frontend pages**:
  - Explore Matches (`explore_matches.dfy`) and the career card (`career_path_card.dfy`);
  - Microsteps (`microsteps_page.dfy`), the coach chat (`coach_chat.dfy`) and the questionnaire page (`questionnaire_page.dfy`);
  - the sidebar locks (`sidebar.dfy`), one-time-code entry (`verify_code.dfy`) and the new-password checks (`set_new_password.dfy`).

`common.dfy` holds the shared `Wrappers` (Option, Result and the HTTP error kinds), `Text` (ASCII string helpers), `Json` (decoded JSON values with Python truthiness) and `Rounding`. `ordering.dfy` holds stable sorting by a key.

State that the source updates in place is a Dafny `class` whose methods carry `modifies` clauses. Examples are the journey row, the ledger, the questionnaire store, the microstep plan, the connection list and the form and page states. The methods' `ensures` clauses relate the new state to the old one, most of them through a specification function of the old state, and lemmas prove the source's promises about those functions. Pure rules are functions. Where the source loops, the model loops too, with the invariants the proof needs.

Three behaviours of the code are easy to miss, and the model keeps them:
- **Journey flags can fall.** `JourneyStateUpdate` (`backend/app/api/schemas/journey_schemas.py:34-46`) accepts `coach_completed`, `matches_completed`, `action_completed` and `launch_completed` as `false`. `apply_journey_update` assigns every field sent (`backend/app/services/journey_service.py:43-46`), and the progression rules only ever raise flags. An update can therefore lower these flags (`Journey.OnlyPayloadLowers`), and `discovery` can revert (`Journey.DiscoveryCanRevert`).
- **Saving does not upsert.** `(user_id, career_profile_id)` is unique in the action table (`backend/app/models/user_recommendation.py:48-50`). Dismiss and explore overwrite the existing row. Saving deletes an existing favorite row and otherwise inserts a new one (`backend/app/services/recommendation_service.py:1399-1416`), so it inserts a second row when a dismiss or explore row already exists (Finding 2).
- **The confidence score is not stored.** `compute_ai_confidence` sets `ai_confidence_score` and `ai_confidence_breakdown` on the journey row. Neither is a column of `UserJourneyState`, so nothing is written (see `Confidence.ComputeAiConfidence` under "Left out").

## Model

| member | source | states |
|---|---|---|
| NumberText.UnsignedAt | backend/app/services/recommendation_service.py:146 | `\d+(?:\.\d+)?` anchored at the start matches exactly when the text starts with a digit, and the match is a prefix of the text |
| NumberText.NumberAt | backend/app/services/recommendation_service.py:146 | the signed pattern anchored at the start yields a well-formed number whose text is a prefix of the input |
| NumberText.Search | backend/app/services/recommendation_service.py:146 | `re.search`: the match is at the leftmost position where the pattern matches, none matches before it, and None means none matches anywhere |
| NumberText.FirstNumber | frontend/src/components/CareerPathCard.tsx:62-63 | the matched number, when there is one, is well formed (digits, optional fraction) |
| NumberText.NatTextMatches | backend/app/services/recommendation_service.py:146 | the decimal text of a natural number matches as that whole number, with that value |
| NumberText.NegTextMatches | backend/app/services/recommendation_service.py:146 | "-" followed by the digits of n matches as the signed number -n when "-" is allowed |
| NumberText.NoNumberWithoutDigits | backend/app/services/recommendation_service.py:546 | a text without digits holds no match anywhere |
| GrowthText.PercentFromText | backend/app/services/recommendation_service.py:145-164 | a number is found exactly when the text holds a `-?\d+(\.\d+)?` match; its magnitude is the match's, and it is negative exactly when the text starts with "-" or the arrow was "↓" (zero stays zero) |
| GrowthText.PercentFromString | backend/app/services/recommendation_service.py:134-164 | None and blank text give None; otherwise the arrow is taken off and the text after it is read as above |
| GrowthText.PercentOfNatText | backend/app/services/recommendation_service.py:134-164 | reading back `str(n)` of a natural number gives n |
| GrowthText.PercentOfNegText | backend/app/services/recommendation_service.py:134-164 | reading back `str(-n)` gives -n |
| GrowthText.FormatPercent | backend/app/services/recommendation_service.py:513-517 | the one-decimal text of a rounded value, with a trailing ".0" dropped, is non-empty and trimmed |
| GrowthText.WithoutKeeps | backend/app/services/recommendation_service.py:555 | `replace("%", "")`: never longer, no "%" left, every other character kept |
| GrowthText.SpecialWord | backend/app/services/recommendation_service.py:554-557 | `float()` of a stripped lower-case text without digits: "inf", "+inf", "infinity", "+infinity" read +inf, "-inf" and "-infinity" -inf, "nan" with or without a sign NaN, anything else raises the ValueError that gives no number |
| GrowthText.SpecialFloat | backend/app/services/recommendation_service.py:554-557 | `float()` of a text without digits gives only non-finite values, case and surrounding white space aside |
| GrowthText.ArrowFor | backend/app/services/recommendation_service.py:560-563 | a positive number or +inf gives "↑", a negative one or -inf "↓", and 0 or NaN keeps the arrow given |
| GrowthText.AbsGrowth | backend/app/services/recommendation_service.py:566 | Python `abs`: a finite number's size, +inf for either infinity, NaN for NaN |
| GrowthText.FormatGrowth | backend/app/services/recommendation_service.py:513-517 | `_format_percent` of the number: FormatPercent of a finite value, "inf" for +inf, "nan" for NaN; never empty and trimmed |
| GrowthText.GrowthNumber | backend/app/services/recommendation_service.py:546-557 | the value of the first `-?\d+(\.\d+)?` match; without one, the non-finite value `float()` reads from the text with its "%" removed, else 0 (an empty text or a ValueError) |
| GrowthText.GrowthHead | backend/app/services/recommendation_service.py:540-566 | the head is an arrow character, a space and a non-empty size; the arrow is the one `GrowthArrow` picks from the number read |
| GrowthText.GrowthArrow | backend/app/services/recommendation_service.py:539-563 | the arrow written is always one of "↑", "↓" and "→" |
| GrowthText.HeadSize | backend/app/services/recommendation_service.py:558-566 | the size after the arrow and space: the one-decimal size of a finite number, "inf" for either infinity, "nan" for NaN |
| GrowthText.NormalizeGrowthTrend | backend/app/services/recommendation_service.py:529-567 | None or blank gives "→ 0% change (12 mo)"; a text holding both "%" and "change" is returned stripped; every result is non-empty |
| GrowthText.NormalizedShape | backend/app/services/recommendation_service.py:540-567 | a value without both "%" and "change" becomes exactly arrow, a space, the printed size and "% change (12 mo)": FormatPercent of a finite number's size, "inf" for either infinity, "nan" for NaN; "↑" for a positive number or +inf, "↓" for a negative one or -inf, the given arrow (else "→") for 0 and NaN |
| GrowthText.ShapeOf | backend/app/services/recommendation_service.py:558-567 | for any number and given arrow: up for a positive number or +inf, down for a negative one or -inf, the given arrow for 0 and NaN; the size text of each kind |
| GrowthText.WordGrowth | backend/app/services/recommendation_service.py:540-567 | a trimmed lower-case word without digits, "%" or a leading arrow becomes the arrow of what `float()` reads from it and its printed size, "→ 0" when `float()` refuses it |
| GrowthText.InfGrowthUp | backend/app/services/recommendation_service.py:529-567 | "inf" normalises to "↑ inf% change (12 mo)" |
| GrowthText.NegInfGrowthDown | backend/app/services/recommendation_service.py:529-567 | "-inf" normalises to "↓ inf% change (12 mo)" |
| GrowthText.NaNGrowthFlat | backend/app/services/recommendation_service.py:529-567 | "nan" normalises to "→ nan% change (12 mo)": NaN is neither positive nor negative |
| GrowthText.FormatZero | backend/app/services/recommendation_service.py:513-517 | `_format_percent(0.0)` is "0" |
| GrowthText.WordGrowthZero | backend/app/services/recommendation_service.py:529-567 | a digit-free text `float()` refuses, such as "n/a", normalises to "→ 0% change (12 mo)" |
| GrowthText.NormalizeIdempotent | backend/app/services/recommendation_service.py:529-567 | normalising an already normalised growth string returns it unchanged |
| GrowthText.RewrittenIsHead | backend/app/services/recommendation_service.py:536-567 | a non-empty value without both "%" and "change" becomes its head followed by "% change (12 mo)" |
| GrowthText.HeadArrow | backend/app/services/recommendation_service.py:564-567 | a rewritten head never starts with white space |
| GrowthText.FitEight | backend/app/services/recommendation_service.py:583-592 | the shortened text is at most 8 characters |
| GrowthText.PercentTextAsWritten | backend/app/services/recommendation_service.py:579-581 | the number kept as written (`rstrip("0").rstrip(".") or "0"`) is non-empty |
| GrowthText.ShortenGrowthTrendAsWritten | backend/app/services/recommendation_service.py:570-592 | None exactly for a missing or blank value; otherwise at most 8 characters |
| GrowthText.ShortenGrowthTrend | backend/app/services/recommendation_service.py:570-592 | the corrected shortening: None exactly for a missing or blank value, at most 8 characters, whole digits kept |
| GrowthText.FractionZerosKeepValue | backend/app/services/recommendation_service.py:581 | dropping trailing zeros of the fraction digits keeps the fraction's value |
| GrowthText.TrimFractionKeepsValue | backend/app/services/recommendation_service.py:581 | the corrected trim keeps the value of the number |
| GrowthText.WholeTrailingZeroLost | backend/app/services/recommendation_service.py:581 | as written, a whole number ending in 0 comes out shorter than its text; corrected, it is kept whole |
| GrowthText.ShortenTenPercent | backend/app/services/recommendation_service.py:579-581 | for "↑ 10%" the number 10 is kept as "1" as written and as "10" when corrected |
| IndustryTag.DigitsOf | backend/app/services/recommendation_service.py:100 | keeps only digits, never lengthening the code |
| IndustryTag.FirstKeyword | backend/app/services/recommendation_service.py:108-120 | a label is returned only when some keyword is contained in the lower-cased title and no earlier keyword (in the map's order) is; None when none is |
| IndustryTag.InferIndustryTag | backend/app/services/recommendation_service.py:98-122 | the SOC sector when the first two digits name one; else, for a non-empty title, the sector the first matching keyword names; else "General Professional Services"; always a known label |
| IndustryTag.KeywordOrderDecides | backend/app/services/recommendation_service.py:108-120 | without a SOC code, "data software" is tagged Technology & Computing: the keyword list's order decides, not the order of words in the title |
| SalaryRange.SalaryFromDict | backend/app/services/recommendation_service.py:182-193 | a range exactly when one of min, max, median coerces to a number; the currency is `currency or unit or "USD"` |
| SalaryRange.MeanBetween | backend/app/services/recommendation_service.py:201 | a mean of values between lo and hi lies between them |
| SalaryRange.SalaryFromNumbers | backend/app/services/recommendation_service.py:200-202 | min and max are members of the list and bound every element, and the rounded mean lies between them |
| SalaryRange.RangeOf | backend/app/services/recommendation_service.py:197-202 | a range exactly for a non-empty list of numbers, with min <= median <= max, in USD |
| SalaryRange.NormalizeSalaryRange | backend/app/services/recommendation_service.py:168-222 | falsy input gives None; a dict gives SalaryFromDict of its fields; a list gives the range of its numeric items; a string is read by SalaryFromString; any other value gives None |
| SalaryRange.ListRangeOrdered | backend/app/services/recommendation_service.py:196-202 | a list gives a range exactly when it has numeric items, and that range is ordered and in USD |
| SalaryRange.SalaryFromString | backend/app/services/recommendation_service.py:204-220 | a blank, "none", "null" or "nan" text (after strip, any case) gives None; any other text gives SalaryFromDict when it parses as a JSON object, else the range of its digit runs, which is then ordered and in USD |
| SalaryRange.SalaryFromText | backend/app/services/recommendation_service.py:208-220 | a text parsing as a JSON object is read as that dict; anything else by its digit runs, ordered and in USD when there are any |
| Explanation.ExplanationFallback | backend/app/services/recommendation_service.py:426-450 | the fallback explanation is exactly two "• " bullets joined by one line break, the first from the skills or themes, the second from the coach context or skills |
| Explanation.FallbackTips | backend/app/services/recommendation_service.py:1074-1080 | two tips, the fixed first one, and the networking tip exactly when the stripped trend starts with "↑" |
| CareerCard.Stringify | backend/app/services/recommendation_service.py:1109 | `[str(item) for item in items if item]` never lengthens the list |
| CareerCard.NormalizeSkills | backend/app/services/recommendation_service.py:1066-1071 | at most eight skills, none for anything but a list |
| CareerCard.StoredGrowth | backend/app/services/recommendation_service.py:1098-1103 | a stored trend gives a growth text exactly when present; an arrow-led one is expanded with " change (12 mo)" |
| CareerCard.DemandGrowth | backend/app/services/recommendation_service.py:1117-1123 | the demand indicator gives a growth text exactly when present; an arrow-led one is kept as it is |
| CareerCard.UserLabel | backend/app/services/recommendation_service.py:1147-1150 | no action reads "no_action", "favorite" reads "saved", anything else is kept; never "favorite" or empty |
| CareerCard.CardGrowth | backend/app/services/recommendation_service.py:1095-1125 | the recommendation's trend first, then the demand indicator, then "→ 0%"; never empty |
| CareerCard.CardTips | backend/app/services/recommendation_service.py:1107-1129 | the stored truthy tips (two at most), else the two fallback tips for the growth text |
| CareerCard.CardSkills | backend/app/services/recommendation_service.py:1106-1112 | the recommendation's normalised skills cut to four when there are any; otherwise the profile's required skills cut to four |
| CareerCard.CardWhy | backend/app/services/recommendation_service.py:1127 | the stored explanation when present; otherwise the profile's description when present; otherwise the default sentence; never empty |
| CareerCard.CardSalary | backend/app/services/recommendation_service.py:1114 | the recommendation's range when it normalises to one; otherwise the profile's normalised range |
| CareerCard.CardFromProfile | backend/app/services/recommendation_service.py:1083-1152 | the card carries the profile's id, SOC code and title, the fit score rounded to one place (0.0 without one), and exactly the growth, explanation, skills, tips, salary, industry tag and user label the helpers above choose; growth and explanation are non-empty, at most four skills and one or two tips |
| CareerCard.LabelStable | backend/app/services/recommendation_service.py:1147-1150 | "favorite" and "saved" show the same label, and relabelling a label changes nothing |
| SearchTerms.Core | backend/app/services/recommendation_service.py:626 | keeps only the characters `[A-Za-z0-9+/]` of the token |
| SearchTerms.NormalizeToken | backend/app/services/recommendation_service.py:625-639 | the normalised token is empty exactly when the token has no kept character |
| SearchTerms.KeptWords | backend/app/services/recommendation_service.py:647-650 | the words kept: stop words dropped only when there are two or more words |
| SearchTerms.OneWordKept | backend/app/services/recommendation_service.py:649 | a one-word candidate keeps its word, stop word or not |
| SearchTerms.StopWordsDropped | backend/app/services/recommendation_service.py:647-650 | with two or more words no kept word is a stop word, and every other word is kept |
| SearchTerms.Tokens | backend/app/services/recommendation_service.py:651-653 | only non-empty normalised tokens are collected |
| SearchTerms.WithoutFiller | backend/app/services/recommendation_service.py:663 | dropping "job", "jobs", "worker", "workers" never lengthens the tokens |
| SearchTerms.AddNew | backend/app/services/recommendation_service.py:655-679 | `set.add`: the members are the old ones plus the new one, the first one staying first |
| SearchTerms.AddIf | backend/app/services/recommendation_service.py:694-697 | `if x: s.add(x)`: only a non-empty string is added |
| SearchTerms.NonEmpty | backend/app/services/recommendation_service.py:680 | exactly the non-empty variants are kept |
| SearchTerms.TokenVariations | backend/app/services/recommendation_service.py:641-680 | every variation of a candidate is non-empty |
| SearchTerms.RemoveParens | backend/app/services/recommendation_service.py:687 | `re.sub(r"\([^)]*\)", "", s)` never lengthens the text |
| SearchTerms.Variants | backend/app/services/recommendation_service.py:682-705 | no pieces exactly for an empty cleaned text; otherwise the cleaned text is the first piece |
| SearchTerms.GenerateSearchTerms | backend/app/services/recommendation_service.py:707-721 | the `seen`/`terms` loop yields the case-insensitive deduplication of the title's options followed by the hint's |
| SearchTerms.TitleTermsFirst | backend/app/services/recommendation_service.py:710-719 | the title's terms come first; the hint adds only terms whose lower-case forms the title did not give |
| SearchTerms.SearchTermsDistinct | backend/app/services/recommendation_service.py:715-719 | no two generated terms are equal ignoring case, and each is one of the options |
| CaseInsensitive.Collect | backend/app/services/recommendation_service.py:707-719 | the loop's terms are exactly `Dedupe` of the options |
| CaseInsensitive.DedupeDistinct | backend/app/services/recommendation_service.py:715-718 | no two kept terms share a lower-case form, and none was seen before |
| CaseInsensitive.DedupeCovers | backend/app/services/recommendation_service.py:713-719 | every term is an option, and every option's lower-case form ends up seen |
| CaseInsensitive.DedupeAppend | backend/app/services/recommendation_service.py:710-719 | deduplicating a concatenation: the first part's terms, then the rest against what the first part has seen |
| Ranking.Clamp01 | backend/app/services/recommendation_service.py:1214 | `max(0.0, min(1.0, x))` lies in [0, 1], is x inside it and the nearer end outside it |
| Ranking.MatchCount | backend/app/services/recommendation_service.py:1211-1213 | the number of matching required skills is at most the number of required skills |
| Ranking.RawFit | backend/app/services/recommendation_service.py:1208-1215 | the raw fit lies in [0, 1] |
| Ranking.RawFitMonotone | backend/app/services/recommendation_service.py:1211-1214 | more matching skills never lower the raw fit |
| Ranking.Insert | backend/app/services/recommendation_service.py:1216 | inserting adds exactly the entry |
| Ranking.InsertSorted | backend/app/services/recommendation_service.py:1216 | inserting into a list sorted by descending fit keeps it sorted |
| Ranking.SortDesc | backend/app/services/recommendation_service.py:1216 | `ranked.sort(key=fit, reverse=True)` is a permutation |
| Ranking.SortSorted | backend/app/services/recommendation_service.py:1216 | the sorted list is in descending fit |
| Ranking.SortSameMembers | backend/app/services/recommendation_service.py:1216 | sorting keeps exactly the entries |
| Ranking.SortKeepsDistinct | backend/app/services/recommendation_service.py:1293 | sorting keeps the title keys distinct, and the non-empty SOC keys distinct |
| Ranking.ScoreOf | backend/app/services/recommendation_service.py:1208-1215 | an entry's keys are its profile's stripped lower-cased SOC and title, and its fit lies in [0, 1] |
| Ranking.ScoreAll | backend/app/services/recommendation_service.py:1207-1215 | every built profile is scored, in order |
| Ranking.ExcludeSeen | backend/app/services/recommendation_service.py:1219-1237 | the exclusion loop ends in the state of the walk specification |
| Ranking.WalkKeepsKeyed | backend/app/services/recommendation_service.py:1223-1230 | the walk accepts only entries of the list it walks |
| Ranking.WalkGrows | backend/app/services/recommendation_service.py:1226-1235 | the walk only adds: earlier acceptances and seen keys stay |
| Ranking.WalkKeepsInv | backend/app/services/recommendation_service.py:1223-1237 | no accepted candidate repeats a SOC or title key, none matches a key seen before, and at most `target` are accepted |
| Ranking.WalkMaximal | backend/app/services/recommendation_service.py:1223-1237 | when the walk ends short of the target, every candidate's title key or non-empty SOC key is among the seen keys |
| Ranking.WalkKeepsOrder | backend/app/services/recommendation_service.py:1223-1237 | walking a list in descending fit keeps the accepted list in descending fit |
| Ranking.HistoryIds | backend/app/services/recommendation_service.py:1028-1042 | the ids are exactly the truthy profile ids of the user's recommendation and action rows |
| Ranking.GetSeenProfileKeys | backend/app/services/recommendation_service.py:1024-1063 | the seen ids are the history ids that exist, the SOC and title keys those of their profiles, stripped and lower-cased, blanks left out |
| Ranking.HistoryTitleSeen | backend/app/services/recommendation_service.py:1190-1228 | a profile in the user's history has its title key seen, so the walk never accepts it |
| Ranking.Widen | backend/app/services/recommendation_service.py:1240-1293 | at most three broader searches; nothing changes when the target was met; otherwise the result is the widening specification, re-sorted |
| Ranking.WidenKeepsInv | backend/app/services/recommendation_service.py:1248-1290 | widening keeps the walk's guarantees and at most `target` accepted |
| Ranking.WidenKeepsKeyed | backend/app/services/recommendation_service.py:1264-1282 | widening accepts only scored entries of the broader searches or of the walk |
| Ranking.Rescale | backend/app/services/recommendation_service.py:1301-1310 | 0.84 when all raw fits are equal; otherwise a raw fit between min and max maps into [0.72, 0.96] |
| Ranking.RescaleEnds | backend/app/services/recommendation_service.py:1307-1310 | the lowest raw fit maps to 0.72, the highest to 0.96, and the order is kept |
| Ranking.FitScore | backend/app/services/recommendation_service.py:1344 | `round(fit * 100, 1)` of a rescaled fit lies in [72, 96] |
| Ranking.MinScore | backend/app/services/recommendation_service.py:1302 | `min(raw_scores)` is one of the scores and bounds them all below |
| Ranking.MaxScore | backend/app/services/recommendation_service.py:1302 | `max(raw_scores)` is one of the scores and bounds them all above |
| Ranking.FitScores | backend/app/services/recommendation_service.py:1300-1344 | one fit score per selected candidate, in [72, 96]: `round(_rescale(raw) * 100, 1)` with `mn` and `mx` the least and greatest raw fit of the selection |
| Ranking.FitScoresFollowFit | backend/app/services/recommendation_service.py:1300-1344 | in a selection sorted by raw fit the fit scores descend; when the raw fits differ, the lowest shows 72.0 and the highest 96.0 |
| Ranking.SelectedOk | backend/app/services/recommendation_service.py:1207-1299 | at most `target` candidates, in descending raw fit, no two with one title key or one non-empty SOC key, none whose title or non-empty SOC key the user has already seen |
| Ranking.Select | backend/app/services/recommendation_service.py:1207-1344 | the loops compute the specified selection, which meets all the guarantees above, and its fit scores are `FitScores` of it |
| ActionLedger.FavoriteAsWritten | backend/app/services/recommendation_service.py:1379-1436 | as written: succeeds exactly for an accepted action on an existing profile where saving does not meet a dismiss or explore row, which the unique key of backend/app/models/user_recommendation.py:48-50 rejects |
| ActionLedger.Favorite | backend/app/services/recommendation_service.py:1379-1436 | the corrected `favorite`: "Unsupported action" and "Career profile not found" errors first; saving deletes a saved row and otherwise writes "favorite"; dismiss and explore create or overwrite the row; every other key is untouched |
| ActionLedger.FavoriteKeepsValid | backend/app/services/recommendation_service.py:1380-1430 | both versions store only accepted actions |
| ActionLedger.SaveToggles | backend/app/services/recommendation_service.py:1399-1416 | saving twice from no row gives back the table it started from |
| ActionLedger.AsWrittenAgrees | backend/app/services/recommendation_service.py:1399-1430 | the two versions differ only when saving over a dismiss or explore row |
| ActionLedger.SaveAfterDismiss | backend/app/services/recommendation_service.py:1406-1415 | the input that shows it: with a dismissed row, saving fails as written and overwrites the row when corrected |
| ActionLedger.Ledger.Record | backend/app/services/recommendation_service.py:1379-1436 | the stored table becomes the corrected `favorite` of the old one when it succeeds, and is unchanged on an error |
| ExternalConfig.EnsureOnetReady | backend/app/services/external_data_service.py:23-27 | succeeds exactly with the feature flag and both credentials; the flag is checked first |
| ExternalConfig.EnsureAdzunaReady | backend/app/services/external_data_service.py:99-103 | succeeds exactly with the feature flag and both credentials; the flag is checked first |
| ExternalConfig.CountryPath | backend/app/services/external_data_service.py:106-108 | the stripped lower-cased country, "us" when unset or blank; never empty and never upper case |
| OnetData.NamedOccupations | backend/app/services/external_data_service.py:48-52 | exactly the entries with a truthy code and title are kept |
| OnetData.NamedOccupationsAppend | backend/app/services/external_data_service.py:48-52 | the filter keeps the entries' order |
| OnetData.SearchOccupations | backend/app/services/external_data_service.py:39-52 | the guard's error comes first; the result is Ok exactly when the response is a dict whose "occupation" list (default empty) holds only dicts, and then it is exactly the entries with a truthy code and title, in order; a response without "occupation" gives none |
| OnetData.SearchGuardFirst | backend/app/services/external_data_service.py:40 | a failed guard decides the result whatever the response |
| OnetData.DetailTitle | backend/app/services/external_data_service.py:69 | `title or occupation.title or soc`: a truthy title is taken; otherwise a truthy title of the "occupation" dict; otherwise the SOC code; a non-dict "occupation" is an error |
| OnetData.DetailDescription | backend/app/services/external_data_service.py:70 | `summary or description or ""`: the first truthy of summary and description, else the empty string |
| OnetData.ScoreValue | backend/app/services/external_data_service.py:78-84 | the numeric score or 0, plus one half when important |
| OnetData.SkillOf | backend/app/services/external_data_service.py:74-85 | a non-string name skips the element; a kept skill has the element's name; an element that is not a dict is a 500 |
| OnetData.SkillEntries | backend/app/services/external_data_service.py:73-85 | the loop collects at most one entry per element |
| OnetData.CollectSkills | backend/app/services/external_data_service.py:72-85 | the append loop computes `SkillEntries` |
| OnetData.InsertSkill | backend/app/services/external_data_service.py:87 | inserting adds exactly the skill |
| OnetData.InsertSkillSorted | backend/app/services/external_data_service.py:87 | inserting keeps descending values |
| OnetData.SortSkills | backend/app/services/external_data_service.py:87 | the stable sort by descending value is a permutation |
| OnetData.SortSkillsSorted | backend/app/services/external_data_service.py:87 | the sorted skills are in descending value |
| OnetData.DedupeSkills | backend/app/services/external_data_service.py:88-95 | the `seen` loop keeps only skills of the list |
| OnetData.DedupeSkillsNames | backend/app/services/external_data_service.py:88-95 | the names kept are the case-insensitive de-duplication of the names |
| OnetData.DedupeSkillsSorted | backend/app/services/external_data_service.py:88-95 | dropping skills keeps descending value |
| OnetData.DistinctKeysTake | backend/app/services/external_data_service.py:96 | a prefix of names distinct ignoring case stays distinct |
| OnetData.SkillsRanked | backend/app/services/external_data_service.py:87-96 | at most 25 skills, distinct ignoring case, the first of each name in descending value |
| OnetData.OnetGetDetails | backend/app/services/external_data_service.py:55-96 | the guard's error first; the details carry the SOC code asked for, the title DetailTitle chooses, the description DetailDescription chooses, and the skills response's entries ranked by score, de-duplicated case-insensitively and cut to 25 |
| StringOrder.SortedKeys | backend/app/services/external_data_service.py:221 | `sorted(keys)`: the same keys, strictly ascending |
| AdzunaData.StatsSalary | backend/app/services/external_data_service.py:127-138 | no salary when neither mean nor median is truthy; otherwise base = median or mean, min = p25 or 0.8·base, max = p75 or 1.25·base, each rounded, currency or "USD" |
| AdzunaData.StatsOrdered | backend/app/services/external_data_service.py:130-136 | without quartiles, a non-negative base gives min ≤ median ≤ max |
| AdzunaData.RowOf | backend/app/services/external_data_service.py:160-171 | a job is kept exactly when it is a dict with a positive numeric `salary_max`; the kept row has 0 < lo ≤ hi, its max among them, and a truthy currency |
| AdzunaData.SalaryRows | backend/app/services/external_data_service.py:159-171 | the kept rows are ordered and positive, at most one per job |
| AdzunaData.CollectRows | backend/app/services/external_data_service.py:159-171 | the loop computes `SalaryRows` |
| AdzunaData.Midpoints | backend/app/services/external_data_service.py:176 | one midpoint per row, (lo + hi) / 2 |
| AdzunaData.ListingSalary | backend/app/services/external_data_service.py:173-195 | a salary exactly when a row was kept; the median is the midpoints' median rounded half to even, the currency the first row's; without quartiles the first and last midpoints bound it |
| AdzunaData.ListingFallbackOrdered | backend/app/services/external_data_service.py:183-185 | when the quartiles fail, the fallback range is ordered |
| AdzunaData.SearchSalary | backend/app/services/external_data_service.py:155-157 | a salary only from a dict whose "results" is a list |
| AdzunaData.AdzunaSalaryStats | backend/app/services/external_data_service.py:111-195 | the guard's error first; a stats response with a salary decides; a failed stats request, or one without a mean or median, falls back on the listing; a malformed stats response is an error |
| AdzunaData.TailSlice | backend/app/services/external_data_service.py:221 | Python `xs[-months:]`: the last `months` entries, the whole list for 0 |
| AdzunaData.NumericValues | backend/app/services/external_data_service.py:222 | only numeric values are kept, in key order |
| AdzunaData.TrendArrow | backend/app/services/external_data_service.py:235-240 | up exactly above 0.5, down exactly below -0.5, flat otherwise |
| AdzunaData.PercentText | backend/app/services/external_data_service.py:246 | never empty, never ending in ".", negative exactly when it starts with "-" |
| AdzunaData.TrendText | backend/app/services/external_data_service.py:226-247 | "arrow pct%" with the slope's arrow |
| AdzunaData.HistoryTrend | backend/app/services/external_data_service.py:198-247 | the guard's error first; a trend only from a dict payload, and then it is the trend text (slope arrow, first-to-last change) of the series' last `months` numeric values, of which there are at least three; never an error once the guard passes |
| AdzunaData.TrendReported | backend/app/services/external_data_service.py:216-224 | a trend exactly when the series is a dict of at least three entries with at least three numeric values among the last `months` |
| AdzunaData.FlatSeries | backend/app/services/external_data_service.py:227-247 | a flat series has slope 0 and reads "→ 0%" |
| AdzunaData.FirstZero | backend/app/services/external_data_service.py:244 | a series starting at 0 reports "0" percent, whatever follows |
| Confidence.QuestionnaireScoreOf | backend/app/services/ai_confidence_service.py:17-45 | no responses score 0; otherwise the completion share of 12 plus the 8 consistency points, between 0 and 20 when no more are answered than required |
| Confidence.QuestionnaireScore | backend/app/services/ai_confidence_service.py:19-28 | both counts are the same query, so the score is exactly 0 (no responses) or 20 |
| Confidence.UserTurnsLongerThan | backend/app/services/ai_confidence_service.py:55-56 | counts at most as many turns as there are messages |
| Confidence.CoachScore | backend/app/services/ai_confidence_service.py:50-66 | 5 on-topic points, plus 12 for three user turns over 20 characters, plus 8 for one over 80; never above 25 |
| Confidence.DetailedAreMeaningful | backend/app/services/ai_confidence_service.py:55-56 | a user turn over 80 characters is also one over 20 |
| Confidence.RecommendationScore | backend/app/services/ai_confidence_service.py:84-109 | no recommendations score 0 |
| Confidence.RecommendationBounds | backend/app/services/ai_confidence_service.py:92-109 | for fits that are not negative, every normalisation band keeps the score within 0 to 25 |
| Confidence.StoredFitsScore | backend/app/services/ai_confidence_service.py:102-104 | fits in the 72-96 band the ranking stores read as the 0-100 case, giving 18 to 24 |
| Confidence.ActionScore | backend/app/services/ai_confidence_service.py:115-130 | the action score lies within 0 to 20 |
| Confidence.LedgerActionsScoreFour | backend/app/services/ai_confidence_service.py:121-128 | on rows holding only "favorite", "dismiss" and "explore" the score is always the 4 points for few dismissals |
| Confidence.FavoriteKeepsLedgerActions | backend/app/services/recommendation_service.py:1379-1436 | `favorite` never writes an action outside those three |
| Confidence.ReadyScore | backend/app/services/ai_confidence_service.py:135-150 | the ready score lies within 0 to 10 |
| Confidence.ReadyAlwaysFull | backend/app/services/ai_confidence_service.py:137-148 | with the fixed placeholders the ready score is always 10 |
| Confidence.BreakdownOf | backend/app/services/ai_confidence_service.py:176-182 | a component is present exactly when its milestone flag is set |
| Confidence.Possible | backend/app/services/ai_confidence_service.py:184-196 | the possible score is between 0 and 100, and 0 exactly when no milestone is flagged |
| Confidence.FinalScore | backend/app/services/ai_confidence_service.py:198-201 | 0 when nothing is possible; otherwise a percentage whenever the actual score is within the possible one |
| Confidence.CompletedKeys | backend/app/services/ai_confidence_service.py:216 | each milestone key is listed exactly when its flag is set |
| Confidence.ScoreIsPercentage | backend/app/services/ai_confidence_service.py:176-201 | the actual score never exceeds the possible one, so the final score is between 0 and 100 |
| Confidence.NoMilestonesScoreZero | backend/app/services/ai_confidence_service.py:195-218 | with no milestone flagged the report is score 0, no keys and an empty breakdown |
| Confidence.FullMarks | backend/app/services/ai_confidence_service.py:198-201 | an actual score equal to the possible one gives 100 |
| Confidence.ComputeAiConfidence | backend/app/services/ai_confidence_service.py:155-218 | a missing journey row gives the error report; otherwise the report of the row's five milestone flags |
| MicrostepProgress.PyIndex | backend/app/api/routes/microstep_routes.py:182-190 | Python list indexing: defined exactly for -len to len-1, a negative index counting from the end |
| MicrostepProgress.Position | backend/app/api/routes/microstep_routes.py:177-184 | the `>= len` check rejects too-large indices with 400; negative ones pass, and only those below -len fail, as an IndexError |
| MicrostepProgress.Lookup | backend/app/api/routes/microstep_routes.py:153-171 | succeeds exactly for an authenticated user who owns the plan; no user is 401 |
| MicrostepProgress.CompleteAll | backend/app/api/routes/microstep_routes.py:194-197 | every ministep is marked "completed" and is otherwise unchanged |
| MicrostepProgress.UpdateProgress | backend/app/api/routes/microstep_routes.py:136-215 | the errors in the route's order (401, 400 invalid status, 404, 400 invalid step_index); success only for a valid status, an owned plan and an index the list can take; the set of plans is unchanged |
| MicrostepProgress.UpdateTouchesOneStep | backend/app/api/routes/microstep_routes.py:174-201 | other plans, the plan's owner and title, and every other step are unchanged |
| MicrostepProgress.UpdateMinistep | backend/app/api/routes/microstep_routes.py:181-186 | with a ministep index only that ministep's status changes |
| MicrostepProgress.UpdateStep | backend/app/api/routes/microstep_routes.py:188-198 | without one the step's status is set; its ministeps all become "completed" exactly when the status is "completed", and are untouched otherwise |
| MicrostepProgress.LastStepByNegativeIndex | backend/app/api/routes/microstep_routes.py:177-190 | step_index -1 passes the check and updates the last step |
| MicrostepProgress.MicrostepStore.Progress | backend/app/api/routes/microstep_routes.py:136-215 | the in-place route, cascade loop included, leaves the table `UpdateProgress` describes, or the same error with the table untouched |
| MicrostepProgress.AllCompletedUnique | backend/app/api/routes/microstep_routes.py:194-197 | the cascade loop's result is exactly `CompleteAll` |
| MicrostepProgress.SendReflection | backend/app/api/routes/microstep_routes.py:297-375 | succeeds exactly for an owned plan and a usable step index; keeps the set of plans |
| MicrostepProgress.ChatGrowsByTwo | backend/app/api/routes/microstep_routes.py:331-356 | the chat, created when missing, keeps its messages and gains the user's message then the coach's reply |
| MicrostepProgress.MicrostepStore.Reflect | backend/app/api/routes/microstep_routes.py:297-375 | the in-place route leaves the table `SendReflection` describes and reports the new chat length, or the error with nothing changed |
| MicrostepProgress.ClearReflection | backend/app/api/routes/microstep_routes.py:418-459 | succeeds under the same checks; the step's chat becomes empty and the count returned is the number of messages it held |
| MicrostepProgress.MicrostepStore.Clear | backend/app/api/routes/microstep_routes.py:418-459 | the in-place route leaves the table `ClearReflection` describes and returns its count |
| MicrostepProgress.ChatOverview | backend/app/api/routes/microstep_routes.py:483-500 | at most one entry per step; every entry has messages and a last message cut to at most 100 characters plus "..." |
| MicrostepProgress.OverviewCounts | backend/app/api/routes/microstep_routes.py:484-506 | the overview has exactly one entry per step with a non-empty chat |
| MicrostepProgress.ClearedLeavesOverview | backend/app/api/routes/microstep_routes.py:446-486 | a cleared step drops out of the overview |
| MicrostepProgress.MicrostepStore.Chats | backend/app/api/routes/microstep_routes.py:462-507 | the route's loop returns exactly `ChatOverview` of the owned plan, or the lookup error |
| Journey.Set | backend/app/services/journey_service.py:46 | `setattr` changes exactly the named flag, never discovery |
| Journey.Rules | backend/app/services/journey_service.py:69-99 | after the rules launch implies action, action implies matches, matches implies coach, the unlock implies coach, and discovery is exactly chat intro plus questionnaire |
| Journey.RulesIdempotent | backend/app/services/journey_service.py:60-138 | running the rules twice gives what running them once does |
| Journey.RulesOnlyRaise | backend/app/services/journey_service.py:77-99 | the rules keep the payload flags and never lower coach, matches, action or launch |
| Journey.RulesLeastClosure | backend/app/services/journey_service.py:77-99 | the rules' output is the least flag set above the input that satisfies the four implications |
| Journey.CountDone | backend/app/services/journey_service.py:125-136 | between 0 and 5; 0 exactly when no milestone is done, 5 exactly when all are |
| Journey.FirstFalse | backend/app/services/journey_service.py:104-120 | the position of the first false entry, every earlier entry true |
| Journey.StageIsFirstIncomplete | backend/app/services/journey_service.py:104-120 | the stage named is the first incomplete milestone of the chain, "discovery" while discovery is open, "completed" when none is open |
| Journey.ProgressOf | backend/app/services/journey_service.py:125-138 | a multiple of 20 from 0 to 100, and 100 exactly when the stage is "completed" |
| Journey.ProgressFollowsChain | backend/app/services/journey_service.py:104-138 | after the rules the percentage is discovery plus the completed prefix of coach, matches, action, launch |
| Journey.AssignUnset | backend/app/services/journey_service.py:43-46 | a flag the payload does not send keeps its value |
| Journey.AssignLast | backend/app/services/journey_service.py:43-46 | a flag the payload sets last holds that value |
| Journey.AssignKeepsDiscovery | backend/app/services/journey_service.py:43-46 | the payload never sets discovery |
| Journey.OnlyPayloadLowers | backend/app/services/journey_service.py:38-54 | coach, matches, action or launch can end false after being true only when the payload set it |
| Journey.DiscoveryCanRevert | backend/app/services/journey_service.py:69-72 | discovery is recomputed, so clearing the questionnaire flag turns it back off |
| Journey.JourneyState.constructor | backend/app/models/user_journey_state.py:13-27 | every flag false, stage "discovery", progress 1, a percentage no rule output has |
| Journey.JourneyState.SetField | backend/app/services/journey_service.py:46 | the row's flags become `Set` of the old ones; id, stage and progress unchanged |
| Journey.JourneyState.AssignFields | backend/app/services/journey_service.py:43-46 | the loop leaves the flags `AssignAll` of the payload; `user_id` is skipped |
| Journey.JourneyState.ApplyProgressionRules | backend/app/services/journey_service.py:60-138 | the row's flags become `Rules` of the old ones, the stage and progress those of the new flags |
| Journey.JourneyTable.GetOrCreate | backend/app/services/journey_service.py:12-32 | an unknown user is 404 with nothing changed; an existing row is returned; otherwise a fresh default row is added under the user |
| Journey.JourneyTable.ApplyJourneyUpdate | backend/app/services/journey_service.py:38-54 | succeeds exactly for a known user; the user's row (found, or created with the defaults) holds the rules applied to its payload-updated flags, with the stage and progress those flags give; every other row keeps its flags, stage and progress, and a 404 changes no row |
| Questionnaire.FirstChat | backend/app/services/questionnaire_service.py:42-49 | the first row matching (user, chat id), or none exists |
| Questionnaire.SaveChatThenRead | backend/app/services/questionnaire_service.py:51-60 | after `save_chat_response` the key reads back the saved response; every other key reads as before |
| Questionnaire.SaveChatKeepsKeysUnique | backend/app/services/questionnaire_service.py:51-60 | the upsert keeps one row per (user, chat id) and adds a row only for a new key |
| Questionnaire.FirstAnswer | backend/app/services/questionnaire_service.py:81-88 | the first row matching (user, question id), or none exists |
| Questionnaire.SaveAnswerThenRead | backend/app/services/questionnaire_service.py:90-100 | after the save the key reads the new answer under the category it was first stored with; other keys read as before |
| Questionnaire.SaveAnswerKeepsKeysUnique | backend/app/services/questionnaire_service.py:90-100 | the upsert keeps one row per (user, question id) |
| Questionnaire.SaveAll | backend/app/services/questionnaire_service.py:163-198 | corrected — the upsert the docstring at lines 165-166 promises, each item updating the row its key has after the earlier items: never shorter, and at most one row more per item |
| Questionnaire.SaveAllKeepsStored | backend/app/services/questionnaire_service.py:163-198 | corrected (over `SaveAll`): every row stored before the batch keeps its key and category |
| Questionnaire.SaveAllKeepsKeysUnique | backend/app/services/questionnaire_service.py:163-198 | corrected (over `SaveAll`): one row per (user, question id), even when an item repeats within the batch |
| Questionnaire.NewRows | backend/app/services/questionnaire_service.py:187-198 | the rows the batch inserts: one per item whose key was not stored before the batch, in order, each with a key of the batch |
| Questionnaire.SaveAllAsWritten | backend/app/services/questionnaire_service.py:172-198 | as written: without autoflush (backend/app/core/database.py:12) and without a unique key, each `.first()` sees only the rows stored before the batch, so the batch adds one row per item whose key was not stored before it (`NewRows`), a repeated new key once per item |
| Questionnaire.AsWrittenShape | backend/app/services/questionnaire_service.py:172-198 | as written: the rows stored before the batch keep their keys and categories, and after them come exactly the inserted `NewRows`, in order |
| Questionnaire.FirstAnswerSameKeys | backend/app/services/questionnaire_service.py:178-185 | `.first()` finds the same row in two tables that agree on their keys up to the first one's length and have no match after it |
| Questionnaire.AsWrittenAgreesOnDistinct | backend/app/services/questionnaire_service.py:172-198 | a batch naming each key at most once is saved as written exactly as the upsert saves it |
| Questionnaire.DistinctBatchUpserts | backend/app/services/questionnaire_service.py:172-198 | for a batch naming distinct keys, the loop as written equals the upsert and keeps unique stored keys unique |
| Questionnaire.BatchRepeatDuplicates | backend/app/services/questionnaire_service.py:172-198 | two items with one new key: as written two rows are stored and keys are no longer unique, while the upsert stores one row with the last answer |
| Questionnaire.SaveAnswerAnswers | backend/app/services/questionnaire_service.py:90-123 | the user's answered ids grow by exactly the saved question id |
| Questionnaire.UpdateProgress | backend/app/services/questionnaire_service.py:235-263 | only the user's row changes; a new row gets `current_tab or 1`; completion is the flag given, else the old one (False for a new row) |
| Questionnaire.TabMovesForward | backend/app/services/questionnaire_service.py:253-257 | on an existing row the tab never moves back, reaches a given tab, and stays put without one |
| Questionnaire.CompletionCanRegress | backend/app/services/questionnaire_service.py:259-261 | an explicit False clears a completed row and leaves its tab |
| Questionnaire.QuestionIds | backend/app/services/questionnaire_service.py:132-136 | the single save collects only truthy ids (also lines 213-214, 298) |
| Questionnaire.RequiredIds | backend/app/services/questionnaire_service.py:130-136 | over required sections, the single save collects only truthy ids (also lines 211-214, 294-299) |
| Questionnaire.BulkIdsCoverSingle | backend/app/services/questionnaire_service.py:132-214 | when both walks succeed the bulk walk's ids include the single save's, and the single walk succeeds whenever the bulk one does |
| Questionnaire.BulkRequiredCoverSingle | backend/app/services/questionnaire_service.py:130-214 | the same inclusion over all the required sections |
| Questionnaire.SingleCompletion | backend/app/services/questionnaire_service.py:120-141 | completion is reported only when some answered id is truthy, since the required set must be non-empty |
| Questionnaire.BulkNonEmptyImpliesSingle | backend/app/services/questionnaire_service.py:127-216 | without a `data` wrapper and with a non-empty required set, a passed bulk test implies a passed single test |
| Questionnaire.CompletionMonotone | backend/app/services/questionnaire_service.py:139-141 | more answers never undo a passed test, in all three variants (also lines 216, 309) |
| Questionnaire.NoRequiredSections | backend/app/services/questionnaire_service.py:139-141 | with no required section the single save says incomplete while the bulk save and the completion mark say complete (also lines 216, 309) |
| Questionnaire.DataWrapperOnlySingle | backend/app/services/questionnaire_service.py:127-211 | a `data` wrapper is read by the single save and ignored by the bulk save |
| Questionnaire.MissingIdVariants | backend/app/services/questionnaire_service.py:134-135 | a required question without an id is skipped by the single save, blocks the bulk test and makes the completion mark fail (also lines 214, 295) |
| Questionnaire.UserChats | backend/app/services/questionnaire_service.py:344-390 | exactly the user's chat rows |
| Questionnaire.UserAnswers | backend/app/services/questionnaire_service.py:407-428 | exactly the user's answer rows |
| Questionnaire.ResponseStore.SaveChatResponse | backend/app/services/questionnaire_service.py:39-74 | the chat rows become `SaveChat` of the old ones, the key reads the response, the other tables are unchanged |
| Questionnaire.ResponseStore.SaveQuestionnaireResponse | backend/app/services/questionnaire_service.py:78-159 | the answers become `SaveAnswer` of the old ones, which keeps the keys unique when they were; progress is synced with the single completion test only when it can be computed |
| Questionnaire.ResponseStore.SaveBulk | backend/app/services/questionnaire_service.py:162-231 | nothing for an empty list; otherwise the loop leaves `SaveAllAsWritten` of the old answers (the upsert `SaveAll`, with keys kept unique, when the items name distinct keys), then the bulk test is synced for the first item's user |
| Questionnaire.ResponseStore.UpdateUserProgress | backend/app/services/questionnaire_service.py:235-279 | progress becomes `UpdateProgress` of the old table and the row returned is the user's |
| Questionnaire.ResponseStore.MarkComplete | backend/app/services/questionnaire_service.py:282-341 | a failing test changes nothing; a new row gets the section count as its tab, an existing row only the flag; complete gives the generated output, incomplete the message |
| FinalData.ProgressSummary | backend/app/services/final_data_service.py:24-40 | the total is the number of distinct categories; completed means every tab at 100 percent; a missing row means tab 0 at 0 percent; it fails exactly on an unhashable category or a null tab of an incomplete row when there are tabs |
| FinalData.PercentageBounded | backend/app/services/final_data_service.py:39 | a tab within the questionnaire gives a percentage from 0 to 100 |
| FinalData.IntroEntryOf | backend/app/services/final_data_service.py:51-57 | the row's id and response, with the script's text for a known id and "" otherwise |
| FinalData.ResponseEntryOf | backend/app/services/final_data_service.py:68-79 | the row's id and answer; the lookup's category, else the row's with "" text and type; a scale exactly when the lookup's is truthy |
| FinalData.IntroEntries | backend/app/services/final_data_service.py:50-57 | one entry per chat row, in row order |
| FinalData.ResponseEntries | backend/app/services/final_data_service.py:67-79 | one entry per answer row, in row order |
| FinalData.CollectIntro | backend/app/services/final_data_service.py:50-57 | the loop builds exactly `IntroEntries` |
| FinalData.CollectResponses | backend/app/services/final_data_service.py:67-79 | the loop builds exactly `ResponseEntries` |
| FinalData.CanCreateForUser | backend/app/services/final_data_service.py:92-102 | false without a progress row; with one, true exactly when it is completed |
| FinalData.BuildUserFinalJson | backend/app/services/final_data_service.py:12-90 | the payload is the user's own rows and progress block, or the progress block's error |
| FinalData.FinalDataTable.SaveUserFinalData | backend/app/services/final_data_service.py:105-142 | an existing record is replaced ("updated"); a missing one is created only for a completed user ("created"), otherwise "skipped" with nothing written; no other user's record changes |
| FinalData.CompletedPayload | backend/app/services/final_data_service.py:31-102 | for a completed user the payload reports every tab done at 100 percent, with one entry per row |
| Feedback.FirstFeedback | backend/app/services/ai/feedback_service.py:31-34 | the first row matching (user, message), or none exists |
| Feedback.SaveFeedbackUpserts | backend/app/services/ai/feedback_service.py:30-57 | one row per (user, message); a row is added only for a new pair; reading back gives the new type and time, and an existing row keeps its session, question and response |
| Feedback.SaveFeedback | backend/app/services/ai/feedback_service.py:14-61 | an existing (user, message) row gets only the new type and time and every other row stays; otherwise the new row is appended after the unchanged table |
| Feedback.FeedbackTable.Save | backend/app/services/ai/feedback_service.py:14-61 | the table becomes `SaveFeedback` of the old one, stays unique, and the row returned is the one stored with the new type |
| Feedback.Preference | backend/app/services/ai/feedback_service.py:115-121 | "detailed" exactly when likes exceed twice the dislikes, "concise" exactly when dislikes exceed twice the likes |
| Feedback.PreferenceSymmetric | backend/app/services/ai/feedback_service.py:115-121 | swapping the counts swaps detailed and concise and keeps balanced |
| Feedback.ExampleOf | backend/app/services/ai/feedback_service.py:93-107 | the response shown is at most 200 characters plus "...", never empty, "N/A" when missing or empty |
| Feedback.Examples | backend/app/services/ai/feedback_service.py:93-107 | one example per row, in order |
| Feedback.FeedbackPatterns | backend/app/services/ai/feedback_service.py:64-133 | no recent feedback gives the empty pattern; otherwise the counts are the numbers of "like" and "dislike" rows among the user's newest `limit`, the examples are those of the first five of each, and the summary is the count sentence followed by the style Preference picks for those counts |
| Feedback.ExamplesFromOwnFeedback | backend/app/services/ai/feedback_service.py:71-98 | every liked example comes from one of the user's own "like" rows |
| Feedback.RecentIsNewest | backend/app/services/ai/feedback_service.py:71-73 | the rows read are the user's own, newest first, at most `limit` of them |
| Feedback.SatisfactionRate | backend/app/services/ai/feedback_service.py:178 | 0 without feedback; otherwise likes/total times 100, between 0 and 100 |
| Feedback.FeedbackStats | backend/app/services/ai/feedback_service.py:157-179 | the total counts the user's rows, likes and dislikes together never exceed it, and the rate is `SatisfactionRate` of them |
| ChatHistory.RecentMessages | backend/app/services/ai/chat_history_service.py:37-49 | the recent window is oldest first, holds min(limit, session size) messages, and every message in it is one of the user's messages in that session |
| ChatHistory.RecentNewest | backend/app/services/ai/chat_history_service.py:47 | a session message left out of the window is no newer than any message kept |
| ChatHistory.SessionMessages | backend/app/services/ai/chat_history_service.py:52-61 | every message of the user's session exactly as often as the table holds it, and nothing else, in time order |
| ChatHistory.UserSessions | backend/app/services/ai/chat_history_service.py:77-86 | every message of the user contributes its session id, and every id comes from one of the user's messages |
| ChatHistory.DistinctSessions | backend/app/services/ai/chat_history_service.py:77-86 | the user's session ids, each once, exactly those carried by the user's messages |
| ChatHistory.DistinctSessionsCover | backend/app/services/ai/chat_history_service.py:77-86 | the distinct list holds exactly the user's sessions |
| ChatHistory.MinTs | backend/app/services/ai/chat_history_service.py:112 | the earliest time, reached by some message (also line 347) |
| ChatHistory.MaxTs | backend/app/services/ai/chat_history_service.py:113 | the latest time, reached by some message (also line 348) |
| ChatHistory.PreviewOf | backend/app/services/ai/chat_history_service.py:120-143 | the session's message count, its first and last times in order, and the newest message cut to 100 characters plus "..." |
| ChatHistory.PreviewsOf | backend/app/services/ai/chat_history_service.py:120-143 | one preview per session, in order |
| ChatHistory.PreviewsSorted | backend/app/services/ai/chat_history_service.py:145-149 | the previews are newest first, one per session |
| ChatHistory.PreviewEntries | backend/app/services/ai/chat_history_service.py:109-143 | each preview is of one of the user's sessions, has messages, a short last message and ordered times |
| ChatHistory.SessionHasRows | backend/app/services/ai/chat_history_service.py:109-116 | a session listed for the user has at least one of the user's messages |
| ChatHistory.CollectPreviews | backend/app/services/ai/chat_history_service.py:118-151 | the loop and the in-place sort give exactly `SessionPreviews` |
| ChatHistory.SessionSummary | backend/app/services/ai/chat_history_service.py:158-199 | None exactly without messages; user and assistant counts together never exceed the message count |
| ChatHistory.Stats | backend/app/services/ai/chat_history_service.py:318-349 | all zero without messages; sessions are the distinct ids, messages the user's rows, first and last chat present and ordered exactly when there are messages |
| ChatHistory.SessionsAtMostMessages | backend/app/services/ai/chat_history_service.py:338-344 | a user has no more sessions than messages |
| ChatHistory.Lines | backend/app/services/ai/chat_history_service.py:264-271 | one line per message, in order |
| ChatHistory.Blocks | backend/app/services/ai/chat_history_service.py:290-293 | one block per line, with "You" for the user and "AI Coach" otherwise |
| ChatHistory.ExportSession | backend/app/services/ai/chat_history_service.py:246-298 | "json" gives one entry per session message, "csv" the same lines under the Timestamp, Role, Message header, "markdown" one block per line under "# Session <id>"; every export lists the session's messages in time order; any other format is a ValueError naming it |
| ChatHistory.DeleteKeepsOtherSessions | backend/app/services/ai/chat_history_service.py:64-74 | deleting a session empties it and leaves every other session as it was |
| ChatHistory.ChatHistoryTable.SaveMessage | backend/app/services/ai/chat_history_service.py:13-34 | one new row with the next id and the current time is appended |
| ChatHistory.ChatHistoryTable.DeleteSession | backend/app/services/ai/chat_history_service.py:64-74 | the table loses exactly the session's messages |
| UserProfile.ShowAll | backend/app/services/user_profile_service.py:74 | one `str()` text per list element, in order |
| UserProfile.TitleFrom | backend/app/services/user_profile_service.py:130 | title-casing keeps the length |
| UserProfile.TitleFromEach | backend/app/services/user_profile_service.py:130 | each title-cased character depends only on itself and whether the character before it is a letter |
| UserProfile.Title | backend/app/services/user_profile_service.py:130 | a letter at the start or after a non-letter is upper-cased, any other letter lower-cased, other characters kept |
| UserProfile.AddAnswer | backend/app/services/user_profile_service.py:58-64 | one grouping step keeps the dict's keys distinct and in step with its order |
| UserProfile.GroupResponses | backend/app/services/user_profile_service.py:52-64 | the grouping succeeds exactly when every response is a dict whose category can be a key |
| UserProfile.FirstIndex | backend/app/services/user_profile_service.py:58-59 | the position where a category first occurs, no earlier response carrying it |
| UserProfile.GroupKeysOccur | backend/app/services/user_profile_service.py:52-64 | the dict holds exactly the categories that occur |
| UserProfile.GroupAnswersInOrder | backend/app/services/user_profile_service.py:61-64 | each category holds all of its answers, in response order |
| UserProfile.GroupKeysFirstSeen | backend/app/services/user_profile_service.py:58-128 | the keys are in order of first appearance |
| UserProfile.GroupingFailsFirst | backend/app/services/user_profile_service.py:53-59 | grouping fails at the first response that is not a dict or whose category cannot be a key |
| UserProfile.GroupFailureSticks | backend/app/services/user_profile_service.py:53-64 | once grouping fails, later responses do not change the error |
| UserProfile.ItemLines | backend/app/services/user_profile_service.py:71-136 | a bulleted section has one line per answer; no section has more lines than answers |
| UserProfile.FormatProfile | backend/app/services/user_profile_service.py:30-144 | an empty profile gives ""; any other rendered profile starts with the 60-character rule line |
| UserProfile.OthersIgnoreKnown | backend/app/services/user_profile_service.py:125-129 | the other-category loop reads only categories outside the nine known names |
| UserProfile.AliasNotRendered | backend/app/services/user_profile_service.py:67-115 | once the first name of a pair is present, whatever is filed under its alias is not rendered |
| UserProfile.SectionUnchanged | backend/app/services/user_profile_service.py:66-122 | a known section reads only its own two names, and only the first when it is present |
| UserProfile.OtherSectionsTitled | backend/app/services/user_profile_service.py:128-136 | the loop succeeds exactly when every unknown category is a string, and each gets a section under its title-cased name |
| UserProfile.AppendItems | backend/app/services/user_profile_service.py:71-76 | the answer loop of a section builds exactly `ItemLines` |
| UserProfile.GroupAll | backend/app/services/user_profile_service.py:52-64 | the grouping loop builds exactly `GroupResponses` |
| UserProfile.AppendKnown | backend/app/services/user_profile_service.py:66-122 | a known section is its header, then the loop over its answers |
| UserProfile.AppendOthers | backend/app/services/user_profile_service.py:128-136 | the loop over the remaining categories builds exactly `OtherSections` |
| UserProfile.FormatProfileForAi | backend/app/services/user_profile_service.py:30-144 | the section-by-section method returns exactly `FormatProfile` |
| UserProfile.OtherFailureSticks | backend/app/services/user_profile_service.py:128-136 | once a category fails to render, later ones do not change the error |
| UserProfile.SummaryBuckets | backend/app/services/user_profile_service.py:162-182 | the summary loop succeeds exactly when every response is a dict whose category is a string |
| UserProfile.BucketsCollect | backend/app/services/user_profile_service.py:162-182 | each list holds exactly the spread answers of the responses whose category names it, in order |
| UserProfile.BucketsPartition | backend/app/services/user_profile_service.py:166-182 | the if/elif chain sends every answer value to exactly one place |
| UserProfile.SummaryText | backend/app/services/user_profile_service.py:184-195 | "Profile incomplete." exactly when all three lists are empty; otherwise the text starts with one of the captions |
| UserProfile.SummaryShowsFirstFew | backend/app/services/user_profile_service.py:186-193 | only the first three interests, three strengths and two preferences can appear |
| UserProfile.FormatSummary | backend/app/services/user_profile_service.py:147-195 | an empty profile gives "No profile available.", and no other profile does |
| UserProfile.SummaryFailureSticks | backend/app/services/user_profile_service.py:162-166 | once a response fails, later ones do not change the error |
| UserProfile.FormatProfileSummary | backend/app/services/user_profile_service.py:147-195 | the loop that extends or appends to the three lists returns exactly `FormatSummary` |
| QuestionLookup.QuestionSteps | backend/app/utils/data_loaders.py:29-53 | each question of a list is visited once, in order, under its section's category |
| QuestionLookup.LoadQuestions | backend/app/utils/data_loaders.py:20-54 | on success every key of the lookup is the truthy id of one of the file's questions |
| QuestionLookup.LookupKeysAreIds | backend/app/utils/data_loaders.py:30-48 | every key of the lookup is the truthy id of some question |
| QuestionLookup.LaterOverwrites | backend/app/utils/data_loaders.py:32-53 | when ids repeat, an id holds the entry of its last question |
| QuestionLookup.FailureSticks | backend/app/utils/data_loaders.py:26-53 | once the walk fails, later questions do not change the result |
| QuestionLookup.BuildQuestions | backend/app/utils/data_loaders.py:20-54 | the two loops build exactly `LoadQuestions`, either file shape |
| QuestionLookup.LoadChatScript | backend/app/utils/data_loaders.py:70-81 | empty when `intro_chat` is missing, falsy or not a list; an error when the file is not an object; every key a truthy id |
| QuestionLookup.ChatKeysTruthy | backend/app/utils/data_loaders.py:75-77 | only truthy chat ids become keys |
| QuestionLookup.ChatKeyedById | backend/app/utils/data_loaders.py:75-79 | an item with a truthy `id` is stored under it, with `text or question or question_text`, whatever its `chat_id` |
| QuestionLookup.ChatFailureSticks | backend/app/utils/data_loaders.py:74-79 | once an item fails, later items do not change the result |
| QuestionLookup.BuildChatScript | backend/app/utils/data_loaders.py:70-81 | the loop over the intro chat builds exactly `LoadChatScript` |
| Auth.GenerateCode | backend/app/utils/auth_utils.py:10-12 | the code is six digits and reads back as the number drawn |
| Auth.CodesDistinct | backend/app/utils/auth_utils.py:10-12 | different draws give different codes |
| Auth.DigitsBound | backend/app/utils/auth_utils.py:12 | a draw below 1 000 000 has at most six digits, so `zfill(6)` only pads |
| Auth.ParseNatLeadingZeros | backend/app/utils/auth_utils.py:12 | the zeros `zfill` adds do not change the value |
| Auth.Utf8Len | backend/app/utils/auth_utils.py:17 | one character takes one to four bytes |
| Auth.Utf8Length | backend/app/utils/auth_utils.py:17 | a string has at least as many bytes as characters |
| Auth.BcryptInputAsWritten | backend/app/utils/auth_utils.py:14-19 | the code cuts an over-long password to its first 72 characters, and leaves one of at most 72 bytes alone |
| Auth.Utf8LengthRepeat | backend/app/utils/auth_utils.py:17 | n copies of a character take n times its size |
| Auth.MultiByteStaysTooLong | backend/app/utils/auth_utils.py:16-18 | 37 copies of "é" are 74 bytes, and the cut leaves all 74 |
| Auth.TruncateBytes | backend/app/utils/auth_utils.py:16 | the longest prefix that fits in the byte limit |
| Auth.BcryptInput | backend/app/utils/auth_utils.py:16 | the intended input: a prefix of the password within 72 bytes, the whole password when it fits |
| Auth.AsciiInputsAgree | backend/app/utils/auth_utils.py:16-18 | the two cuts agree whenever every character is one byte |
| Auth.AsciiLength | backend/app/utils/auth_utils.py:17 | an ASCII string has one byte per character |
| Auth.HashPasswordAsWritten | backend/app/utils/auth_utils.py:14-19 | as written: a password of at most 72 bytes is hashed as given, a longer one as its first 72 characters |
| Auth.HashPassword | backend/app/utils/auth_utils.py:14-19 | the corrected hash, which gives bcrypt the byte-limited BcryptInput: a password of at most 72 bytes is hashed as given, and an ASCII password exactly as the code as written hashes it |
| Auth.HashCutsDiffer | backend/app/utils/auth_utils.py:16-18 | for 37 copies of "é" (74 bytes) the code as written hashes all 37 characters, the corrected hash the first 36, which fill 72 bytes |
| Auth.ResetTable.CreateResetEntry | backend/app/utils/auth_utils.py:25-39 | the email's row is inserted or replaced, with expiry now plus the minutes given; other rows are kept |
| Auth.VerifyCode | backend/app/utils/auth_utils.py:41-52 | no row for the email refuses; with one, the code is accepted exactly when it equals the stored code and the expiry is strictly later than now |
| Auth.ResetThenVerify | backend/app/utils/auth_utils.py:25-52 | after a request the new code is accepted until the expiry and not at it or later, any other code is refused, other emails are untouched |
| Auth.DefaultWindow | backend/app/utils/auth_utils.py:25-52 | with the default ten minutes a fresh code is accepted for the next 600 seconds |
| AdminReview.SortColumn | backend/app/services/admin_review_service.py:43-48 | `last_login` and `name` pick their columns exactly; every other value sorts by creation time |
| AdminReview.SortDirection | backend/app/services/admin_review_service.py:50-53 | ascending exactly for "asc", descending for anything else |
| AdminReview.Searched | backend/app/services/admin_review_service.py:31-41 | no search and "" keep the table; otherwise exactly the users matching a name, the email or a numeric id |
| AdminReview.MaxOf | backend/app/services/admin_review_service.py:43-53 | the largest non-NULL value of the sort column bounds every value |
| AdminReview.Ordered | backend/app/services/admin_review_service.py:50-53 | a permutation of the filtered users, ascending on the chosen column's key for "asc" and descending for "desc", with NULLs ranked above every value |
| AdminReview.NullsOrder | backend/app/services/admin_review_service.py:51-53 | ascending by a nullable column puts every NULL after every value, descending puts them first |
| AdminReview.Window | backend/app/services/admin_review_service.py:62 | `OFFSET o LIMIT n` gives at most n rows, the rows from position o on, as many as are left |
| AdminReview.ListUsers | backend/app/services/admin_review_service.py:14-67 | the page fails exactly when offset or size is negative; the total counts every match; the items are at most one page, all matches |
| AdminReview.PagePositions | backend/app/services/admin_review_service.py:57-62 | the k-th user on page p is the ((p-1)·size + k)-th of the sorted matches, with 0 read as page 1 and size 10 |
| AdminReview.FirstReview | backend/app/services/admin_review_service.py:121-127 | the position of the first review of the user, or none when the user has none |
| AdminReview.FirstReviewAt | backend/app/services/admin_review_service.py:121-127 | the review a lookup meets first is the one `.first()` returns |
| AdminReview.AdminStore.GetOrCreateReview | backend/app/services/admin_review_service.py:112-136 | the user's existing review whoever created it, else a blank review owned by the admin, appended with the next id; the log is untouched |
| AdminReview.SetField | backend/app/api/routes/admin_routes.py:232 | `setattr` changes the named field and no other |
| AdminReview.ApplyFieldsEach | backend/app/api/routes/admin_routes.py:219-232 | each visited field holds the payload's value when one is given, its old value otherwise; fields not visited are kept |
| AdminReview.FieldLogsStep | backend/app/api/routes/admin_routes.py:228-241 | each field is compared against the value stored before the update |
| AdminReview.FieldLogsSound | backend/app/api/routes/admin_routes.py:229-241 | every audit entry is that of a field whose given value differs from the stored one |
| AdminReview.FieldLogsComplete | backend/app/api/routes/admin_routes.py:229-241 | every such field has its audit entry |
| AdminReview.FieldLogsOnce | backend/app/api/routes/admin_routes.py:219-241 | no field is logged twice |
| AdminReview.UpdateFieldwise | backend/app/api/routes/admin_routes.py:210-232 | the update writes exactly the given fields and leaves the id, user, admin and score alone |
| AdminReview.UnchangedNotLogged | backend/app/api/routes/admin_routes.py:231 | a payload that repeats the stored values logs nothing |
| AdminReview.AdminStore.UpdateReview | backend/app/api/routes/admin_routes.py:201-256 | the saved review is the found review, or a new blank one owned by the admin, with the field loop applied; it replaces the found row in place or is appended as the only new row; the review id counter moves only on creation; the log grows by exactly that loop's entries |
| AdminReview.AdminStore.GetReview | backend/app/api/routes/admin_routes.py:157-192 | the found review, or a blank one that only takes the next id: the route never commits, so the reviews and the log are unchanged; the id returned is the review's, and empty summaries are filled from the generators for the response only |
| AdminRoutes.DecodeSort | backend/app/api/routes/admin_routes.py:51-68 | the four combined sort values decode to column and direction; anything else is newest-created first |
| AdminRoutes.DecodedSortIsKnown | backend/app/api/routes/admin_routes.py:51-80 | the service always receives a column it sorts by and a direction it knows |
| AdminRoutes.CeilDiv | backend/app/api/routes/admin_routes.py:83 | `math.ceil(a / b)` is the least q with q·b ≥ a |
| AdminRoutes.ListUsersAsWritten | backend/app/api/routes/admin_routes.py:30-91 | the route as written succeeds only with a non-zero page size |
| AdminRoutes.ZeroPageSizeFails | backend/app/api/routes/admin_routes.py:83 | with `page_size=0` the service pages by 10 but the route divides by zero (also backend/app/services/admin_review_service.py:58) |
| AdminRoutes.ListUsersRoute | backend/app/api/routes/admin_routes.py:30-91 | succeeds exactly when the service does; then the page carries the service's items and total, the page and page size as given, and `CeilDiv(total, page_size or 10)` pages, which cover the total |
| AdminRoutes.RoutesAgree | backend/app/api/routes/admin_routes.py:83 | the two routes agree whenever a page size is given |
| AdminRoutes.GetUser | backend/app/api/routes/admin_routes.py:95-102 | the user with the id when there is one, else 404 "User not found" (also backend/app/services/admin_review_service.py:169-170) |
| RecommendationRoutes.TargetUser | backend/app/api/routes/recommendation_routes.py:60-111 | the target is the explicit id, else the caller's; 400 when neither exists, 403 when the caller asks for someone else; succeeds exactly otherwise |
| RecommendationRoutes.AuthenticatedOwnOnly | backend/app/api/routes/recommendation_routes.py:70-140 | an authenticated caller only ever reaches its own recommendations |
| RecommendationRoutes.DetailTarget | backend/app/api/routes/recommendation_routes.py:257-267 | `career_detail` checks 403 before 400; a success targets the requested user |
| RecommendationRoutes.DetailOrderIrrelevant | backend/app/api/routes/recommendation_routes.py:257-267 | the two orders of the checks cannot disagree |
| RecommendationRoutes.ActionTarget | backend/app/api/routes/recommendation_routes.py:210-236 | `payload.user_id or ...`: a non-zero id is checked as elsewhere, an explicit 0 counts as absent |
| RecommendationRoutes.ZeroIdDiffers | backend/app/api/routes/recommendation_routes.py:61 | for user 0 the `or` and the `is not None` targets give different outcomes (also line 210) |
| RecommendationRoutes.GenerateResponse | backend/app/api/routes/recommendation_routes.py:39-87 | a failed target check is that error; otherwise the service's cards or its mapped error |
| RecommendationRoutes.MapGenerateError | backend/app/api/routes/recommendation_routes.py:80-83 | ValueError becomes 404, RuntimeError 400, anything else passes through |
| RecommendationRoutes.MapActionError | backend/app/api/routes/recommendation_routes.py:219-241 | ValueError becomes 400, anything else passes through |
| RecommendationRoutes.RecordActionAsWritten | backend/app/api/routes/recommendation_routes.py:202-243 | as written: the target check's error first; an unknown career is 400 "Career profile not found"; a save over a dismiss or explore row is a 500 (the unique key of backend/app/models/user_recommendation.py:48-50 fails at commit); otherwise the table the service's `favorite` leaves |
| RecommendationRoutes.RecordAction | backend/app/api/routes/recommendation_routes.py:202-243 | corrected (over ActionLedger.Favorite): the target check's error first; then success exactly for a known career, with the table the corrected `favorite` leaves for "favorite" or "dismiss"; an unknown career is 400 "Career profile not found" |
| RecommendationRoutes.RecordActionsAgree | backend/app/api/routes/recommendation_routes.py:202-243 | the two routes agree except for a save over a dismiss or explore row |
| RecommendationRoutes.DismissLeavesRow | backend/app/api/routes/recommendation_routes.py:225-243 | a dismiss that succeeds leaves a "dismiss" row for the target and career |
| CoachRoutes.NewlinesToSpaces | backend/app/api/routes/ai_coach_routes.py:364 | every CR and LF becomes a space, nothing else changes |
| CoachRoutes.AsciiOnly | backend/app/api/routes/ai_coach_routes.py:365 | the characters kept are exactly the ASCII characters of the input, never more of them |
| CoachRoutes.AsciiOnlyChar | backend/app/api/routes/ai_coach_routes.py:365 | one character is kept exactly when it is ASCII |
| CoachRoutes.AsciiOnlyAppend | backend/app/api/routes/ai_coach_routes.py:365 | dropping non-ASCII distributes over concatenation, so the kept characters keep their order |
| CoachRoutes.AsciiOnlyKeepsAscii | backend/app/api/routes/ai_coach_routes.py:365 | an ASCII string is kept as it is |
| CoachRoutes.SanitizeHeader | backend/app/api/routes/ai_coach_routes.py:360-366 | "" stays ""; otherwise the first 200 characters of the value with CR and LF turned into spaces and non-ASCII dropped; always one ASCII line of at most 200 characters, and a value already like that is kept |
| CoachRoutes.SanitizeExample | backend/app/api/routes/ai_coach_routes.py:360-366 | "a" CR LF "b€" is sent as "a  b": each line break a space, the euro sign dropped |
| CoachRoutes.SanitizeIdempotent | backend/app/api/routes/ai_coach_routes.py:360-366 | sanitising twice is sanitising once |
| CoachRoutes.RemoveFirst | backend/app/api/routes/ai_coach_routes.py:57-58 | `list.remove` takes out one occurrence when there is one |
| CoachRoutes.ConnectionManager.Connect | backend/app/api/routes/ai_coach_routes.py:52-54 | the accepted socket is appended |
| CoachRoutes.ConnectionManager.Disconnect | backend/app/api/routes/ai_coach_routes.py:56-58 | one occurrence of the socket is removed; an unlisted socket changes nothing |
| CoachRoutes.ConnectThenDisconnect | backend/app/api/routes/ai_coach_routes.py:52-58 | connecting a socket and then disconnecting it leaves the list as before |
| CoachRoutes.ParseFrame | backend/app/api/routes/ai_coach_routes.py:421-430 | text that is not JSON is the question, with no user and a new session; JSON that is not an object fails; an object gives its three keys with their defaults |
| CoachRoutes.FrameHasSession | backend/app/api/routes/ai_coach_routes.py:426-430 | a parsed frame always has a truthy session id |
| CoachRoutes.WithUnlockPrompt | backend/app/api/routes/ai_coach_routes.py:447-450 | `unlock_prompt` is true exactly when `trigger_explore_unlock is True`; every other key is kept |
| CoachRoutes.OnlyTrueUnlocks | backend/app/api/routes/ai_coach_routes.py:447 | a truthy value that is not the boolean `True` does not unlock |
| CoachRoutes.SessionIdFor | backend/app/api/routes/ai_coach_routes.py:113 | a non-empty header is the session id, otherwise a new one (also line 270) |
| CoachRoutes.NewestMatching | backend/app/api/routes/ai_coach_routes.py:153-156 | the user's message with the highest id whose text starts with the content, ignoring case; none exactly when there is no such message |
| CoachRoutes.Upsert | backend/app/api/routes/ai_coach_routes.py:161-192 | an existing row for (user, message) takes the new type and nothing else changes, no other row either; otherwise one row is appended with session "default", no question, the message text as the response and the current time |
| CoachRoutes.SubmitFeedbackAsWritten | backend/app/api/routes/ai_coach_routes.py:145-204 | as written, a missing message gives a 500 whose detail is the 404's text |
| CoachRoutes.SubmitFeedback | backend/app/api/routes/ai_coach_routes.py:132-204 | 401 without a user; 404 exactly when no message matches; otherwise the matched message's feedback |
| CoachRoutes.MissingMessageIs500 | backend/app/api/routes/ai_coach_routes.py:158-204 | a signed-in user with no matching message sees 500 where 404 was meant |
| CoachRoutes.SubmitAgrees | backend/app/api/routes/ai_coach_routes.py:145-204 | apart from the missing-message error, the two agree |
| CoachRoutes.SubmitNeverDuplicates | backend/app/api/routes/ai_coach_routes.py:161-192 | one row per user and message, holding the latest type; the table grows only for a new row |
| ExploreMatchesPage.ReasonsOf | frontend/src/pages/ExploreMatches.tsx:257-272 | one reason per non-empty line of the explanation, in order, each with the icon of its position cycling through six |
| ExploreMatchesPage.Texts | frontend/src/pages/ExploreMatches.tsx:271 | the texts of the reasons, in order |
| ExploreMatchesPage.ReasonsRejoin | frontend/src/pages/ExploreMatches.tsx:257-259 | an explanation without blank lines loses nothing: the reasons rejoin into it |
| ExploreMatchesPage.OrText | frontend/src/pages/ExploreMatches.tsx:251-256 | `x \|\| fallback`: a non-empty value is kept, a missing or empty one gives the fallback |
| ExploreMatchesPage.ToCard | frontend/src/pages/ExploreMatches.tsx:248-275 | the card keeps the id and title, shows the fit score rounded, the industry (else "General") and growth (else "→ 0%") never empty, the skills and tips or none, and is bookmarked exactly when the action is "saved" |
| ExploreMatchesPage.MatchPercentBounds | frontend/src/pages/ExploreMatches.tsx:255 | a fit score in [0, 100] shows as a whole percentage in [0, 100] |
| ExploreMatchesPage.MissingTrendStable | frontend/src/pages/ExploreMatches.tsx:256 | a missing growth trend shows as the stable "0%" badge (also frontend/src/components/CareerPathCard.tsx:57-89) |
| ExploreMatchesPage.SplitTwoLines | frontend/src/pages/ExploreMatches.tsx:258 | two lines without breaks split into those two lines |
| ExploreMatchesPage.BulletNoBreak | frontend/src/pages/ExploreMatches.tsx:258 | a bullet line without a break stays one line |
| ExploreMatchesPage.BulletStripped | frontend/src/components/CareerPathCard.tsx:55 | a "• " bullet and the spaces around its text come off |
| ExploreMatchesPage.BulletPairShown | frontend/src/pages/ExploreMatches.tsx:257-272 | two bullet lines become the two reasons shown, without their bullets (also frontend/src/components/CareerPathCard.tsx:155-162) |
| ExploreMatchesPage.FallbackExplanationShown | backend/app/services/recommendation_service.py:426-450 | the backend's fallback explanation appears on the card as its two sentences (also frontend/src/pages/ExploreMatches.tsx:257-272) |
| ExploreMatchesPage.JsRem | frontend/src/pages/ExploreMatches.tsx:83-85 | JavaScript `%`: the remainder takes the dividend's sign, and `% 0` is NaN |
| ExploreMatchesPage.ModSmall | frontend/src/pages/ExploreMatches.tsx:83 | a number below the length is its own remainder |
| ExploreMatchesPage.ModOnce | frontend/src/pages/ExploreMatches.tsx:83-85 | a number between the length and twice it loses one length |
| ExploreMatchesPage.CarouselWraps | frontend/src/pages/ExploreMatches.tsx:82-85 | from a card both arrows reach a card, wrapping at the ends |
| ExploreMatchesPage.Render | frontend/src/pages/ExploreMatches.tsx:222-249 | the empty state exactly for no cards; the page throws exactly when the index is off the list; otherwise the indexed card (also line 131) |
| ExploreMatchesPage.ValidRenders | frontend/src/pages/ExploreMatches.tsx:131 | the page renders exactly when the index names a card or there are none (also line 249) |
| ExploreMatchesPage.HandleNext | frontend/src/pages/ExploreMatches.tsx:82-83 | the list is kept and the index moves forward with wrap-around |
| ExploreMatchesPage.HandlePrevious | frontend/src/pages/ExploreMatches.tsx:84-85 | the list is kept and the index moves back with wrap-around |
| ExploreMatchesPage.Save | frontend/src/pages/ExploreMatches.tsx:91-95 | the cards with the id take the new action, the others are kept, the length is kept |
| ExploreMatchesPage.HandleSave | frontend/src/pages/ExploreMatches.tsx:88-98 | the list is rewritten by Save, keeping its length; the index stays |
| ExploreMatchesPage.BookmarkFlips | frontend/src/pages/ExploreMatches.tsx:88-95 | the bookmark on the card shown flips it and changes nothing else shown (also frontend/src/components/CareerPathCard.tsx:106) |
| ExploreMatchesPage.SaveIdempotent | frontend/src/pages/ExploreMatches.tsx:91-95 | saving twice with the same state is saving once |
| ExploreMatchesPage.Dismiss | frontend/src/pages/ExploreMatches.tsx:104 | exactly the cards with another id remain |
| ExploreMatchesPage.DismissUnique | frontend/src/pages/ExploreMatches.tsx:104 | dismissing the one card with that id removes exactly it |
| ExploreMatchesPage.HandleDismissAsWritten | frontend/src/pages/ExploreMatches.tsx:101-108 | as written: the list loses the dismissed cards and the index stays where it was, even past the new end |
| ExploreMatchesPage.HandleDismiss | frontend/src/pages/ExploreMatches.tsx:101-108 | corrected: the card goes, and the index stays unless it fell off the end, so it always names a card |
| ExploreMatchesPage.HandleLoadMore | frontend/src/pages/ExploreMatches.tsx:117-129 | the refreshed batch replaces the list and the index returns to its first card |
| ExploreMatchesPage.HandlersKeepValid | frontend/src/pages/ExploreMatches.tsx:82-129 | every handler of the corrected page keeps the index on a card |
| ExploreMatchesPage.DismissLastCardCrashes | frontend/src/pages/ExploreMatches.tsx:101-108 | as written, declining the last of several cards while it is shown makes the page throw; the corrected handler shows the new last card (also lines 131, 249) |
| ExploreMatchesPage.DismissSecondOfTwo | frontend/src/pages/ExploreMatches.tsx:101-108 | two cards, the second shown and declined: the page throws (also lines 131, 249) |
| CareerPathCard.CleanText | frontend/src/components/CareerPathCard.tsx:55 | one leading bullet and the spaces after it come off, then the text is trimmed |
| CareerPathCard.CleanBullet | frontend/src/components/CareerPathCard.tsx:54-55 | a "• " bullet before trimmed text comes off; trimmed text without a bullet is left alone |
| CareerPathCard.OneBulletOnly | frontend/src/components/CareerPathCard.tsx:55 | only one bullet is removed |
| CareerPathCard.MatchedNumber | frontend/src/components/CareerPathCard.tsx:62-63 | the first number matched, or "0" |
| CareerPathCard.ParseGrowth | frontend/src/components/CareerPathCard.tsx:57-89 | an empty string is stable "0%"; an up or down arrow first after trimming decides the badge, with "+" or "-" before the number, anything else is stable |
| CareerPathCard.ParseShortTrend | frontend/src/components/CareerPathCard.tsx:57-89 | a short growth string with a whole percentage gives the badge its arrow means (also backend/app/services/recommendation_service.py:570-592) |
| CareerPathCard.DownWithMinusDoubled | frontend/src/components/CareerPathCard.tsx:62-79 | a falling trend written with its own minus shows two minus signs |
| CareerPathCard.DefaultTrendStable | frontend/src/components/CareerPathCard.tsx:58-87 | the default "→ 0%" and the empty string both show as stable "0%" |
| CareerPathCard.ShownReasons | frontend/src/components/CareerPathCard.tsx:155-162 | the first two reasons, each cleaned |
| CareerPathCard.ShownSkills | frontend/src/components/CareerPathCard.tsx:177 | the first four skills |
| MicroStepsPage.StatusOf | frontend/src/pages/MicroSteps.tsx:80-84 | "completed" and "in_progress" are recognised exactly; anything else, a missing status included, is unexplored |
| MicroStepsPage.StatusesCorrespond | frontend/src/pages/MicroSteps.tsx:80-84 | the three statuses the backend accepts map one-to-one onto the three shown (also backend/app/api/routes/microstep_routes.py:157-158) |
| MicroStepsPage.MapSteps | frontend/src/pages/MicroSteps.tsx:110-140 | one shown step per plan step: its position as id, its mapped status, `Step n` and "" for a missing title and description |
| MicroStepsPage.Percent | frontend/src/pages/MicroSteps.tsx:159 | `Math.round(done / total * 100)`, the nearest whole percentage, 0 for an empty plan; in [0, 100], 0 with nothing done, 100 with everything done |
| MicroStepsPage.PercentMonotone | frontend/src/pages/MicroSteps.tsx:159 | more steps done never shows less |
| MicroStepsPage.Progress | frontend/src/pages/MicroSteps.tsx:157-159 | `Math.round` of the share of completed steps times 100, 0 for an empty plan; 0 with nothing done, 100 when all are done |
| MicroStepsPage.CompletingRaisesProgress | frontend/src/pages/MicroSteps.tsx:157-159 | completing one more step counts it and never lowers the bar |
| MicroStepsPage.Filtered | frontend/src/pages/MicroSteps.tsx:161-164 | "all" shows every step; a status tab shows exactly the steps with that status |
| MicroStepsPage.TabsPartition | frontend/src/pages/MicroSteps.tsx:161-164 | every step is under exactly one of the three status tabs |
| MicroStepsPage.Find | frontend/src/pages/MicroSteps.tsx:170 | a step with the id when there is one, none exactly when no step has it |
| MicroStepsPage.TakeStep | frontend/src/pages/MicroSteps.tsx:169-182 | nothing without a step of that id; otherwise that step, in progress, with its index |
| MicroStepsPage.FindPosition | frontend/src/pages/MicroSteps.tsx:111-170 | in a mapped list the step found for an id is the one at that position |
| MicroStepsPage.TakeListedStep | frontend/src/pages/MicroSteps.tsx:110-182 | "Take step" on a listed step opens exactly that step, in progress |
| CoachChatPage.MergeChunk | frontend/src/pages/AICoachChat.tsx:119-129 | a chunk extends the assistant's last message, or starts a new assistant message; earlier messages are kept |
| CoachChatPage.StreamedReply | frontend/src/pages/AICoachChat.tsx:118-131 | after the user's message, the streamed chunks form one assistant message holding them in order |
| CoachChatPage.OnMessage | frontend/src/pages/AICoachChat.tsx:115-140 | a frame that does not parse, or is null, clears both flags; a truthy answer is merged and streaming starts; `done === true` clears both flags |
| CoachChatPage.FinalChunkClears | frontend/src/pages/AICoachChat.tsx:118-135 | a last frame with both a chunk and `done` keeps the chunk and clears both flags |
| CoachChatPage.Send | frontend/src/pages/AICoachChat.tsx:187-193 | nothing is sent for blank input or a missing uid or session; otherwise the trimmed text is appended as the user's message and sent |
| CoachChatPage.Delivered | frontend/src/pages/AICoachChat.tsx:195-222 | over the socket streaming starts; an answer is appended, "..." when empty; a failure appends the warning and stops loading |
| CoachChatPage.SendThenStream | frontend/src/pages/AICoachChat.tsx:115-203 | a streamed reply to a sent message lands right after it |
| CoachChatPage.ToggleFeedback | frontend/src/pages/AICoachChat.tsx:322 | pressing the current vote clears it, any other press sets that vote |
| CoachChatPage.ToggleTwice | frontend/src/pages/AICoachChat.tsx:322 | pressing the same button twice ends set exactly when it started set to it |
| CoachChatPage.FeedbackToSend | frontend/src/pages/AICoachChat.tsx:328-340 | a request exactly for a signed-in vote on an existing assistant message, carrying its type and the first 50 characters |
| CoachChatPage.HandleFeedback | frontend/src/pages/AICoachChat.tsx:319-326 | the vote map takes the toggled vote; a request is sent exactly when a session exists and the guard passes |
| CoachChatPage.NoRequestForClearOrUser | frontend/src/pages/AICoachChat.tsx:322-335 | un-voting sends nothing, and a vote on the user's own message is never sent |
| CoachChatPage.LowerPrefix | backend/app/api/routes/ai_coach_routes.py:155 | lower-casing a prefix gives a prefix of the lower-cased text |
| CoachChatPage.PreviewFindsMessage | frontend/src/pages/AICoachChat.tsx:336-340 | the preview sent matches its stored message on the backend (also backend/app/api/routes/ai_coach_routes.py:153-156) |
| CoachChatPage.ChatPage.OnFrame | frontend/src/pages/AICoachChat.tsx:115-140 | the messages and flags become `OnMessage` of the old ones; input and votes are kept |
| CoachChatPage.ChatPage.SendMessage | frontend/src/pages/AICoachChat.tsx:187-223 | the state becomes `Send` then `Delivered` of the old one; votes are kept |
| CoachChatPage.ChatPage.Vote | frontend/src/pages/AICoachChat.tsx:319-326 | the votes become `HandleFeedback` of the old ones; messages, flags and input are kept |
| CoachChatPage.Skip | frontend/src/pages/AICoachChat.tsx:294-297 | the new time is the old one moved by s, clamped to [0, duration] |
| CoachChatPage.FormatTime | frontend/src/pages/AICoachChat.tsx:308-316 | two-or-more-digit minutes, ":", two-or-more-digit seconds: at least five characters |
| CoachChatPage.Pad2 | frontend/src/pages/AICoachChat.tsx:310-314 | padding gives at least two characters |
| CoachChatPage.FormatTimeClock | frontend/src/pages/AICoachChat.tsx:308-316 | a time shows as whole minutes, ":", the seconds left over, each padded to two digits; five characters below 100 minutes |
| QuestionnairePage.Next | frontend/src/pages/Questionnaire.tsx:103-124 | off a question it throws; it blocks exactly on an unanswered required question; otherwise the next question, else the next section's first, else the completion popup |
| QuestionnairePage.Back | frontend/src/pages/Questionnaire.tsx:126-136 | one question back, else the last question of the previous section, else off to the journey page |
| QuestionnairePage.NextStaysOnQuestions | frontend/src/pages/Questionnaire.tsx:116-120 | with no empty section, moving on lands on a question |
| QuestionnairePage.BackStaysOnQuestions | frontend/src/pages/Questionnaire.tsx:126-136 | with no empty section, going back lands on a question, and leaves the page exactly from the first |
| QuestionnairePage.BackUndoesNext | frontend/src/pages/Questionnaire.tsx:103-136 | Back undoes Next |
| QuestionnairePage.NextUndoesBack | frontend/src/pages/Questionnaire.tsx:103-136 | Next undoes Back for an answered question |
| QuestionnairePage.ProgressPct | frontend/src/pages/Questionnaire.tsx:78-80 | no number for an empty section; otherwise `Math.round((question + 1) / total * 100)`, within [0, 100] on a question and 100 on the last |
| QuestionnairePage.ProgressMonotone | frontend/src/pages/Questionnaire.tsx:80 | later questions never show less progress |
| QuestionnairePage.Toggle | frontend/src/pages/Questionnaire.tsx:162-221 | a selected option is removed; a new one is appended unless the selection is full, when the click is ignored |
| QuestionnairePage.ToggleKeepsCap | frontend/src/pages/Questionnaire.tsx:165-166 | a selection within the cap stays within it |
| QuestionnairePage.ToggleTwice | frontend/src/pages/Questionnaire.tsx:162-169 | clicking a new option twice gives back the selection it started from |
| QuestionnairePage.RestoredKeepsLast | frontend/src/pages/Questionnaire.tsx:57-61 | every saved question is restored with its last saved answer, strings as they are and anything else stringified |
| QuestionnairePage.RestoredKeys | frontend/src/pages/Questionnaire.tsx:57-61 | only saved questions are restored |
| QuestionnairePage.RestoreResponses | frontend/src/pages/Questionnaire.tsx:55-62 | the `forEach` over the saved rows builds exactly `Restored` |
| SidebarNav.Distinct | frontend/src/components/Sidebar.tsx:79-90 | each answered category once, nothing else |
| SidebarNav.FindIndex | frontend/src/components/Sidebar.tsx:86 | the first section with the category, or -1 exactly when none has it or the category is missing |
| SidebarNav.CompletedExactly | frontend/src/components/Sidebar.tsx:79-90 | a section is completed exactly when some response carries its category and no earlier section has the same category |
| SidebarNav.SectionClick | frontend/src/components/Sidebar.tsx:168-249 | a click opens the section exactly when it and the one before it are completed, with the section's questionnaire path |
| SidebarNav.LocksDisagree | frontend/src/components/Sidebar.tsx:168-249 | the drawn lock and the handler's lock disagree in both directions |
| SidebarNav.InOrderProgress | frontend/src/components/Sidebar.tsx:168-249 | with sections answered in order, exactly the completed ones open |
| SidebarNav.CompletionAfterFetch | frontend/src/components/Sidebar.tsx:103-121 | an ok response sets completion exactly when `is_completed` is `true`; a failed one keeps the old value |
| SidebarNav.UnlockAfterFetch | frontend/src/components/Sidebar.tsx:126-157 | the user record unlocks exactly when `is_career_unlock_confirmed` is `true`; a failed fetch keeps the old value |
| SidebarNav.OnlyTrueUnlocks | frontend/src/components/Sidebar.tsx:141-150 | truthy values other than `true` do not unlock |
| SidebarNav.CoachClick | frontend/src/components/Sidebar.tsx:162-166 | the coach opens exactly when the questionnaire is complete |
| SidebarNav.ExploreMatchesClick | frontend/src/components/Sidebar.tsx:181-185 | the matches page opens exactly when unlocked |
| SidebarNav.SavedCareersClick | frontend/src/components/Sidebar.tsx:187-191 | the saved careers page opens exactly when unlocked |
| SidebarNav.MatchesStayLocked | frontend/src/components/Sidebar.tsx:141-191 | without a record saying exactly `true`, neither matches page opens |
| VerifyCodePage.EmptyCode | frontend/src/pages/VerifyCode.tsx:7 | six empty cells |
| VerifyCodePage.CompleteCodeIsSixDigits | frontend/src/pages/VerifyCode.tsx:61-92 | a complete code joins into exactly six digits |
| VerifyCodePage.Typed | frontend/src/pages/VerifyCode.tsx:20-30 | a value that is neither empty nor one digit changes nothing; otherwise the cell takes it |
| VerifyCodePage.FocusAfterTyping | frontend/src/pages/VerifyCode.tsx:26-28 | the focus moves only after a digit typed into one of the first four cells, to the next cell |
| VerifyCodePage.TypingKeepsWellFormed | frontend/src/pages/VerifyCode.tsx:20-30 | typing keeps every cell empty or one digit |
| VerifyCodePage.FifthCellKeepsFocus | frontend/src/pages/VerifyCode.tsx:26 | the guard `index < 4` leaves the focus on the fifth cell after a digit there |
| VerifyCodePage.Pasted | frontend/src/pages/VerifyCode.tsx:38-56 | the first six characters are read, each digit written over the cell at its position |
| VerifyCodePage.FirstEmpty | frontend/src/pages/VerifyCode.tsx:50 | the first empty cell, or -1 exactly when the code is complete |
| VerifyCodePage.FocusAfterPaste | frontend/src/pages/VerifyCode.tsx:50-52 | the first empty cell, or the fifth when none is empty |
| VerifyCodePage.PasteKeepsWellFormed | frontend/src/pages/VerifyCode.tsx:38-56 | pasting keeps every cell empty or one digit |
| VerifyCodePage.PasteSixDigits | frontend/src/pages/VerifyCode.tsx:38-61 | pasting six digits fills the code with exactly those digits |
| VerifyCodePage.PasteWithoutDigits | frontend/src/pages/VerifyCode.tsx:43-47 | a paste with no digits changes nothing |
| VerifyCodePage.LaterCellsUntouched | frontend/src/pages/VerifyCode.tsx:41-47 | the paste loop reads at most six characters, all of them within the cells |
| VerifyCodePage.VerifyCodeForm.CodeChange | frontend/src/pages/VerifyCode.tsx:20-30 | the cells become `Typed`, the focus `FocusAfterTyping`; every cell stays empty or one digit |
| VerifyCodePage.VerifyCodeForm.Paste | frontend/src/pages/VerifyCode.tsx:38-56 | the cells become `Pasted`, the focus `FocusAfterPaste` of the new cells |
| VerifyCodePage.VerifyCodeForm.KeyDown | frontend/src/pages/VerifyCode.tsx:32-36 | Backspace in an empty cell other than the first moves the focus back one; nothing else changes |
| VerifyCodePage.VerifyCodeForm.Resend | frontend/src/pages/VerifyCode.tsx:75-90 | a resend that goes through empties the cells and focuses the first; a failure keeps them and shows the error |
| SetNewPasswordPage.Utf16Length | frontend/src/pages/SetNewPassword.tsx:33 | `length` counts one or two code units per character |
| SetNewPasswordPage.HandleSubmit | frontend/src/pages/SetNewPassword.tsx:20-51 | "fill in" exactly when a field is empty, "do not match" exactly for two different filled fields, "too short" exactly for matching passwords under six units; otherwise the reset with the typed password |
| SetNewPasswordPage.ResetOnlyWhenAcceptable | frontend/src/pages/SetNewPassword.tsx:25-41 | the backend is called exactly for matching passwords of at least six units, with the password typed |
| SetNewPasswordPage.FirstFailureWins | frontend/src/pages/SetNewPassword.tsx:25-36 | only the first failed check is reported |
| SetNewPasswordPage.AstralCharactersCountTwice | frontend/src/pages/SetNewPassword.tsx:33 | three characters outside the Basic Multilingual Plane pass the six-unit check |

## Left out

- **Foreign calls.** HTTP to O*NET and Adzuna, the LLM, embeddings, the vector store, text-to-speech and speech-to-text are left out. Their results are inputs of the model.
- **Parameters of the model.** The clock, random draws, `uuid4`, bcrypt, JSON decoding and the database sessions are parameters. Tables are sequences or maps keyed by their unique columns.
- **Python `str()`.** How it spells a float, a list or a dict is the parameter `repr` (`UserProfile`). JSON stringification on the frontend is also a parameter.
- **Unicode text.** Whitespace, case folding and `isdigit` are ASCII only. Python's and JavaScript's Unicode whitespace, their case tables and the Unicode digit classes are not modelled. JavaScript's `\s` is taken as the ASCII spaces.
- **Floating point.** Scores, percentages and times are exact `real`s, not binary floats. Rounding ties can differ from IEEE arithmetic.
- **Numerics given as reals.** The cosine similarity and the regression slope are given reals. `statistics.quantiles` and `statistics.median` are inputs. `f"{:.1f}"` is modelled on the decimal text, not on a float.
- SalaryRange.ParseFloat: reads only plain decimal text, with an optional sign, digits, an optional fraction and surrounding whitespace. Python's `float()` also accepts exponents ("1e5"), a bare fraction or point (".5", "5."), underscores ("1_000"), "nan" and "inf". The model reads all of these as no number. In `_coerce_numeric` (backend/app/services/recommendation_service.py:172-180), "nan" also ends as no number, since `round` raises the ValueError that is caught. "inf" instead makes `round` raise an OverflowError that nothing catches, which is a 500.
- **JSON dict keys.** In Python, `1` and `True` are the same dict key. The model keeps `JInt` and `JBool` distinct. A decoded object is given as its items in file order. For a repeated key, `json.load` keeps the last value at the first key's place. QuestionLookup.ItemValue reads that last value, but the walk over a category-keyed questions file still meets every repeated entry.
- **Database behaviour.**
  - The collation of an `ORDER BY` on strings is a parameter. NULLs sort last ascending, as in PostgreSQL.
  - Rows with equal sort keys keep their input order; the database does not promise an order for them.
  - `%` and `_` inside an admin search are not read as LIKE wildcards.
- CoachRoutes.NewestMatching: reads the `ilike(f"{message_content}%")` of `submit_feedback` (backend/app/api/routes/ai_coach_routes.py:155) as a literal, case-insensitive prefix; a `%` or `_` inside the message content is a wildcard to the database and matches more messages than the model's prefix does.
- **Persistence plumbing.** Commit, rollback and transaction isolation are left out, except where they decide what the tables hold. Where they do, the model follows them: the bulk questionnaire save looks up only rows stored before the batch, because the session does not autoflush; an admin review that is only flushed is not kept, because the route never commits.
- **Catch-all handlers.** An `except Exception` that turns an arbitrary database failure into a 500 is modelled only for the errors the model itself raises.
- **The admin user list.** It orders by `User.created_at` and `User.last_login`. The `User` model in `backend/app/models/user.py` declares neither column. The model gives users both fields, as the service assumes.
- **Unset journey fields.** An explicit JSON `null` for a journey flag passes the schema and then fails the NOT NULL commit. This is not modelled: payload fields are present booleans or absent.
- **Malformed bulk items.** Bulk questionnaire items are typed records. Items that fail only at commit are not modelled.
- **Progress rows.** There is one progress row per user, as the service reads it with `.first()`.
- Confidence.ComputeAiConfidence: leaves the journey row unchanged. The attributes `ai_confidence_score` and `ai_confidence_breakdown` (backend/app/services/ai_confidence_service.py:206-207) are not columns, so nothing reaches the database.
- **The final-data refresh.** The questionnaire service refreshes the final data after saves (backend/app/services/questionnaire_service.py:64-69, 104-109, 268-272). That policy is modelled in `FinalData` but not chained into the `Questionnaire` store.
- **Other microstep routes.** Generate, get, delete and summary (backend/app/api/routes/microstep_routes.py:27-132, 219-284, 378-415) are plan generation and plain reads outside the modelled core.
- **Deleting feedback.** `delete_feedback` (backend/app/services/ai/feedback_service.py:148-154) is a plain row delete and is not modelled.
- **Other chat-history queries.** Search, the after-date query and `delete_old_sessions` (backend/app/services/ai/chat_history_service.py:202-243, 301-315) are database queries with no rules of their own and are not modelled.
- **Admin session views.** `list_user_sessions` and `get_session_messages` of backend/app/services/admin_review_service.py are plain reads and are not modelled.
- **The salary-statistics path.** `adzuna_salary_stats` is modelled as `AdzunaData.StatsSalary`, `AdzunaData.ListingSalary`, `AdzunaData.SearchSalary` and `AdzunaData.AdzunaSalaryStats`. Its two HTTP requests, the caught `httpx.HTTPError` and `statistics.quantiles` and `statistics.median` are inputs, as under "Foreign calls" and "Numerics given as reals".
- **Password reset.** `password_reset_service.py` and its Firebase update are not part of this model. The reset-code rules of `auth_utils.py` are.
- **Concurrency.** The websocket receive loop, async ordering, audio playback and browser timers are left out.
- **FastAPI request validation.** A 422 for an ill-typed request is not modelled. Patterns on query parameters appear as the values the handlers can receive.
- **Frontend plumbing.** `fetch`, navigation, `alert`, rendering and `localStorage` are left out.
  - ExploreMatches' starting index from `location.state` is not modelled.
  - The salary text through `toLocaleString` is not modelled.
  - The sidebar's fetch sequencing is reduced to the values the fetches deliver.
  - The verify call of VerifyCode, after the code is complete, is not modelled.
- **UTF-16.** A paste into the code cells works per code unit. A character outside the Basic Multilingual Plane is a single `char` in the model. The password length is counted in UTF-16 code units (`SetNewPasswordPage.Utf16Length`).
- CoachChatPage.FeedbackToSend: `substring(0, 50)` (frontend/src/pages/AICoachChat.tsx:336) counts UTF-16 code units; the model takes the first 50 `char`s, so a message with characters outside the Basic Multilingual Plane keeps more text in the model than in the browser, where a surrogate pair can also be cut in half.
- CoachChatPage.FormatTime: for a negative or NaN time the browser shows "NaN"; the lemmas state only times of zero or more.
- ExploreMatchesPage.HandleNext: requires a non-empty list, because the arrow buttons are drawn only on a shown card.
- ExploreMatchesPage.HandlePrevious: requires a non-empty list, for the same reason.
- **Set order.** The order in which Python iterates a set is not modelled. The search terms are kept in insertion order.

## Findings

| source | as written | input that shows it | evidently intended | confidence | as-written member | corrected member |
|---|---|---|---|---|---|---|
| backend/app/services/recommendation_service.py:579-581 | the percent text is trimmed with `rstrip("0").rstrip(".")`, which also strips the zeros of a whole number | the growth string "↑ 10%" is shortened to "↑ 1%" | strip trailing zeros only after a decimal point, keeping "↑ 10%" | high (not executed) | GrowthText.ShortenGrowthTrendAsWritten (shown by GrowthText.WholeTrailingZeroLost, GrowthText.ShortenTenPercent) | GrowthText.ShortenGrowthTrend |
| backend/app/services/recommendation_service.py:1399-1416 | `favorite` with action "favorite" looks only for an existing favorite row and otherwise inserts one, although `(user_id, career_id)` is unique (backend/app/models/user_recommendation.py:48-50) | a career the user dismissed, then saved: the insert violates the unique constraint | overwrite the existing row with the favorite, as dismiss and explore do | high (not executed) | ActionLedger.FavoriteAsWritten, RecommendationRoutes.RecordActionAsWritten (shown by ActionLedger.SaveAfterDismiss) | ActionLedger.Favorite, RecommendationRoutes.RecordAction |
| backend/app/utils/auth_utils.py:16-18 | the password is cut to 72 characters before bcrypt, whose limit is 72 bytes | 37 copies of "é": 74 bytes of UTF-8 still reach bcrypt | cut the UTF-8 encoding to 72 bytes | medium (not executed) | Auth.BcryptInputAsWritten, Auth.HashPasswordAsWritten (shown by Auth.MultiByteStaysTooLong, Auth.HashCutsDiffer) | Auth.BcryptInput, Auth.HashPassword |
| backend/app/api/routes/admin_routes.py:83 | `math.ceil(total / page_size)` divides by the requested page size, while the service falls back to 10 for a page size of 0 (backend/app/services/admin_review_service.py:58) | `page_size=0`: the service returns a page, then the route raises ZeroDivisionError | count pages with the page size the service used | medium (not executed) | AdminRoutes.ListUsersAsWritten (shown by AdminRoutes.ZeroPageSizeFails) | AdminRoutes.ListUsersRoute |
| backend/app/api/routes/ai_coach_routes.py:158-159, 202-204 | the 404 raised for a missing message is caught by the surrounding `except Exception` and re-raised as a 500 | a signed-in user rates a message id with no matching message: 500 | answer 404 "Message not found" | high (not executed) | CoachRoutes.SubmitFeedbackAsWritten (shown by CoachRoutes.MissingMessageIs500) | CoachRoutes.SubmitFeedback |
| frontend/src/pages/ExploreMatches.tsx:101-108, 131, 249 | dismissing a card removes it from the list but keeps the index | two cards, the second shown and dismissed: the index points past the list and the render reads `.id` of undefined | move the index back onto the list | high (not executed) | ExploreMatchesPage.HandleDismissAsWritten (shown by ExploreMatchesPage.DismissLastCardCrashes, ExploreMatchesPage.DismissSecondOfTwo) | ExploreMatchesPage.HandleDismiss |
| backend/app/services/questionnaire_service.py:165-198 | the docstring promises an upsert, but the session does not autoflush (backend/app/core/database.py:12) and (user_id, question_id) has no unique key, so each item's `.first()` misses the rows earlier items of the batch added | a batch with two answers to one question the user had not answered yet stores two rows for that question | update the row an earlier item of the batch added, keeping one row per question | high (not executed) | Questionnaire.SaveAllAsWritten, Questionnaire.ResponseStore.SaveBulk (shown by Questionnaire.BatchRepeatDuplicates) | Questionnaire.SaveAll (with Questionnaire.SaveAllKeepsKeysUnique) |
