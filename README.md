# healthline-ai: severity scoring, questionnaire and page filters

A Dafny model of the computational core of healthline-ai, a Next.js health
assistant. The user picks diseases or symptoms. The chatbot merges their
questionnaires and asks the questions one at a time, storing each typed answer.
It then posts the answers to `/api/get-response`. That handler validates the
selection, scores the answers against each disease's `severityFormula`
(`calculateSmartSeverity`) and reports a label and a 0-10 score next to the
language model's advice. The model also covers the small pure pieces of the
other pages: the chatbot's own `calculateSeverity` and `formatResponse`, the
blog search and related-articles list, the blog creation form, the drug search
of the telemedicine page, and report approval on the doctor portal.

Modules, one per concern:

- `Basics`, `Lists`, `Text`: Option/Result, `Array.prototype.filter`/`slice`,
  ASCII `toLowerCase`, `includes`, `trim` blankness, `parseInt`, and number-to-text
  for the critical-finding messages.
- `Diseases`: the catalogue (`diseaseQuestions.json`), passed in as a parameter.
- `SeverityRules`: the per-answer rules of `calculateSmartSeverity`.
- `SeverityEngine`: the accumulating loops as imperative methods, proved equal to
  a fold specification (`SmartSeverity`).
- `SeverityFacts`: what the scores satisfy.
- `GetResponse`: the POST handler's selection checks and the displayed score.
- `ChatbotQuestions`, `ChatbotAnswers`, `ChatbotSession`, `ClientSeverity`,
  `FormatResponse`: the chatbot page.
- `Blogs`, `Telemedicine`, `Doctors`: the other pages.

## Model

| member | source | states |
|---|---|---|
| SeverityRules.AssessRange | src/app/api/get-response/route.ts:38-161 | with a non-negative weight, every answer earns between 0 and 120% of the weight; a critical finding comes with at least 90%; an array or object earns nothing |
| SeverityRules.ContributionScales | src/app/api/get-response/route.ts:42-158 | the contribution is the weight times a share that depends only on key and answer; the finding does not depend on the weight |
| SeverityRules.NumericRulesMonotone | src/app/api/get-response/route.ts:42-106 | for temperature, duration and frequency, a higher reading earns at least as much and stays critical once critical |
| SeverityRules.NumericCriticalThresholds | src/app/api/get-response/route.ts:42-106 | a reading is critical exactly from 103 °F, 14 days and 10 episodes |
| SeverityRules.TemperatureTiers | src/app/api/get-response/route.ts:42-58 | the six temperature bands and the share each earns |
| SeverityRules.CountTiers | src/app/api/get-response/route.ts:59-106 | the duration bands (3, 7, 14 days) and frequency bands (3, 6, 10 per day) and their shares; an answered reading earns at least 40% |
| SeverityRules.BloodPressureMatchIff | src/app/api/get-response/route.ts:73-75 | the first-match scan for `(\d+)\/(\d+)` finds a reading exactly when some `/` stands between two digits |
| SeverityRules.ReadingOf145Over95 | src/app/api/get-response/route.ts:74-77 | the greedy digit runs read "145/95" as systolic 145, diastolic 95 |
| SeverityRules.BloodPressureStages | src/app/api/get-response/route.ts:76-88 | the four stages, graded by the worse of the two values; only stage 3 (180 or 120) is critical |
| SeverityRules.BloodPressureWithoutReading | src/app/api/get-response/route.ts:73-92 | a `bp_level` string without a reading earns nothing and is not passed on to the yes or text rules |
| SeverityRules.YesDispatch | src/app/api/get-response/route.ts:107-120 | a "yes" or `true` is scored by the yes rule under any key, except a "yes" string under `bp_level` |
| SeverityRules.CriticalYes | src/app/api/get-response/route.ts:107-115 | a "yes" under one of the six emergency keys earns 120% and the finding is the key with `_` replaced by spaces |
| SeverityRules.PlainYes | src/app/api/get-response/route.ts:116-120 | a "yes" under any other key, except a "yes" string under `bp_level`, earns exactly the weight, numeric keys included, with no finding |
| SeverityRules.TextAnswers | src/app/api/get-response/route.ts:121-158 | free text other than "yes" earns at least 30% under the four keyword keys, and nothing under any key other than those four and `bp_level` |
| SeverityRules.TextDispatch | src/app/api/get-response/route.ts:121-122 | free text other than "yes", under any key but `bp_level`, is scored by the keyword rules on its lower-cased form |
| SeverityRules.PainTiers | src/app/api/get-response/route.ts:125-134 | `pain_type` and `cough_type` earn 90% for constant, severe, sharp or radiating, else 60% for intermittent or moderate, else 40%, never with a finding |
| SeverityRules.DischargeTiers | src/app/api/get-response/route.ts:137-146 | `discharge_type` earns 90% for green or blood, with the finding "<lower-cased answer> discharge", else 70% for yellow, else 40% |
| SeverityRules.SeverityTiers | src/app/api/get-response/route.ts:149-157 | `severity` earns the full weight for severe, else 60% for moderate, else 30%, never with a finding |
| SeverityRules.NonTextAnswers | src/app/api/get-response/route.ts:42-158 | a number outside the numeric keys, and `false` anywhere, earn nothing |
| SeverityRules.CriticalKeysOnly | src/app/api/get-response/route.ts:42-158 | only the emergency keys and temperature, duration, frequency, bp_level and discharge_type can produce a finding |
| SeverityRules.Spaced | src/app/api/get-response/route.ts:111 | `key.replace(/_/g, ' ')` keeps the length and turns exactly the underscores into spaces |
| SeverityRules.Assess | src/app/api/get-response/route.ts:38-158 | the score of one answer under one key; what it means is stated by AssessRange, ContributionScales, YesDispatch and TextDispatch |
| SeverityRules.TemperatureRule | src/app/api/get-response/route.ts:42-58 | the temperature bands; stated by TemperatureTiers and NumericCriticalThresholds |
| SeverityRules.DurationRule | src/app/api/get-response/route.ts:59-72 | the duration bands; stated by CountTiers and NumericCriticalThresholds |
| SeverityRules.FrequencyRule | src/app/api/get-response/route.ts:93-106 | the frequency bands; stated by CountTiers and NumericCriticalThresholds |
| SeverityRules.BloodPressureRule | src/app/api/get-response/route.ts:73-92 | the blood-pressure reading and its stages; stated by BloodPressureMatchIff, BloodPressureStages and BloodPressureWithoutReading |
| SeverityRules.TextRule | src/app/api/get-response/route.ts:121-158 | the keyword tiers of free text; stated by PainTiers, DischargeTiers, SeverityTiers and TextAnswers |
| SeverityRules.YesRule | src/app/api/get-response/route.ts:107-120 | a "yes" under a critical or a plain key; stated by CriticalYes and PlainYes |
| SeverityEngine.CalculateSmartSeverity | src/app/api/get-response/route.ts:19-211 | the imperative scoring loops compute the fold specification `SmartSeverity` |
| SeverityEngine.ScoreDisease | src/app/api/get-response/route.ts:29-163 | the loop over one formula's keys folds every key into the three accumulators |
| SeverityEngine.ScoreKey | src/app/api/get-response/route.ts:33-161 | one key always adds its weight to the maximum; only a present answer adds to the total and may add a finding |
| SeverityEngine.Conclude | src/app/api/get-response/route.ts:165-210 | normalisation, multiplier, cap and labelling give the specified final result |
| SeverityEngine.Classify | src/app/api/get-response/route.ts:185-204 | the label chain picks the band of the final score, and the sentence is the one `Details` defines for that label |
| SeverityEngine.Multiplier | src/app/api/get-response/route.ts:168-181 | the multiplier lies in [1, 1.2]; without a critical finding it is 1.2 from five "yes" answers, 1.1 from three, else 1; with one it is 1.2 from five "yes" answers and exactly 1.15 below |
| SeverityEngine.LabelFor | src/app/api/get-response/route.ts:189-204 | each score falls in exactly one of the five bands, each stated both ways |
| SeverityEngine.Finish | src/app/api/get-response/route.ts:165-210 | the score is at most 1 and labelled by its band; it is 0 when nothing was possible and non-negative for non-negative accumulators |
| SeverityEngine.SmartSeverity | src/app/api/get-response/route.ts:19-211 | the score never exceeds 1 and the label is the score's band |
| SeverityEngine.Earned | src/app/api/get-response/route.ts:33-161 | what one key of a formula adds to the total; stated with Step by ScoreKey and StepInRange |
| SeverityEngine.Finding | src/app/api/get-response/route.ts:33-161 | the finding one key adds, if any; stated by ScoreKey and CriticalKeysOnly |
| SeverityEngine.Step | src/app/api/get-response/route.ts:33-161 | one key folded into the three accumulators; stated by ScoreKey and StepInRange |
| SeverityEngine.Fold | src/app/api/get-response/route.ts:31-162 | one formula folded into the accumulators; stated by ScoreDisease, FoldMaxPossible, FoldInRange and FoldDominates |
| SeverityEngine.TallyOf | src/app/api/get-response/route.ts:29-163 | all matched formulas folded in order; stated by CalculateSmartSeverity, MaxPossibleIsTotalWeight and TallyInRange |
| SeverityEngine.SymptomCount | src/app/api/get-response/route.ts:169 | the number of answers that are "yes" or `true`, over all answers; stated by SymptomCountAddedYes, SymptomCountReplaced and YesOutsideFormulasStillCounts |
| SeverityEngine.Normalized | src/app/api/get-response/route.ts:166 | the total over the maximum, 0 without a maximum; stated by NormalizedMonotone and NothingAnsweredIsLow |
| SeverityEngine.Score | src/app/api/get-response/route.ts:165-183 | the capped, multiplied score; stated by ScoreMonotone and ScoreInUnitRange |
| SeverityEngine.Details | src/app/api/get-response/route.ts:189-204 | the sentence for each label; stated by DetailsUseFirstTwoFindings, HighNamesTwoFindings, LowerLabelsNameAtMostOne and DetailsNonEmpty |
| SeverityEngine.Mention | src/app/api/get-response/route.ts:189-194 | the findings named by High and Moderate-High; stated by HighNamesTwoFindings and LowerLabelsNameAtMostOne |
| SeverityFacts.MaxPossibleIsTotalWeight | src/app/api/get-response/route.ts:29-36 | the maximum is the sum of all weights of all matched formulas, a shared key counted once per disease |
| SeverityFacts.MaxPossibleIgnoresAnswers | src/app/api/get-response/route.ts:29-36 | the maximum does not depend on the answers |
| SeverityFacts.NothingAnsweredIsLow | src/app/api/get-response/route.ts:38-183 | when no formula key is answered, the score is 0 and the label Low, whatever the multiplier |
| SeverityFacts.NoDiseasesIsLow | src/app/api/get-response/route.ts:166-204 | with no matched disease the result is score 0, Low, with the Low sentence |
| SeverityFacts.TallyInRange | src/app/api/get-response/route.ts:29-163 | with non-negative weights the total stays between 0 and 120% of the maximum |
| SeverityFacts.ScoreInUnitRange | src/app/api/get-response/route.ts:166-183 | with non-negative weights the final score lies in [0, 1] |
| SeverityFacts.MultiplierMonotone | src/app/api/get-response/route.ts:168-181 | more "yes" answers or a critical finding never lower the multiplier |
| SeverityFacts.ScoreMonotone | src/app/api/get-response/route.ts:165-183 | a larger total, a finding and a higher count never lower the final score |
| SeverityFacts.MoreSevereNeverLowersScore | src/app/api/get-response/route.ts:19-211 | answers at least as severe on every formula key, with at least as many "yes" answers, never give a lower score or label; "at least as severe" means earning at least as much and having a finding wherever the milder answer had one |
| SeverityFacts.LabelMonotone | src/app/api/get-response/route.ts:189-204 | a higher score never gets a lower label |
| SeverityFacts.HigherReadingNeverLowersScore | src/app/api/get-response/route.ts:42-106 | a higher temperature, longer duration or more frequent episodes, all else equal, never lower the score or label |
| SeverityFacts.YesOutsideFormulasStillCounts | src/app/api/get-response/route.ts:169 | a "yes" to a key outside every formula still raises the symptom count and never lowers the score |
| SeverityFacts.DetailsUseFirstTwoFindings | src/app/api/get-response/route.ts:189-194 | only the first two findings can appear in the sentence |
| SeverityFacts.HighNamesTwoFindings | src/app/api/get-response/route.ts:189-191 | High names the first two findings joined by ", ", one finding alone, or "multiple severe symptoms" with none |
| SeverityFacts.LowerLabelsNameAtMostOne | src/app/api/get-response/route.ts:192-204 | Moderate-High names the first finding only; the three lower labels never mention findings |
| SeverityFacts.DetailsNonEmpty | src/app/api/get-response/route.ts:189-204 | the sentence is never empty |
| SeverityFacts.VeryHighFever | src/app/api/get-response/route.ts:43-45 | a single formula `{temperature: w}` answered 104 or more reaches score 1 and High, with a very-high-fever finding |
| SeverityFacts.StageTwoBloodPressure | src/app/api/get-response/route.ts:82-83 | a single formula `{bp_level: w}` with a stage-2 reading scores 0.9, High, with no finding |
| SeverityFacts.StageTwoExample | src/app/api/get-response/route.ts:73-90 | "145/95" under `{bp_level: 5}` scores 0.9 |
| SeverityFacts.SharedKeysHalfAnswered | src/app/api/get-response/route.ts:29-36 | two diseases sharing keys a and b, with only a answered "yes", score one half, Moderate-High, since each weight counts once per disease |
| SeverityFacts.CriticalYesBesideHeavyKey | src/app/api/get-response/route.ts:107-204 | a "yes" to an emergency key of weight 1 beside an unanswered key of weight 99 gives one finding and the label Low |
| SeverityFacts.CriticalFindingCanBeLow | src/app/api/get-response/route.ts:178-181 | although the comment says a critical symptom pushes the label to at least Moderate, one disease `{chest_pain: 1, x: 99}` with `chest_pain` answered "yes" has a finding and is labelled Low (see Findings) |
| SeverityFacts.FlooredSeverity | src/app/api/get-response/route.ts:178-204 | the label with the floor the comment describes: the same score, at least Moderate whenever there is a finding, never below the route's label, the route's result without a finding, and the sentence of its own label |
| SeverityFacts.CriticalFindingFlooredIsModerate | src/app/api/get-response/route.ts:178-181 | on that input the floored label is Moderate |
| SeverityFacts.PlainYesBesideKey | src/app/api/get-response/route.ts:116-204 | a plain "yes" of weight 1 beside an unanswered key of weight 1.05 is labelled Moderate |
| SeverityFacts.FindingBesideKey | src/app/api/get-response/route.ts:137-204 | an answer other than "yes" that earns 90% with a finding, beside an unanswered key of weight 1.05, is labelled Moderate-High |
| SeverityFacts.FindingOutweighsLargerShare | src/app/api/get-response/route.ts:116-181 | why severity is compared by finding as well as by share: under `discharge_type`, "green" earns less than "yes" but, being a finding, is labelled Moderate-High where "yes" is Moderate |
| GetResponse.MatchDiseases | src/app/api/get-response/route.ts:223-233 | a missing or empty selection gives 400 "No diseases selected."; one with no known name gives 400 "Invalid disease(s) selected."; otherwise the matched definitions, never empty; success exactly when some selected name is known |
| GetResponse.Resolve | src/app/api/get-response/route.ts:227-229 | a definition is matched exactly when some selected name is known and maps to it; never more entries than names |
| GetResponse.ResolveFollowsKnownNames | src/app/api/get-response/route.ts:227-229 | the matched definitions are those of the known names, one for one and in selection order |
| GetResponse.UnknownNameIgnored | src/app/api/get-response/route.ts:227-229 | an unknown name anywhere in the selection changes nothing about the match |
| GetResponse.DisplayScore | src/app/api/get-response/route.ts:358 | the displayed score is the score on a 0-10 scale: at most 10 for a score of at most 1, non-negative for a non-negative score |
| GetResponse.Handle | src/app/api/get-response/route.ts:223-236 | the handler rejects exactly the selections the check rejects, with the same messages; otherwise it reports the engine's label, its score on the 0-10 scale and its sentence for the matched diseases, and that score is at most 10 with the label of score/10 |
| GetResponse.DisplayScoreInRange | src/app/api/get-response/route.ts:355-359 | with non-negative weights the reported score lies in [0, 10] |
| ChatbotQuestions.CombinedMembers | src/app/chatbot/page.tsx:78-80 | a question is in the joined list exactly when a known selected disease asks it |
| ChatbotQuestions.UnknownDiseaseAsksNothing | src/app/chatbot/page.tsx:78-80 | an unknown disease name contributes no questions (`?.questions \|\| []`) |
| ChatbotQuestions.DedupIsMap | src/app/chatbot/page.tsx:82-85 | the merged list has each key at most once, holds for every key the question met last, and orders keys by first occurrence, as a JavaScript `Map` does |
| ChatbotQuestions.MergedCoversSelection | src/app/chatbot/page.tsx:78-85 | every question of every known selected disease is asked under its key, with the last definition of that key |
| ChatbotQuestions.LastWithKey | src/app/chatbot/page.tsx:82-84 | the entry a `Map` keeps for a key is a question with that key, and there is none exactly when no question has it |
| ChatbotQuestions.Combined | src/app/chatbot/page.tsx:78-80 | the questions of the known selected diseases, joined in order; stated by CombinedMembers and UnknownDiseaseAsksNothing |
| ChatbotQuestions.Dedup | src/app/chatbot/page.tsx:82-84 | the `Map` built from the keyed questions; stated by DedupIsMap |
| ChatbotQuestions.MergeQuestions | src/app/chatbot/page.tsx:78-85 | the questions the page asks; stated by MergedCoversSelection and DedupIsMap |
| ChatbotAnswers.Coerce | src/app/chatbot/page.tsx:103-107 | a number question stores a number (or NaN), every other question stores text |
| ChatbotAnswers.CoerceNumeral | src/app/chatbot/page.tsx:106 | a number question answered with an integer's numeral stores that integer |
| ChatbotAnswers.CoerceText | src/app/chatbot/page.tsx:106 | other questions store the input lower-cased character by character, same length; lower-casing first changes nothing |
| ChatbotSession.Session.constructor | src/app/chatbot/page.tsx:44-54 | the initial state: nothing selected, no questions, no answers, only the welcome message |
| ChatbotSession.Session.Select | src/app/chatbot/page.tsx:76-92 | a non-empty selection loads the merged questions and clears answers and index; an empty one clears the questions only |
| ChatbotSession.Session.Type | src/app/chatbot/page.tsx:351 | typing replaces the text box contents and changes nothing else |
| ChatbotSession.Session.Send | src/app/chatbot/page.tsx:94-114 | a blank input or a missing question changes nothing; otherwise the question and answer are appended, the coerced answer is stored under the key, the input is cleared, the index advances except at the last question, where the diagnosis request goes out with every question answered |
| ClientSeverity.WeightOf | src/app/chatbot/page.tsx:167 | `formula[key] \|\| 0` is the weight of the key's first entry, and 0 when there is none |
| ClientSeverity.CalculateSeverity | src/app/chatbot/page.tsx:157-177 | the nested loops compute the functional `Severity`, including where the page throws |
| ClientSeverity.Severity | src/app/chatbot/page.tsx:176 | no selected disease gives 0 |
| ClientSeverity.DiseaseSeverityIsYesWeights | src/app/chatbot/page.tsx:165-171 | for a known disease, only the questions answered exactly "yes" count, each with its key's weight |
| ClientSeverity.DiseaseSeverityFails | src/app/chatbot/page.tsx:162-170 | for one disease the page throws exactly when the disease is unknown and some answer is truthy; an unknown disease with no truthy answer contributes 0 |
| ClientSeverity.TotalSeverityFails | src/app/chatbot/page.tsx:161-174 | the loop throws exactly when some selected disease is unknown and some answer is truthy |
| ClientSeverity.SeverityIsAverageOfYesWeights | src/app/chatbot/page.tsx:157-177 | the result is undefined (a throw) exactly in that case; otherwise it is the sum, over known selected diseases, of the weights of the "yes" questions, divided by the number of selected diseases |
| ClientSeverity.DiseaseSeverity | src/app/chatbot/page.tsx:162-171 | the score of one selected disease, `None` where the page throws; stated by DiseaseSeverityIsYesWeights and DiseaseSeverityFails |
| ClientSeverity.TotalSeverity | src/app/chatbot/page.tsx:161-174 | the sum over the selected diseases; stated by TotalSeverityFails and TotalSeverityIsYesSum |
| FormatResponse.Format | src/app/chatbot/page.tsx:179-183 | the formatted text contains no newline |
| FormatResponse.ReplaceNewlinesLength | src/app/chatbot/page.tsx:182 | each newline becomes the five characters of `<br/>` and nothing else changes length |
| FormatResponse.ReplaceNewlinesUnchangedIff | src/app/chatbot/page.tsx:182 | the newline rewrite leaves a text alone exactly when it has no newline |
| FormatResponse.CloseAt | src/app/chatbot/page.tsx:181 | the lazy `(.*?)` stops at the first `**` with no line terminator before it, and fails only when a line terminator comes before every later `**` |
| FormatResponse.BoldSpan | src/app/chatbot/page.tsx:181 | `**x**` is replaced by `<strong>x</strong>` and the rest is rewritten on its own |
| FormatResponse.BoldKeepsPlain | src/app/chatbot/page.tsx:181 | a text without `**` is left unchanged by the bold rewrite |
| FormatResponse.FormatHeadingLine | src/app/chatbot/page.tsx:179-183 | a bold heading followed by a newline becomes `<strong>x</strong><br/>` followed by the formatted rest |
| FormatResponse.Bold | src/app/chatbot/page.tsx:181 | the `**x**` rewrite; stated by BoldSpan, BoldKeepsPlain and CloseAt |
| FormatResponse.ReplaceNewlines | src/app/chatbot/page.tsx:182 | the text with every newline replaced by `<br/>`, with no newline left; stated also by ReplaceNewlinesLength and ReplaceNewlinesUnchangedIff |
| Blogs.FilteredBlogs | src/app/blogs/page.tsx:37-41 | the search keeps, in order, every copy of each blog whose lower-cased title or author contains the lower-cased term and no other blog; an empty term keeps all |
| Blogs.SearchIgnoresCase | src/app/blogs/page.tsx:37-41 | the search does not depend on the letter case of the term |
| Blogs.FoundByTitlePart | src/app/blogs/page.tsx:39 | a blog is found by any part of its title in any letter case |
| Blogs.RelatedBlogs | src/app/blogs/page.tsx:43-47 | the related list is the first min(n, 3) of the other blogs, in order, none with the current id |
| Blogs.Editor.constructor | src/app/blogs/page.tsx:30-34 | the form starts empty with no notices |
| Blogs.Editor.Edit | src/app/blogs/page.tsx:130-151 | typing replaces the draft and raises no notice; `Edit(d)` generalises the three `setNewBlog({...newBlog, field: e.target.value})` handlers of the title, content and image fields, each of which replaces one field of the draft |
| Blogs.Editor.CreateBlog | src/app/blogs/page.tsx:49-65 | creation succeeds exactly when title and description are non-empty; a refusal keeps the draft and raises the error notice; success resets the form and raises the success notice |
| Telemedicine.FilteredDrugs | src/app/telemedicines/page.tsx:13-17 | the search keeps, in order, every copy of each drug whose lower-cased name or condition contains the lower-cased term and no other drug; an empty term keeps all |
| Telemedicine.SearchIgnoresCase | src/app/telemedicines/page.tsx:13-17 | the search does not depend on the letter case of the term |
| Telemedicine.FoundByConditionPart | src/app/telemedicines/page.tsx:16 | a drug is found by any part of the condition it treats in any letter case |
| Telemedicine.OtherFieldsIgnored | src/app/telemedicines/page.tsx:13-17 | description, activity and link never decide whether a drug is found |
| Doctors.ApproveReport | src/app/doctors/page.tsx:69-70 | approval removes exactly the reports with that id and keeps every copy of the others in order; an unknown id changes nothing |
| Doctors.ApproveTwice | src/app/doctors/page.tsx:69-70 | approving the same id twice is approving it once |
| Doctors.ApprovalsCommute | src/app/doctors/page.tsx:69-70 | approving two reports gives the same list in either order |
| Text.ParseIntText | src/app/chatbot/page.tsx:106 | `parseInt` of an integer's decimal numeral gives that integer back |
| Text.ContainsIff | src/app/blogs/page.tsx:39-40 | `includes` holds exactly when the pattern occurs at some position |
| Text.ParseInt | src/app/chatbot/page.tsx:106 | `parseInt` of the input; stated by ParseIntText |
| Text.Lower | src/app/blogs/page.tsx:39-40 | `toLowerCase` keeps the length and lower-cases each ASCII letter; lower-casing twice is lower-casing once (LowerIdempotent) |
| Text.Contains | src/app/blogs/page.tsx:39-40 | `includes`; stated by ContainsIff and ContainsInfix |
| Lists.Filter | src/app/blogs/page.tsx:37-41 | `filter` returns a subsequence whose elements are exactly those of the input satisfying the test; when all pass it is the input |
| Lists.FilterCounts | src/app/blogs/page.tsx:37-41 | `filter` keeps every copy of an element that passes and none of one that fails |
| Lists.FilterCommute | src/app/doctors/page.tsx:70 | two filters give the same list in either order |

## Findings

| source | as written | input that shows it | evidently intended | confidence | as-written member | corrected member |
|---|---|---|---|---|---|---|
| src/app/api/get-response/route.ts:178-181 | a critical finding only raises the multiplier to at least 1.15, which cannot lift a small normalised score | one disease `{chest_pain: 1, x: 99}`, only `chest_pain` answered "yes": 1.2 of 100, times 1.15, is about 0.0138, labelled Low with a critical finding | the comment above the code: a critical symptom keeps the label at least Moderate | medium, not executed | SeverityFacts.CriticalFindingCanBeLow | SeverityFacts.FlooredSeverity |

The handler model (`GetResponse.Handle`) reports the label as written, since that
is what the route replies; `FlooredSeverity` states the intended floor beside it.

## Left out

- The call to the Gemini model, the prompt text and the parsing of its reply (route.ts 238-353) are foreign calls; the handler model stops at the score.
- HTTP, `NextResponse`, `console.log`, the 500 reply for a missing API key or an exception, and `request.json()` parsing are I/O; the parsed body is a parameter.
- The catalogue `diseaseQuestions.json` is not part of this model; it is a parameter of every operation.
- The PDF export, axios calls, login, React rendering, and the asynchronous timing of `setState` are not modelled. One effect of that timing: the fetch at page.tsx 117-121 sends the responses from before the last answer, because `responses` in the closure is stale. `Session.Send` only signals that the request goes out.
- `toFixed(1)` and floating-point rounding are not modelled: scores are exact reals.
- `NumText`, used in critical findings such as `Very high fever (104.5°F)`, writes at most 20 fraction digits and never uses exponent notation.
- `toLowerCase` is modelled for ASCII letters only.
- Lookups of prototype keys such as `constructor` in the catalogue or formula objects are not modelled.
- A `null` answer is modelled as a missing key, which the route treats alike (route.ts 38). An array or object answer is `Other`.
- The `selectedDiseases` parameter of `calculateSmartSeverity` only feeds an unused local, so it is dropped.
- A formula's key order (`Object.keys`) is taken to be the order of its entries, and duplicate entries are not excluded.
- A known disease without a `severityFormula` is treated as having the empty formula; on the chatbot page such a disease would throw.
- `FormatResponse.Format` is modelled on strings. The route's success reply puts an object under `message`.
- Report ids are modelled as strings; the source types them `any`. The approval toast on the doctor portal is not modelled.
- `Blogs.Editor.CreateBlog`: the source does not store the created post anywhere; the model, like the source, only resets the form and raises a notice.
- `ClientSeverity.CalculateSeverity`: the page's `TypeError` for an unknown disease is modelled as `None`, not as an exception.
