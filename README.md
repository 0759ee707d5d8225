# Ontario immigration points engine — a Dafny model

This project models the scoring core of a web calculator for the Ontario
Immigrant Nominee Program (OINP). An applicant fills in a self-reported
profile and picks one of eight nomination streams. The calculator then
produces four things:

- **The provincial grid score** (`calculateOINPScore`). The Masters and PhD
  Graduate streams are scored on a 75-point education grid. The Foreign
  Worker, International Student and In-Demand Skills streams are scored on a
  job-offer grid worth 56 points, or 46 for students, who get nothing for
  job level. The result has the total, a breakdown record of labelled factor
  scores, a denominator, and an `eligible` flag set by a few hard rules. The
  three Express Entry streams are not scored.
- **An Express Entry likelihood label** (`getEEStatus`). It compares the
  ranking score with fixed draw thresholds.
- **A simplified federal Comprehensive Ranking System estimate**
  (`calculateCRS`). It adds up age, education, first-language and Canadian
  experience points, the spouse factors, capped skill transferability and
  additional points.
- **An ordered list of improvement suggestions** (`generateSuggestions`).
  Each suggestion has an impact tier and the points it would gain.

The modules follow the program's files:

| module | file | form |
|---|---|---|
| `Types` | `types.dfy` | the stream enumeration, the profile (the stream and 27 optional fields), the score result and the JavaScript truthiness rules (`!!flag`, `n \|\| d`) the code relies on |
| `Constants` | `constants.dfy` | the eight rule tables and the two stream lists, with their distinct-key, ordering and maximum properties |
| `Scoring` | `scoring.dfy` | the factor functions. `calculateOINPScore` is a method that builds the breakdown step by step, proved equal to a declarative grid of factors. `getEEStatus` is a function over an enumeration of its labels |
| `CrsScoring` | `crs_scoring.dfy` | one function per section. `calculateCRS` is a method with one helper method per source block, proved equal to the sum of the section functions |
| `Suggestions` | `suggestions.dfy` | `generateSuggestions` is a method that pushes suggestions group by group, proved equal to a rule list filtered by when each rule fires. This module also proves what following a suggestion does to the grid score |

Numbers are unbounded integers. Optional fields are `Option` values, and a
field the applicant left empty is `None`. The breakdown record is a list of
(key, value) pairs in insertion order. Within a branch every key is written
at most once, so the list and the record agree. The lemmas
`Scoring.GraduateBreakdownKeys` and `Scoring.JobOfferBreakdownKeys` list
those keys and prove that none occurs twice.

## Model

| member | source | states |
|---|---|---|
| `Types.EmptyProfile` | types.ts:20-64 | a profile whose stream is the given one and whose 27 optional fields are all absent |
| `Constants.MaxScore` | constants.ts:22-84 | the largest score of a table: no row scores more, and some row scores exactly that |
| `Constants.FirstIsMaximum` | constants.ts:22-84 | in a table listed best option first, the first row holds the maximum |
| `Constants.TeerLevelsDistinct` | constants.ts:22-29 | no two job levels share a key |
| `Constants.NocBroadCategoriesDistinct` | constants.ts:31-35 | no two occupation categories share a key |
| `Constants.WageTiersDistinct` | constants.ts:37-44 | no two wage tiers share a key |
| `Constants.EducationLevelsDistinct` | constants.ts:46-55 | no two education levels share a key |
| `Constants.FieldsOfStudyDistinct` | constants.ts:57-63 | no two fields of study share a key |
| `Constants.RegionsDistinct` | constants.ts:65-70 | no two regions share a key |
| `Constants.CanadianCredentialOptionsDistinct` | constants.ts:72-76 | no two credential counts share a key |
| `Constants.ClbLevelsDistinct` | constants.ts:78-84 | no two language bands share a key |
| `Constants.TablesHaveDistinctValues` | constants.ts:22-84 | every rule table has distinct keys, so a find-first lookup depends only on the key |
| `Constants.TeerLevelsNonIncreasing` | constants.ts:22-29 | job levels are listed in non-increasing score order |
| `Constants.NocBroadCategoriesNonIncreasing` | constants.ts:31-35 | categories are listed in non-increasing score order |
| `Constants.WageTiersNonIncreasing` | constants.ts:37-44 | wage tiers are listed in non-increasing score order |
| `Constants.EducationLevelsNonIncreasing` | constants.ts:46-55 | education levels are listed in non-increasing score order |
| `Constants.FieldsOfStudyNonIncreasing` | constants.ts:57-63 | fields of study are listed in non-increasing score order |
| `Constants.RegionsNonIncreasing` | constants.ts:65-70 | regions are listed in non-increasing score order |
| `Constants.CanadianCredentialOptionsNonIncreasing` | constants.ts:72-76 | credential counts are listed in non-increasing score order |
| `Constants.ClbLevelsNonIncreasing` | constants.ts:78-84 | language bands are listed in non-increasing score order |
| `Constants.TablesAreNonIncreasing` | constants.ts:22-84 | every rule table lists its best option first |
| `Constants.TableMaximaAreTen` | constants.ts:22-84 | job level, category, education, credentials, region, wage and language top out at 10, and field of study at 12 |
| `Constants.TableScoresNonNegative` | constants.ts:22-84 | no row of any of the eight tables scores below 0 |
| `Constants.StreamListsPartition` | constants.ts:86-98 | each of the eight streams is in exactly one of the two lists: the graduate and job-offer streams in the first, the Express Entry streams in the second |
| `Scoring.GetOptionScore` | utils/scoring.ts:4-6 | an unselected option scores 0 |
| `Scoring.LookupScore` | utils/scoring.ts:5 | the find-first `options.find(o => o.value === value)?.score`, 0 when no row has the key |
| `Scoring.OptionScoreOfUnlistedValue` | utils/scoring.ts:4-6 | a key no row carries scores 0 |
| `Scoring.OptionScoreOfListedValue` | utils/scoring.ts:4-6 | in a table with distinct keys, selecting a row's key yields exactly that row's score |
| `Scoring.OptionScoreWithin` | utils/scoring.ts:4-6 | the lookup stays within the bounds of the table's scores |
| `Scoring.GetRegionScore` | utils/scoring.ts:9-25 | region scores lie in 0..10 |
| `Scoring.RegionScoreIsTableLookup` | utils/scoring.ts:9-25 | for every input, the hand-written region tiers equal a lookup in the regions table |
| `Scoring.RegionsAgree` | utils/scoring.ts:9-25 | every regions-table row scores what the region function awards |
| `Scoring.GetFieldOfStudyScore` | utils/scoring.ts:27-35 | field-of-study scores lie in 0..12 |
| `Scoring.FieldOfStudyScoreIsTableLookup` | utils/scoring.ts:27-35 | the field score equals the fields-of-study table lookup for every input except the legacy key "business", which scores 6 |
| `Scoring.FieldsOfStudyAgree` | utils/scoring.ts:27-35 | every fields-of-study row scores what the field function awards |
| `Scoring.GraduateLanguageScore` | utils/scoring.ts:82-87 | band 9 and up scores 10, band 8 scores 6, band 7 scores 4, anything lower or absent scores 0 |
| `Scoring.ThresholdScore` | utils/scoring.ts:82-87 | the score of the first threshold row the value reaches, 0 below every row; the language ladder over ClbLevels and the wage ladder over the `WageBands` constant (lines 138-143) are both this lookup |
| `Scoring.ClbLevelsAgree` | utils/scoring.ts:82-87 | bands 9, 8, 7, 6 and 5 score 10, 6, 4, 0 and 0 on the graduate language factor, as the table rows say |
| `Scoring.WageScore` | utils/scoring.ts:138-143 | the wage score for each band from $40/hr down to below $20/hr: 10, 8, 7, 6, 5, 0 |
| `Scoring.WageBandsMatchWageTiers` | utils/scoring.ts:138-143 | the wage thresholds carry the wage-tier table's scores in its order, and the last tier scores 0 |
| `Scoring.WageScoreMonotone` | utils/scoring.ts:138-143 | a higher wage never scores less |
| `Scoring.ListedTotal` | utils/scoring.ts:37-188 | when every factor awards between 0 and its maximum, the breakdown's values sum to the total and the total lies between 0 and the denominator |
| `Scoring.GraduateFactors` | utils/scoring.ts:45-107 | the Masters and PhD grid in evaluation order: permit 10 and earnings 3 when set, then education, field, credentials, language, bilingualism and study location with their literal maxima |
| `Scoring.TeerFactor` | utils/scoring.ts:121-129 | the job-level factor: the TEER lookup out of 10, or the excluded zero entry out of 0 for international students |
| `Scoring.JobOfferFactors` | utils/scoring.ts:117-174 | the job-offer grid in evaluation order: job level, category, wage, then permit 10, tenure 3 and earnings 3 when set, then work location |
| `Scoring.Eligible` | utils/scoring.ts:109-111 | the hard rules: Masters needs a masters degree and CLB 7, PhD a PhD, a Foreign Worker a TEER; see also line 176 |
| `Scoring.Grade` | utils/scoring.ts:37-188 | the result record of a grid: summed points, listed entries, the hard rules and summed maxima |
| `Scoring.Factors` | utils/scoring.ts:44-187 | the stream dispatch: the graduate grid for Masters and PhD (line 45), the job-offer grid for the three job-offer streams (line 117), and no grid for Express Entry (line 182) |
| `Scoring.ScoreOf` | utils/scoring.ts:37-188 | the calculator's result for any profile, defined from its stream's grid; `CalculateOINPScore` is proved equal to it |
| `Scoring.MaxPossibleFor` | utils/scoring.ts:45-187 | the fixed denominators: 75 for Masters and PhD, 56 for Foreign Worker and In-Demand, 46 for International Student, 0 for Express Entry |
| `Scoring.GraduateFactorsWellFormed` | utils/scoring.ts:45-107 | every graduate factor awards between 0 and its maximum |
| `Scoring.JobOfferFactorsWellFormed` | utils/scoring.ts:117-174 | every job-offer factor awards between 0 and its maximum |
| `Scoring.FactorsWellFormed` | utils/scoring.ts:37-188 | every factor of every stream's grid awards between 0 and its maximum |
| `Scoring.ScoreInvariants` | utils/scoring.ts:37-188 | the total equals the sum of the breakdown, lies between 0 and the denominator, and the denominator is the stream's fixed one (75, 56, 46 or 0) |
| `Scoring.CalculateOINPScore` | utils/scoring.ts:37-188 | the calculator returns the grid result of the profile's stream, whose total is the breakdown sum and lies within 0..denominator |
| `Scoring.GraduateTotals` | utils/scoring.ts:45-107 | the graduate total is the plain sum of the eight factor scores, and the denominator is 75 |
| `Scoring.GraduateTotal` | utils/scoring.ts:45-107 | the graduate total as the plain sum of the eight factor scores |
| `Scoring.GraduateListed` | utils/scoring.ts:45-107 | the graduate breakdown lists permit and earnings only when set, then education, field, credentials, language, bilingualism and study location |
| `Scoring.JobOfferTotals` | utils/scoring.ts:117-174 | the job-offer total is the plain sum of its seven factor scores, with job level 0 for students, and the denominator is 56, or 46 for students |
| `Scoring.JobOfferTotal` | utils/scoring.ts:117-174 | the job-offer total as the plain sum of its factor scores, with no job-level points for students |
| `Scoring.JobOfferListed` | utils/scoring.ts:117-174 | the job-offer breakdown lists job level (or the students' exclusion line), category, wage, then permit, tenure and earnings only when set, then work location |
| `Scoring.ScoreIsFactorSum` | utils/scoring.ts:37-188 | a stream's total is its grid's factor sum, and an Express Entry stream's is 0 |
| `Scoring.GraduateMonotoneInEducation` | utils/scoring.ts:63-65 | on a graduate stream, an education level that scores at least as much never lowers the total |
| `Scoring.GraduateMonotoneInFieldOfStudy` | utils/scoring.ts:69-71 | on a graduate stream, a field of study that scores at least as much never lowers the total |
| `Scoring.GraduateMonotoneInCredentials` | utils/scoring.ts:75-77 | on a graduate stream, a credential count that scores at least as much never lowers the total |
| `Scoring.GraduateMonotoneInLanguage` | utils/scoring.ts:82-89 | on a graduate stream, a higher language band never lowers the total |
| `Scoring.GraduateMonotoneInStudyLocation` | utils/scoring.ts:103-105 | on a graduate stream, a study location that scores at least as much never lowers the total |
| `Scoring.JobOfferMonotoneInTeer` | utils/scoring.ts:121-129 | on a job-offer stream, a job level that scores at least as much never lowers the total |
| `Scoring.JobOfferMonotoneInCategory` | utils/scoring.ts:132-134 | on a job-offer stream, an occupation category that scores at least as much never lowers the total |
| `Scoring.JobOfferMonotoneInWage` | utils/scoring.ts:138-146 | on a job-offer stream, a higher wage never lowers the total |
| `Scoring.JobOfferMonotoneInWorkLocation` | utils/scoring.ts:171-173 | on a job-offer stream, a work location that scores at least as much never lowers the total |
| `Scoring.AwardBonus` | utils/scoring.ts:48-59 | a flag-gated bonus adds its key and points only when the flag is explicitly true |
| `Scoring.GraduateHardRules` | utils/scoring.ts:109-111 | the graduate hard rules clear `eligible` exactly when the profile fails one |
| `Scoring.ScoreGraduate` | utils/scoring.ts:45-114 | the Masters and PhD branch, step by step, returns the graduate grid's result |
| `Scoring.JobOfferHardRules` | utils/scoring.ts:176 | a Foreign Worker profile without a job level is ineligible |
| `Scoring.AwardJobLevel` | utils/scoring.ts:121-129 | job level scores for every job-offer stream but students, who get a 0 exclusion line and no share of the denominator |
| `Scoring.ScoreJobOffer` | utils/scoring.ts:117-179 | the job-offer branch, step by step, returns the job-offer grid's result |
| `Scoring.GraduateBreakdownKeys` | utils/scoring.ts:45-107 | the graduate breakdown's keys, in insertion order, with permit and earnings present exactly when set, and no key twice |
| `Scoring.JobOfferBreakdownKeys` | utils/scoring.ts:117-174 | the job-offer breakdown's keys, in insertion order, with the student exclusion key in place of the job level key, and no key twice |
| `Scoring.GraduateKeysDistinct` | utils/scoring.ts:45-107 | the eight graduate labels stay pairwise distinct whichever optional entries are present |
| `Scoring.JobOfferKeysDistinct` | utils/scoring.ts:117-174 | the job-offer labels stay pairwise distinct for either job-level key and whichever optional entries are present |
| `Scoring.StudentJobLevelExcluded` | utils/scoring.ts:126-129 | a student's breakdown starts with the exclusion line at 0 and never carries the job level key |
| `Scoring.StudentJobLevelIgnored` | utils/scoring.ts:121 | for students, changing the job level changes nothing in the result |
| `Scoring.EligibilityRules` | utils/scoring.ts:109-111 | a result is ineligible exactly when Masters lacks a masters degree or band 7, PhD lacks a PhD, or Foreign Worker lacks a job level (line 176) |
| `Scoring.ExpressEntryNotScored` | utils/scoring.ts:182-187 | Express Entry streams get a zero total, an empty breakdown, a zero denominator and are eligible |
| `Scoring.EmptyProfileScore` | utils/scoring.ts:37-188 | a blank profile scores 0 against its stream's denominator, and is ineligible exactly on Masters, PhD and Foreign Worker |
| `Scoring.EmptyGraduateProfile` | utils/scoring.ts:45-107 | a blank graduate profile earns no grid points |
| `Scoring.EmptyJobOfferProfile` | utils/scoring.ts:117-174 | a blank job-offer profile earns no grid points |
| `Scoring.PhdScenario` | utils/scoring.ts:45-114 | a PhD in STEM or health with one Canadian credential, band 9, both official languages and a northern campus scores 57 of 75 and is eligible |
| `Scoring.StudentScenario` | utils/scoring.ts:117-179 | a student paid $25/hr in sales and service in Toronto, with no flags set, scores 6 of 46 and is eligible |
| `Scoring.GetEEStatus` | utils/scoring.ts:190-216 | the "calculate first" label appears exactly when no score is given, and the "program guides" label exactly for a scored non-Express-Entry stream |
| `Scoring.EEStatus.Message` | utils/scoring.ts:191-215 | the exact text of each of the twelve labels |
| `Scoring.EEStatusThresholds` | utils/scoring.ts:195-214 | each Express Entry stream gets a label of its own family (tech, general, French, trades), high and moderate above 465 and 450 for tech, above 470 and 460 for general, high above 350 with French or with trade experience |
| `Scoring.EEStatusMonotone` | utils/scoring.ts:195-214 | a higher ranking score never gives a lower likelihood |
| `Scoring.TechNeverWorse` | utils/scoring.ts:197-205 | at the same score, a tech occupation is never rated below a general one |
| `CrsScoring.AgePoints` | utils/crsScoring.ts:19-38 | age points are never negative |
| `CrsScoring.IsSingle` | utils/crsScoring.ts:7-8 | an applicant who is not married, or is married to a Canadian, is scored as single |
| `CrsScoring.AgeOf` | utils/crsScoring.ts:10 | the age, defaulting to 25 when absent or 0 |
| `CrsScoring.EducationOf` | utils/crsScoring.ts:11 | the education level, defaulting to "none" when absent or empty |
| `CrsScoring.ClbOf` | utils/crsScoring.ts:12 | the first-language band, defaulting to 0 |
| `CrsScoring.CanadianYearsOf` | utils/crsScoring.ts:13 | the Canadian work experience in years, defaulting to 0 |
| `CrsScoring.ForeignYearsOf` | utils/crsScoring.ts:14 | the foreign work experience in years, defaulting to 0 |
| `CrsScoring.AgeDecay` | utils/crsScoring.ts:25-36 | from 30 to 44, single points are the floor of 110 − 5.5 per year past 29, and married points are exactly 100 − 5 per year |
| `CrsScoring.AgePointsPeak` | utils/crsScoring.ts:19-38 | from 29 on, age points never exceed the peak of 110 (single) or 100 (married) and never rise |
| `CrsScoring.AgePointsBelowPeakAge` | utils/crsScoring.ts:20-36 | from 18 to 29 single points are 99 at 18, 105 at 19 and 110 from 20; married points are exactly 100 from 20, and 100 + 5 per year below 29 at 18 and 19 |
| `CrsScoring.AgePointsFromFortyFive` | utils/crsScoring.ts:20-34 | from 45 on, single and married applicants get no age points |
| `CrsScoring.UnderageAgePoints` | utils/crsScoring.ts:25-29 | a single 17-year-old falls through to the decay formula with a negative drop and gets 176 points |
| `CrsScoring.EducationPoints` | utils/crsScoring.ts:41-47 | education points lie in 0..150 for single and 0..140 for married applicants |
| `CrsScoring.Lookup` | utils/crsScoring.ts:46-47 | the map's value for a key it holds and 0 for any other key, as the program's `m[k]` with a 0 default; the spouse map at line 97 is read the same way |
| `CrsScoring.EducationPointsAreMapLookup` | utils/crsScoring.ts:42-46 | the two-year diploma special case awards exactly what the maps hold for it, so education points are always a plain map lookup |
| `CrsScoring.EducationMarriedNeverHigher` | utils/crsScoring.ts:42-46 | a married applicant never gets more education points than a single one |
| `CrsScoring.BandScore` | utils/crsScoring.ts:51-67 | a band scores 0..34 single and 0..32 married |
| `CrsScoring.LanguagePoints` | utils/crsScoring.ts:68 | four abilities at the band score: 0..136 single, 0..128 married |
| `CrsScoring.BandScoreMonotone` | utils/crsScoring.ts:51-67 | a higher band never scores less, and married never scores more than single |
| `CrsScoring.CanadianExperiencePoints` | utils/crsScoring.ts:72-86 | Canadian experience scores 0..80 single and 0..70 married |
| `CrsScoring.CanadianExperienceMonotone` | utils/crsScoring.ts:72-86 | more years never score less, and married never scores more than single |
| `CrsScoring.SpouseLanguagePoints` | utils/crsScoring.ts:102-107 | spouse language adds 0..20 |
| `CrsScoring.SpouseExperiencePoints` | utils/crsScoring.ts:110-117 | spouse Canadian experience adds 0..10 |
| `CrsScoring.SpousePointsBounded` | utils/crsScoring.ts:90-118 | the spouse factors add 0..40, and nothing for an applicant scored as single |
| `CrsScoring.SpousePoints` | utils/crsScoring.ts:90-118 | the spouse education, language and Canadian experience points, only for an applicant not scored as single |
| `CrsScoring.TransferabilityPoints` | utils/crsScoring.ts:121-181 | skill transferability adds 0..100 |
| `CrsScoring.HighEducation` | utils/crsScoring.ts:124 | `isHighEdu`: a PhD, masters, degree or two-year diploma |
| `CrsScoring.MediumEducation` | utils/crsScoring.ts:125 | `isMediumEdu`: a one-year diploma or a post-graduate certificate |
| `CrsScoring.EducationLanguagePoints` | utils/crsScoring.ts:124-135 | education with language adds 0..50, and something exactly when the band is 7 or more and the education is high or medium |
| `CrsScoring.EducationExperiencePoints` | utils/crsScoring.ts:137-146 | education with Canadian experience adds 0..50, and something exactly with a year or more and high or medium education |
| `CrsScoring.ForeignLanguagePoints` | utils/crsScoring.ts:148-156 | foreign experience with language adds 0..50, and something exactly with a foreign year or more and a band of 7 or more |
| `CrsScoring.ForeignExperiencePoints` | utils/crsScoring.ts:161-168 | foreign with Canadian experience adds 0..50, and something exactly with a year or more of each |
| `CrsScoring.TradePoints` | utils/crsScoring.ts:173-178 | the trade certificate adds 0..50, and something exactly with a certificate and a band of 5 or more |
| `CrsScoring.TransferabilityPairsMonotone` | utils/crsScoring.ts:124-178 | each transferability combination is monotone in the language band and in Canadian experience |
| `CrsScoring.TransferabilityMonotone` | utils/crsScoring.ts:121-181 | capped transferability never falls when the band or the Canadian experience rises |
| `CrsScoring.AdditionalPoints` | utils/crsScoring.ts:184-189 | additional points lie in 0..75 |
| `CrsScoring.DegreeEducation` | utils/crsScoring.ts:187 | the educations that earn the larger credential bonus: degree, masters or PhD |
| `CrsScoring.CalculateCRS` | utils/crsScoring.ts:4-192 | the estimator, block by block, returns the sum of the four sections |
| `CrsScoring.Crs` | utils/crsScoring.ts:4-192 | the ranking score as the sum of age, education, language, Canadian experience, spouse, transferability and additional points |
| `CrsScoring.AgeSection` | utils/crsScoring.ts:19-38 | the age block, computed in half points and rounded down, returns the age points |
| `CrsScoring.CanadianExperienceSection` | utils/crsScoring.ts:72-86 | the Canadian experience block returns the experience points |
| `CrsScoring.AdditionalSection` | utils/crsScoring.ts:184-189 | the sibling, bilingual and credential block returns the additional points |
| `CrsScoring.SpouseSection` | utils/crsScoring.ts:90-118 | the spouse block returns the spouse points, and nothing for a single applicant |
| `CrsScoring.TransferabilitySection` | utils/crsScoring.ts:121-181 | the transferability block, with its two caps of 50 and its cap of 100, returns the transferability points |
| `CrsScoring.CrsNonNegative` | utils/crsScoring.ts:4-192 | the estimate is never negative |
| `CrsScoring.CrsAtMost` | utils/crsScoring.ts:4-192 | from 18 (single) or 20 (married) the estimate is at most 653 |
| `CrsScoring.SingleIgnoresSpouse` | utils/crsScoring.ts:8 | for an applicant scored as single, the spouse data and the marital flags change nothing |
| `CrsScoring.WithoutSpouse` | utils/crsScoring.ts:8 | the same profile with no spouse data, which is scored as single and gets no spouse points |
| `CrsScoring.CanadianSpouseScoredAsSingle` | utils/crsScoring.ts:7-8 | a married applicant whose spouse is Canadian scores exactly as a single one |
| `CrsScoring.CrsMonotoneInLanguage` | utils/crsScoring.ts:49-181 | a higher first-language band never lowers the estimate |
| `CrsScoring.CrsMonotoneInCanadianExperience` | utils/crsScoring.ts:71-181 | more Canadian work experience never lowers the estimate |
| `CrsScoring.SingleScenario` | utils/crsScoring.ts:4-192 | a single 27-year-old PhD at band 9 with three Canadian years and one Canadian credential scores 528 |
| `CrsScoring.MarriedToCanadianScenario` | utils/crsScoring.ts:7-8 | the same applicant married to a Canadian also scores 528 |
| `Suggestions.RuleOrderRanks` | utils/suggestions.ts:11-146 | each rule sits at its position in the generator |
| `Suggestions.SuggestionId.Key` | utils/suggestions.ts:22-136 | the eleven `id:` strings of the pushes |
| `Suggestions.SuggestionId.Rank` | utils/suggestions.ts:11-146 | each suggestion's position among the pushes, 0 for region to 10 for credential |
| `Suggestions.CurrentLocation` | utils/suggestions.ts:17-18 | the location the region rules read: the campus on graduate streams, the job otherwise |
| `Suggestions.Applies` | utils/suggestions.ts:16-143 | the condition under which each of the eleven pushes happens, stream guard included |
| `Suggestions.NextCredential` | utils/suggestions.ts:136-141 | the credential count after one more Canadian credential |
| `Suggestions.GainOf` | utils/suggestions.ts:28-140 | the `points:` of each push: the factor's top score less its current one, or the fixed bonus |
| `Suggestions.ImpactOf` | utils/suggestions.ts:27-139 | the `impact:` of each push, with the wage tier High below 20 |
| `Suggestions.SuggestionsOf` | utils/suggestions.ts:11-146 | the generator's output: every firing rule's suggestion, in push order; `GenerateSuggestions` is proved equal to it |
| `Suggestions.Make` | utils/suggestions.ts:21-141 | the object a push builds: its id, its `impact:` and its `points:` |
| `Suggestions.Pick` | utils/suggestions.ts:16-143 | one push when the rule's guard holds, none otherwise |
| `Suggestions.Emit` | utils/suggestions.ts:11-146 | the pushes of a prefix of the rules, appended in rule order to the suggestions array |
| `Suggestions.GenerateSuggestions` | utils/suggestions.ts:11-146 | the generator, group by group with the program's literal points and tiers, returns every suggestion whose rule fires, in rule order, each with its impact and its gain on the grid |
| `Suggestions.RegionGroup` | utils/suggestions.ts:16-40 | adds the region suggestion for a Toronto or GTA location, or the northern move for a job outside the GTA |
| `Suggestions.WageGroup` | utils/suggestions.ts:43-54 | adds the wage suggestion below $40/hr, High below $20/hr and Medium otherwise |
| `Suggestions.LanguageGroup` | utils/suggestions.ts:57-78 | adds the language suggestion below band 9 and the bilingual one without a second language |
| `Suggestions.StatusGroup` | utils/suggestions.ts:81-109 | adds the tenure, permit and earnings suggestions for each flag not set |
| `Suggestions.CategoryGroup` | utils/suggestions.ts:112-130 | adds the strategic-occupation suggestion for sales and service or no category, or the shift suggestion for business |
| `Suggestions.CredentialGroup` | utils/suggestions.ts:133-143 | adds the credential suggestion to a graduate with fewer than two credentials |
| `Suggestions.EmitPrefix` | utils/suggestions.ts:11-146 | the first k rules give what the first k − 1 give, then the k-th rule's suggestion |
| `Suggestions.EmitMembers` | utils/suggestions.ts:11-146 | a suggestion is produced by a rule list exactly when one of its rules fires and makes it |
| `Suggestions.EmitOrdered` | utils/suggestions.ts:11-146 | rules in increasing rank give suggestions in increasing rank |
| `Suggestions.SuggestionsOrdered` | utils/suggestions.ts:11-146 | the suggestions come in the program's push order, and no identifier occurs twice |
| `Suggestions.RuleListed` | utils/suggestions.ts:11-146 | every suggestion identifier has a rule in the generator |
| `Suggestions.SuggestionMembership` | utils/suggestions.ts:11-146 | a suggestion is in the list exactly when its rule fires, and it then carries its rule's impact and gain |
| `Suggestions.StreamGating` | utils/suggestions.ts:16-133 | Express Entry gets only the language suggestions; job-offer streams never get language or credential ones; graduates get only region, language, bilingual and credential ones |
| `Suggestions.SuggestionsGainPoints` | utils/suggestions.ts:11-146 | every suggestion gains a positive number of points |
| `Suggestions.RegionGains` | utils/suggestions.ts:20-38 | the region suggestion gains 10 from Toronto and 7 from the GTA; the northern move gains 2 |
| `Suggestions.ActOn` | utils/suggestions.ts:22-140 | the profile after following a suggestion, on the same stream |
| `Suggestions.CredentialGain` | utils/suggestions.ts:134-141 | one more Canadian credential gains 5 from any count other than "2+" |
| `Suggestions.TopCategoryScore` | utils/suggestions.ts:117 | the strategic occupation group scores the top 10 points |
| `Suggestions.GraduateRegionGain` | utils/suggestions.ts:24-28 | a northern campus raises a graduate score by 10 minus the current region score |
| `Suggestions.GraduateLanguageGain` | utils/suggestions.ts:59-65 | reaching band 9 raises a graduate score by 10 minus the current language score |
| `Suggestions.GraduateBilingualGain` | utils/suggestions.ts:69-75 | a second official language raises a graduate score by 10 |
| `Suggestions.GraduateCredentialGain` | utils/suggestions.ts:134-140 | changing the credential count changes a graduate score by the difference of the two credential scores |
| `Suggestions.JobOfferRegionGain` | utils/suggestions.ts:26-37 | a northern job raises a job-offer score by 10 minus the current region score |
| `Suggestions.JobOfferWageGain` | utils/suggestions.ts:45-51 | a wage of $40/hr raises a job-offer score by 10 minus the current wage score |
| `Suggestions.JobOfferTenureGain` | utils/suggestions.ts:82-88 | completing the tenure raises a job-offer score by 3 |
| `Suggestions.JobOfferPermitGain` | utils/suggestions.ts:91-97 | a valid permit raises a job-offer score by 10 |
| `Suggestions.JobOfferEarningsGain` | utils/suggestions.ts:100-106 | an earnings history raises a job-offer score by 3 |
| `Suggestions.JobOfferCategoryGain` | utils/suggestions.ts:113-127 | a strategic occupation raises a job-offer score by 10 minus the current category score |
| `Suggestions.GraduateGain` | utils/suggestions.ts:11-146 | on a graduate stream, following a suggestion whose rule fires raises the grid total by exactly its gain |
| `Suggestions.JobOfferGain` | utils/suggestions.ts:11-146 | on a job-offer stream, following a suggestion whose rule fires raises the grid total by exactly its gain |
| `Suggestions.ActingOnRule` | utils/suggestions.ts:11-146 | on a scored stream, following a suggestion whose rule fires raises the calculator's total by exactly its gain |
| `Suggestions.ActingGains` | utils/suggestions.ts:11-146 | on a scored stream, following any suggestion made raises the calculator's total by exactly the points it advertises |

## Left out

- The suggestions' title and description texts, and the table captions, are display text. Captions are kept as data but nothing is proved about them. A suggestion's `id` string is `SuggestionId.Key()`.
- The user interface components, the assistant service that calls a remote language model, and the donation, link and tech-occupation lists in `constants.ts` are not part of this model.
- The `jobDuration` profile field (types.ts:26) and the `Category` enumeration (types.ts:12-18) are left out. No scoring code reads either of them.
- The unused `stream` argument of `getRegionScore` and `getFieldOfStudyScore` is dropped.
- Numbers are integers. A `NaN` or fractional age, wage, band or year count is not modelled, so neither is the fractional age point before `Math.floor`. The model computes the age block in half points, which keeps the 5.5-point decay exact.
- Record lookups in `calculateCRS` (`eduMap[edu] || 0`) are modelled as map lookups that give 0 for a missing key. Keys inherited from the JavaScript object prototype are not modelled.
- `calculateOINPScore`, `calculateCRS` and `generateSuggestions` are each written as a method that calls one helper method per source block, in the program's order, rather than as one long body.
- The `transferPoints` accumulator in `calculateCRS` is written to but never added to the score. The model leaves it out and adds the capped sum, as the program does.
- Scoring.GetEEStatus: returns a label from an enumeration whose `Message()` is the program's exact text. That the twelve texts are pairwise distinct is not proved.
- The breakdown record is a list of pairs in insertion order. It stands for the record because no branch writes a key twice.
- Suggestions.GenerateSuggestions: the language suggestion's points on the Express Entry streams are computed as on the graduate grid, as the program does. No lemma relates them to the ranking score.
