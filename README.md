# EDU2JOB career predictor: a Dafny model

EDU2JOB suggests career roles from a student's education. This project is a
Dafny model of the parts of EDU2JOB that hold logic, with proofs of what that
logic guarantees:

- **The rule-based job scorer of the Node server** (`predictJob` in
  `server/server.js`). It starts eight roles at 0, adds points from field,
  degree, GPA, experience and skill rules, sorts stably by score, keeps the
  top three and caps each confidence at 100.
- **The server's in-memory user and prediction store.** The register,
  Google login, profile update, predict and history handlers act on `data`,
  modelled as a class with two sequences.
- **The dashboard's statistics over the prediction history** and the
  predict form's required-field gate (`DashboardPage.tsx`). The statistics
  are the per-year role counts, the distinct roles, the three most frequent
  roles, the most recent year and that year's counts.
- **The profile form** (`ProfileForm.tsx`): education validation, the
  submit gate, and adding and removing skills.
- **The Django field validators and their allow-lists** (`serializers.py`).
- **The ML feature encoding** (`utils.py`): label and one-hot encoding, and
  the numeric fallbacks of `preprocess`.
- **The synthetic dataset generator** (`generate_dataset.py`): its
  labelling table, experience rule and row loop.

Layout, one module per file:

| file | module | models |
|---|---|---|
| `wrappers.dfy` | `Wrappers` | `Option` and `Result` |
| `text.dfy` | `Text` | `toLowerCase`, `includes`, `trim`, `split`, `join` |
| `tally.dfy` | `Tally` | occurrence counts, `new Set` de-duplication, first indexes |
| `stable_sort.dfy` | `StableSort` | the stable descending `Array.prototype.sort` |
| `scoring.dfy` | `Scoring` | the rule table and the scoring phase of `predictJob` |
| `ranking.dfy` | `Ranking` | the ranking phase of `predictJob` |
| `scenarios.dfy` | `Scenarios` | two submissions scored and ranked end to end |
| `store.dfy` | `Store` | the `data` object and its handlers |
| `dashboard.dfy` | `Dashboard` | `DashboardPage.tsx` |
| `profile_form.dfy` | `ProfileForm` | `ProfileForm.tsx` |
| `serializers.dfy` | `Serializers` | `serializers.py` |
| `features.dfy` | `Features` | `utils.py` |
| `dataset.dfy` | `Dataset` | `generate_dataset.py` |

### How the scorer is modelled

- **Specification.** `Scoring.Score(e, r)` is the sum of what every rule adds
  to role `r`. `Scoring.Scores` collects these into a table.
- **The imperative code.** `ComputeScores` mirrors the `+=` code, phase by
  phase, on a `map<Role, int>`, and is proved equal to `Scores`.
- **Ranking.** `Ranking.Rank` is the pure `entries → sort → slice → map`
  pipeline.
- **A reference definition.** `Ranking.RankCharacterised` says: if `a`, `b`
  and `c` come first, in that order, under "higher score, then earlier
  catalogue position", then the result is exactly those three. That
  statement does not depend on the sort.

### Where the client and the server disagree

- **The predict handler does not validate its body.** The dashboard refuses
  to send a request with an empty field
  (`my-app/src/pages/DashboardPage.tsx:91-95`), but the server
  (`server/server.js:352-373`) runs `predictJob` on any body. The model
  follows the server: `Store.Data.Predict` has no precondition on the
  education.
- **Some dropdown options fail validation.** The profile form offers degrees
  and specializations that its own `validateEducation` rejects.
- **One specialization is rejected by the server.** The specialization
  dropdown offers "Civil", which the server's allow-list rejects.
- Both of these are stated as lemmas, not corrected.

## Model

| member | source | states |
|---|---|---|
| Scoring.Index | server/server.js:64-73 | every role has a position below 8 in the catalogue, and the catalogue at that position is the role |
| Scoring.CatalogIsEnumeration | server/server.js:64-73 | the catalogue lists the 8 roles once each, in declaration order; distinct roles have distinct names |
| Scoring.Scores | server/server.js:64-137 | the table has a score for every role, and that score is the sum of the rule points for the role |
| Scoring.AddToAll | server/server.js:104 | `Object.keys(predictions).forEach(job => predictions[job] += d)` adds `d` to every role |
| Scoring.ZeroTableComplete | server/server.js:64-73 | the initial table holds every role at 0 |
| Scoring.ApplyFieldRules | server/server.js:76-97 | the six lower-cased substring rules on the field add exactly `FieldPoints` to each role |
| Scoring.ApplyComputingRule | server/server.js:76-79 | a field mentioning "computer" or "software" adds 30 to Software Engineer and 20 to Data Scientist; every other score is unchanged |
| Scoring.ApplyDataRule | server/server.js:80-83 | "data" or "statistics" adds 30 to Data Scientist and 20 to Business Analyst; every other score is unchanged |
| Scoring.ApplyBusinessRule | server/server.js:84-88 | "business" or "management" adds 30 to Product Manager, 20 to Business Analyst and 20 to Consultant; every other score is unchanged |
| Scoring.ApplyMarketingRule | server/server.js:89-91 | "marketing" adds 40 to Marketing Manager only |
| Scoring.ApplyFinanceRule | server/server.js:92-94 | "finance" or "economics" adds 40 to Financial Analyst only |
| Scoring.ApplyScienceRule | server/server.js:95-97 | "science" or "research" adds 30 to Research Scientist only |
| Scoring.ApplyProfileRules | server/server.js:100-117 | the degree, GPA and experience rules add exactly their points to each role |
| Scoring.ApplySkillRules | server/server.js:122-136 | one skill token adds exactly `TokenPoints` to each role |
| Scoring.ComputeScores | server/server.js:60-137 | the imperative scoring phase computes exactly the specification table `Scores(e)` |
| Scoring.SkillPointsNonNegative | server/server.js:120-137 | skill tokens never subtract points |
| Scoring.ScoresNonNegative | server/server.js:64-137 | every score is at least 0, since every role starts at 0 and every rule only adds |
| Scoring.NoInputScoresZero | server/server.js:64-137 | with every field absent, all eight scores are 0 |
| Scoring.DataScienceFiresTwoRules | server/server.js:76-97 | a field that lower-cases to "data science" fires the data rule and the science rule and no other (DS +30, BA +20, RS +30) |
| Scoring.DataScienceMatches | server/server.js:80-95 | "data science" contains "data" and "science" |
| Scoring.DataScienceMisses | server/server.js:76-92 | "data science" contains none of the computing, business, marketing or finance keywords |
| Scoring.DegreeBonus | server/server.js:100-105 | exactly "PhD" adds RS +20 and DS +15; exactly "Master" adds 10 to every role; any other degree adds nothing |
| Scoring.GpaBonus | server/server.js:108-112 | GPA ≥ 3.5 adds 15 to every role; 3.0 ≤ GPA < 3.5 adds 10; otherwise nothing |
| Scoring.ExperienceBonus | server/server.js:115-117 | experience > 2 adds 10 to every role, independently of the other rules |
| Scoring.AddingTokenNeverLowers | server/server.js:122-136 | one more skill token adds exactly its own points, which are non-negative, so no score drops |
| Scoring.RepeatedTokensCompound | server/server.js:122-136 | a token listed twice counts twice |
| Scoring.JoinedSkillsScoreAsList | server/server.js:121 | trimmed, comma-free skills joined with ", " (as the client sends them) split back to the same list and score the same as the array |
| Text.ContainsIffOccurs | server/server.js:76 | `includes` holds iff the substring occurs at some position |
| Text.NotContained | server/server.js:76 | a string lacking one character of a word does not contain the word |
| Text.LongerNotContained | server/server.js:76 | a string shorter than a word does not contain it |
| Text.TrimIsTrimmed | server/server.js:121 | `trim` leaves no leading or trailing whitespace and is idempotent |
| Text.TrimOfTrimmed | server/server.js:121 | `trim` leaves a trimmed string unchanged |
| Text.TrimLeadingSpace | server/server.js:121 | a leading whitespace character makes no difference to `trim` |
| Text.SplitNoSeparator | server/server.js:121 | a string without the separator splits into itself alone |
| Text.SplitAtSeparator | server/server.js:121 | splitting `a + "," + rest` gives `a` followed by the split of `rest` |
| Text.SplitTrimJoinRoundTrip | my-app/src/api.tsx:121-123 | splitting on ',' and trimming each part recovers the trimmed, comma-free tokens the client joined with ", " |
| StableSort.SortDesc | server/server.js:140-141 | the sort result is sorted by key, descending, and is a permutation of its input |
| StableSort.SortIsStable | server/server.js:140-141 | elements with equal keys keep their input order |
| StableSort.SortKeepsTieRanks | server/server.js:140-141 | if equal keys are ordered by a secondary rank in the input, they are ordered by it in the output too |
| StableSort.SortOfSorted | my-app/src/pages/DashboardPage.tsx:187 | sorting an already sorted sequence changes nothing |
| Ranking.Entries | server/server.js:140 | `Object.entries` lists every role once, in catalogue order, with its score |
| Ranking.Clamp | server/server.js:143 | `Math.min(100, score)`: at most 100, at most the score, and equal to one of them |
| Ranking.Rank | server/server.js:139-148 | the result is a primary plus exactly two alternatives |
| Ranking.PredictJob | server/server.js:60-149 | `predictJob` returns exactly the specified prediction `Rank(Scores(e))` |
| Ranking.PrecedesIsStrictTotal | server/server.js:140-141 | "higher score, then earlier catalogue position" is a strict total order |
| Ranking.EntriesTiesRanked | server/server.js:140 | entries with equal scores appear in catalogue order |
| Ranking.RankedOrder | server/server.js:140-141 | the sorted entries list every role once, with its score, ordered by score and then by catalogue position |
| Ranking.RankIsTopThree | server/server.js:139-148 | the three guesses are the three highest-ranked roles in rank order, each with its score capped at 100 |
| Ranking.TopThreePrecedes | server/server.js:140-142 | the top three are distinct, and each precedes every role listed after it |
| Ranking.TopThreeUnique | server/server.js:140-142 | only one triple of roles can come first |
| Ranking.RankCharacterised | server/server.js:139-148 | if `a`, `b`, `c` come first in that order, the result is exactly those three with capped scores |
| Ranking.ConfidenceNonIncreasing | server/server.js:140-148 | confidences never increase from the primary through the alternatives |
| Ranking.ConfidenceInRange | server/server.js:64-148 | every reported confidence lies in [0, 100] |
| Ranking.NoInputPrediction | server/server.js:64-147 | with no input, the primary is Software Engineer and the alternatives are Data Scientist and Product Manager, all at 0 |
| Scenarios.DataAnalyticsToken | server/server.js:123-135 | a token that lower-cases to "data analytics" adds DS +10 and BA +5 and nothing else |
| Scenarios.DataAnalyticsMisses | server/server.js:124-132 | "data analytics" fires neither the coding rule nor the leadership rule |
| Scenarios.LeadershipToken | server/server.js:123-135 | a token that lower-cases to "leadership" adds PM +10 and Consultant +5 and nothing else |
| Scenarios.LeadershipMisses | server/server.js:124-128 | "leadership" fires neither the coding rule nor the data rule |
| Scenarios.MarketingFiresOneRule | server/server.js:76-97 | a field that lower-cases to "marketing" adds 40 to Marketing Manager and nothing else |
| Scenarios.MarketingMissesOthers | server/server.js:76-84 | "marketing" fires neither the computing rule nor the business rule |
| Scenarios.MarketingMissesSciences | server/server.js:80-95 | "marketing" fires none of the data, finance and science rules |
| Scenarios.SubmissionAScores | server/server.js:60-137 | a PhD in Data Science with GPA 3.8, experience 3 and two skills scores SE 25, DS 80, PM 35, BA 50, MM 25, FA 25, RS 75, C 30 |
| Scenarios.TwoTokens | server/server.js:122-136 | two tokens score the sum of their points |
| Scenarios.TopOfTableA | server/server.js:139-148 | that table ranks DS 80, then RS 75, then BA 50 |
| Scenarios.SubmissionAPrediction | server/server.js:60-149 | submission A is predicted Data Scientist at 80, then Research Scientist at 75 and Business Analyst at 50 |
| Scenarios.SubmissionBScores | server/server.js:60-137 | a Marketing field with GPA 2.0 scores 40 for Marketing Manager and 0 for every other role |
| Scenarios.TopOfTableB | server/server.js:139-148 | that table ranks MM 40, then SE 0 and DS 0 by catalogue order |
| Scenarios.SubmissionBPrediction | server/server.js:60-149 | submission B is predicted Marketing Manager at 40, then Software Engineer and Data Scientist at 0 |
| Store.FindIndex | server/server.js:328-332 | `findIndex`: the first user with the id, or none when no user has it |
| Store.Merge | server/server.js:334-337 | the merged profile has the keys of both; the patch's values win and the other keys keep their values |
| Store.MergeIdempotent | server/server.js:334-337 | applying the same patch twice is the same as applying it once |
| Store.OwnedBy | server/server.js:378-379 | the filter keeps exactly the caller's records |
| Store.HistoryOf | server/server.js:376-383 | the history is sorted newest first and is a permutation of the caller's records |
| Store.HistoryExact | server/server.js:376-383 | a record is in the history iff it is stored and owned by the caller; records created at the same time keep their stored order |
| Store.OwnedByAppend | server/server.js:366-379 | a new record joins its owner's records last and changes nobody else's |
| Store.HistoryAfterPredict | server/server.js:358-383 | after a predict, the record appears in its owner's history and every other user's history is unchanged |
| Store.Data.constructor | server/server.js:162 | a fresh data file has no users and no predictions |
| Store.Data.Register | server/server.js:154-186 | a missing field gives "Email, password, and name are required"; a taken email gives "User already exists"; otherwise exactly one user with the default profile is appended; emails stay unique |
| Store.Data.GoogleLogin | server/server.js:243-302 | the three errors in order; a known email logs in the existing user with no change; an unknown email appends one password-less user; emails stay unique |
| Store.Data.UpdateProfile | server/server.js:324-338 | an unknown id gives "User not found"; otherwise exactly the first user with the id gets the merged profile |
| Store.Data.Predict | server/server.js:352-367 | the result is `predictJob` of the body, and exactly one record with the caller's id is appended |
| Dashboard.LoadHistory | my-app/src/pages/DashboardPage.tsx:61-78 | a non-array or failed response gives an empty history; otherwise each item keeps its role, gets `Number(confidence)` and takes `created_at`, falling back to `createdAt` |
| Dashboard.CountRolesCounts | my-app/src/pages/DashboardPage.tsx:182-185 | the role tally has exactly the roles that occur, each with its number of occurrences |
| Dashboard.CareerTrend | my-app/src/pages/DashboardPage.tsx:167-172 | the `forEach` loop builds exactly the nested count object `TrendOf` |
| Dashboard.CellBump | my-app/src/pages/DashboardPage.tsx:170-171 | one step adds 1 to its own year/role cell and to no other |
| Dashboard.TrendCells | my-app/src/pages/DashboardPage.tsx:167-172 | `careerTrendData[y][r]` counts the items with year `y` and role `r` |
| Dashboard.TrendCellsPresent | my-app/src/pages/DashboardPage.tsx:167-172 | a cell exists iff some item has that year and role |
| Dashboard.TrendYears | my-app/src/pages/DashboardPage.tsx:167-172 | the years of the trend are exactly the years of the items |
| Dashboard.TrendTotal | my-app/src/pages/DashboardPage.tsx:167-172 | summed over all present cells, the counts equal the length of the history |
| Dashboard.AllJobs | my-app/src/pages/DashboardPage.tsx:179 | the distinct roles of the history, in first-appearance order |
| Dashboard.Tallies | my-app/src/pages/DashboardPage.tsx:181-186 | the tally entries are the distinct roles in first-appearance order, each with its count |
| Dashboard.TopRoles | my-app/src/pages/DashboardPage.tsx:181-189 | at most three roles |
| Dashboard.SortedTallies | my-app/src/pages/DashboardPage.tsx:181-187 | the sorted tally lists every role once with its count, by count descending and then by first appearance |
| Dashboard.TopRolesPrefix | my-app/src/pages/DashboardPage.tsx:188-189 | the top roles are the first three keys of the sorted tally |
| Dashboard.TopRolesOrdered | my-app/src/pages/DashboardPage.tsx:181-189 | the top roles are distinct history roles, by count descending and then by first appearance |
| Dashboard.TopRolesLeaveOutOnlyLower | my-app/src/pages/DashboardPage.tsx:181-189 | any role left out ranks below the third top role |
| Dashboard.Latest | my-app/src/pages/DashboardPage.tsx:191 | `Math.max` is a year iff every year is known, and it is then the largest of them |
| Dashboard.MostRecentYear | my-app/src/pages/DashboardPage.tsx:191 | `null` exactly for an empty history |
| Dashboard.TrendRow | my-app/src/pages/DashboardPage.tsx:167-198 | a known year's trend row counts that year's roles; a year with no row has no items |
| Dashboard.LatestYearTrend | my-app/src/pages/DashboardPage.tsx:191-198 | every role listed is the role of some item, counted at least once and at most once per item; an empty history lists nothing (`LatestYearIsTrendRow` says which row it is) |
| Dashboard.LatestYearIsTrendRow | my-app/src/pages/DashboardPage.tsx:191-198 | the latest-year counts are empty for an empty history; they equal the trend row of the maximum year when every date parses; and they are empty when some date is NaN |
| Dashboard.NaNMatchesNothing | my-app/src/pages/DashboardPage.tsx:194 | a NaN year equals nothing, so it selects no item |
| Dashboard.ThreeRecordsTopRoles | my-app/src/pages/DashboardPage.tsx:181-189 | roles `a, a, b` give top roles `[a, b]` |
| Dashboard.ThreeRecordsOneYear | my-app/src/pages/DashboardPage.tsx:191-198 | three items of one year with roles `a, a, b` give latest-year counts a: 2, b: 1 |
| Dashboard.HandlePredict | my-app/src/pages/DashboardPage.tsx:91-105 | "Please fill all fields" iff some field is empty; otherwise the payload carries the fields, the two numbers parsed, and `skills == [specialization]` |
| ProfileForm.ValidateEducation | my-app/src/components/ProfileForm.tsx:56-77 | `None` iff all five checks pass; otherwise the message of the first failing check, in the order degree, specialization, CGPA, year, university |
| ProfileForm.OfferedDegreesRejected | my-app/src/components/ProfileForm.tsx:56-61 | every dropdown degree outside the five accepted ones, "BBA" among them, fails with "Invalid degree selection" |
| ProfileForm.OfferedSpecializationsRejected | my-app/src/components/ProfileForm.tsx:56-64 | every dropdown specialization outside the six accepted ones, "Physics" among them, fails with "Invalid specialization" |
| ProfileForm.HandleSubmit | my-app/src/components/ProfileForm.tsx:80-93 | on a validation failure the error is shown and `updateProfile` is never called; otherwise the profile is sent unchanged |
| ProfileForm.AddSkill | my-app/src/components/ProfileForm.tsx:156-162 | the input is always cleared; the list becomes the old list plus the trimmed input when that is non-empty and new, and stays exactly the same otherwise |
| ProfileForm.AddSkillKeepsDistinct | my-app/src/components/ProfileForm.tsx:156-162 | a duplicate-free skill list stays duplicate-free |
| ProfileForm.AddSkillTrimmedAndIdempotent | my-app/src/components/ProfileForm.tsx:156-162 | an added skill is trimmed, and adding the same text again changes nothing |
| ProfileForm.RemoveSkill | my-app/src/components/ProfileForm.tsx:164-169 | the skill is gone; every other skill stays; the length drops by the skill's number of occurrences |
| ProfileForm.RemoveSkillKeepsOthers | my-app/src/components/ProfileForm.tsx:167 | every other skill keeps its number of occurrences |
| ProfileForm.RemoveSkillAppend | my-app/src/components/ProfileForm.tsx:167 | filtering works piecewise, so the kept skills keep their relative order |
| ProfileForm.RemoveUndoesAdd | my-app/src/components/ProfileForm.tsx:156-169 | removing a skill just added restores the previous list |
| ProfileForm.RemoveAbsent | my-app/src/components/ProfileForm.tsx:167 | removing a skill that is not present changes nothing |
| Serializers.ValidateDegree | backend/api/serializers.py:41-44 | accepts iff the value is one of the 11 allowed degrees, returning it unchanged; otherwise "Invalid degree" |
| Serializers.ValidateSpecialization | backend/api/serializers.py:46-49 | accepts iff the value is one of the 14 allowed specializations, returning it unchanged; otherwise "Invalid specialization" |
| Serializers.ValidateProfileCgpa | backend/api/serializers.py:51-54 | accepts iff 0 ≤ value ≤ 10, unchanged; otherwise "CGPA must be between 0 and 10" |
| Serializers.ValidateProfileGraduationYear | backend/api/serializers.py:56-61 | accepts iff 2000 ≤ value ≤ current year + 6, unchanged; otherwise "Invalid graduation year" |
| Serializers.ValidateEducationCgpa | backend/api/serializers.py:125-128 | accepts iff 0 ≤ value ≤ 10, unchanged; otherwise "Invalid CGPA" |
| Serializers.ValidateEducationGraduationYear | backend/api/serializers.py:130-133 | accepts iff 2000 ≤ value ≤ 2030, unchanged; otherwise "Invalid graduation year" |
| Serializers.ValidateAdminCode | backend/api/serializers.py:177-180 | accepts only "ADMIN123"; otherwise "Invalid admin code" |
| Serializers.CgpaValidatorsAgree | backend/api/serializers.py:125-128 | both CGPA validators accept the same values, with different messages |
| Serializers.EducationYearsWithinProfileYears | backend/api/serializers.py:130-133 | from 2024 on, every year the education serializer accepts, the profile serializer accepts too |
| Serializers.FormValuesAccepted | backend/api/serializers.py:14-24 | whatever passes the profile form's validation passes the server's degree, specialization and CGPA validators |
| Serializers.DropdownsAgainstAllowLists | backend/api/serializers.py:14-24 | the form's degree dropdown is exactly the allowed degrees; its specialization dropdown is the allowed list plus "Civil", which the server rejects |
| Serializers.CivilNotAllowed | backend/api/serializers.py:19-24 | "Civil" is not an allowed specialization |
| Features.MapsAreEnumerations | backend/api/utils.py:13-37 | each map's keys, in insertion order, carry the codes 1, 2, 3, ... |
| Features.CodesDistinctAndPositive | backend/api/utils.py:13-30 | distinct keys have distinct codes, and no code is the unknown code 0 |
| Features.LabelEncode | backend/api/utils.py:81-91 | four features, the last two being CGPA and year; an unknown or missing degree or specialization gets the code 0 |
| Features.LabelEncodeRoundTrip | backend/api/utils.py:81-91 | a known degree or specialization gets its position in the key list counted from 1, and an unknown or missing one gets 0; decoding the first two features therefore gives back a known category, and nothing for an unknown one |
| Features.Indicator | backend/api/utils.py:99-100 | position `i` is 1 iff the value equals the `i`-th key, and 0 otherwise |
| Features.IndicatorOnes | backend/api/utils.py:99-100 | over distinct keys, the indicator has one 1 when the value is a key and none otherwise |
| Features.OneHot | backend/api/utils.py:97-106 | length 6 + 7 + 2: the degree block, then the specialization block, then CGPA and year |
| Features.OneHotAgreesWithLabels | backend/api/utils.py:81-106 | each block has exactly one 1, at the label code's position, for a known category, and only zeros otherwise |
| Features.Truncate | backend/api/utils.py:61 | `int(x)` on a float truncates toward zero |
| Features.ReadCgpa | backend/api/utils.py:51-58 | a number is read as itself; a text is read as its parse when that succeeds and as 0.0 when it fails; a missing or null value is 0.0 |
| Features.ReadYear | backend/api/utils.py:52-63 | a number is read truncated toward zero (its floor when non-negative); a text is read as its parse when that succeeds and as 2024 when it fails; a missing or null value is 2024 |
| Features.Preprocess | backend/api/utils.py:43-75 | "tree" gives exactly the label encoding of the read values; "linear" gives exactly their one-hot encoding; any other model type gives "Invalid MODEL_TYPE" |
| Features.ConfiguredPreprocess | backend/api/utils.py:6-67 | with the configured `MODEL_TYPE` the result is always the label encoding |
| Features.Fallbacks | backend/api/utils.py:51-63 | a missing, null or unparseable CGPA becomes 0.0; a missing, null or unparseable year becomes 2024; a float year is truncated |
| Dataset.GenerateExperience | backend/api/ml/generate_dataset.py:24-25 | `max(0, 2025 - year)`: never negative, at least 2025 - year, and equal to 0 or to 2025 - year |
| Dataset.ExperienceDecreasesWithYear | backend/api/ml/generate_dataset.py:24-25 | a later graduation never gives more experience; up to 2025, one year later means one year less |
| Dataset.TargetRole | backend/api/ml/generate_dataset.py:38-55 | a field gets a label iff it is one of the nine fields the generator draws from |
| Dataset.TargetRoleAllowed | backend/api/ml/generate_dataset.py:38-55 | no label is "Product Manager", and every label is a training role of `ALLOWED_ROLES` |
| Dataset.GpaOnlyDecidesTwoFamilies | backend/api/ml/generate_dataset.py:39-55 | the GPA changes the label only for the data and computing fields, and a higher GPA never loses the first-named role |
| Dataset.SkillBankCoversFields | backend/api/ml/generate_dataset.py:7-36 | every field has at least two distinct skills, so `sample(k=2)` succeeds |
| Dataset.MakeRow | backend/api/ml/generate_dataset.py:29-59 | a row keeps the drawn degree, field, GPA and year, carries the experience of that year, and is labelled with the role the label chain gives its field |
| Dataset.MakeRowGood | backend/api/ml/generate_dataset.py:29-59 | a row's experience is its years since graduation; its label is a training role other than Product Manager; its skills are two different skills of its field |
| Dataset.GenerateDataset | backend/api/ml/generate_dataset.py:27-59 | exactly `TOTAL_ROWS` rows, the `i`-th built from the `i`-th draw, each satisfying the row properties |

## Left out

- I/O and libraries are parameters or absent. These are Express routing,
  reading and writing the JSON file, bcrypt, JWT signing, and Google's
  `OAuth2Client`. The results the handlers use arrive as parameters: the
  password hash, the verified payload (`None` when verification throws),
  whether a client id is configured, the fresh id and the current time.
- The login and `/api/auth/me` handlers are not modelled. They read the
  store without changing it, and they depend on bcrypt and JWT.
- Concurrent requests are not modelled. This covers the lost updates of the
  file's read-modify-write.
- Store.Data.Register: the timestamp is an integer, not the ISO
  `createdAt` string. Ids are parameters, so two users may share an id.
- Store.HistoryOf: `createdAt` is an integer millisecond timestamp.
  Parsing the ISO string with `new Date` is not modelled.
- Text.Lower: only ASCII letters are lower-cased. `toLowerCase` also maps
  other scripts.
- Text.Trim: only ASCII whitespace, NBSP and BOM are removed. `trim`
  removes every Unicode space separator.
- Scoring.Score: GPA and experience are numbers. JavaScript's coercion of
  strings in `gpa >= 3.5` and of other types is not modelled.
- Scoring.Score: a `skills` value that is neither an array nor a string is
  not modelled. Neither are non-string array elements.
- The `eduJobData` chart is not modelled. It sums floating-point
  confidences.
- The recharts rendering is not modelled.
- The mapping of `top_roles` in the `handlePredict` response is not
  modelled. It is display of a server response.
- Date parsing in the dashboard is the parameter `yearOf`.
  `getFullYear()` gives a year or NaN, and NaN is `Year.Invalid`.
- Dashboard.TopRoles: JavaScript objects list integer-like keys (a role
  named "2024") before the others. The model keeps first-appearance order
  for every key.
- `Number(...)` conversions of strings are parameters.
- ProfileForm.ValidateEducation: NaN from `Number` of a non-numeric
  string is not modelled; such a value would compare false both ways and
  pass the range checks. An emptied input is `Number("") == 0`, which the
  model covers as the real 0.0: it passes the CGPA check and fails the
  year check. CGPA and year are reals.
- The current calendar year is a parameter of `ValidateEducation` and
  `ValidateProfileGraduationYear`.
- The certificate upload of the profile form is not modelled (network
  I/O).
- The loading and success flags of the profile form are not modelled. The
  form's initial-profile loading is not modelled either.
- Features.Preprocess: `float(...)` and `int(...)` on strings are
  parameters.
- Features.Preprocess: Python's `float` accepts NaN and infinity, and
  `int` of them raises. Neither is modelled, since reals have no NaN.
- Features.Preprocess: boolean inputs are not modelled.
- The numpy `reshape(1, -1)` is not modelled. The vector is returned flat.
- `predictor.py` and `train_model.py` are not part of this model. They are
  scikit-learn loading and training. Only `ALLOWED_ROLES` is used.
- `fields.py` encryption is not modelled.
- Django views, ORM models and settings are not modelled.
- Dataset.GenerateDataset: the random draws are inputs, and their ranges
  are the precondition.
- Dataset.GenerateDataset: the GPA's rounding to two decimals is not
  modelled.
- Dataset.GenerateDataset: the CSV output is not modelled.
- Dataset.TargetRole: a field outside the list gives `None`. Python would
  keep the previous iteration's label or fail; the generator never draws
  such a field.
