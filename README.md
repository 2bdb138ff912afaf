# Community access assistant: the eligibility engine in Dafny

This project models the shared eligibility engine of the community access assistant. The
engine matches a citizen's profile, and the members of their household, against a catalog
of government welfare schemes. It scores each scheme, ranks and groups the matches, and
explains them. The model also covers the validators the engine depends on: profile
validation, scheme validation and staleness. The last part is the in-memory scheme
catalog, whose map of schemes is updated in place.

Part by part:

- `criteria.dfy` (module `Criteria`) resolves a criterion's field to a profile or member
  value. It judges that value with the ten comparison operators. The untyped values are
  the `Value` datatype of `values.dfy`: number, string, boolean, list, or an opaque
  location that is equal to nothing.
- `scoring.dfy` (module `Scoring`) splits a scheme's criteria into matched, missing and
  partial. It computes the 0–100 score with Dafny `real`, along with full eligibility and
  priority. The profile and member evaluators of the source are near-duplicates. They
  become one function, `Evaluate`, which takes an optional member.
- `ranking.dfy` (module `Ranking`) ranks results by priority, then by score. The library
  sort is stable, so the model is a stable insertion sort.
- `matching.dfy` (module `Matching`) holds the matcher. It keeps only open schemes,
  expands each over the household, skips the applicant (`SELF`), and de-duplicates on
  the pair (scheme id, member id).
- `groups.dfy` and `summaries.dfy` (modules `Groups`, `Summaries`) group by benefit type
  and build the summary with its per-member top three. A JavaScript `Map` is modelled as
  a Dafny `map` plus the sequence of its keys in insertion order.
- `explanation.dfy` (module `Explanation`) chooses the explanation templates. Sentences
  are template values (`CriterionNote`, `SummaryNote`, `Part`), each with a `Text()`
  rendering.
- `profile_validation.dfy` and `scheme_validation.dfy` hold the two validators. Each
  error-accumulating loop is a method, proved equal to a function that states the whole
  report. Additional lemmas state what the report means.
- `database.dfy` (module `SchemesDatabase`) holds the catalog as class
  `InMemorySchemesDatabase`. Its `schemes` map, key `order` and `lastRefresh` are fields
  that the mutators update under `modifies this`. The queries are functions reading
  those fields.
- `enums.dfy`, `profile_types.dfy`, `scheme_types.dfy`, `text.dfy`, `seqs.dfy` and
  `wrappers.dfy` hold the vocabulary, the records, ASCII text helpers, a generic filter
  with its lemmas, and `Option`.

The current time is never read. It is a parameter `now`, in integer milliseconds, of
staleness, scheme validation (the deadline warning), `LoadSchemes`, `UpdateScheme`,
`RefreshFromSources` and `GetStats`.

Where the prose description of the system and the code differ, the model follows the
code:

- The description lists a `FAMILY` applicability. The code never produces it: results
  are `individual` or `specific_member`.
- For engine results, the summary's partially-eligible count and the low priority can
  never occur. A result that is not fully eligible scores 0, and the matcher keeps only
  positive scores. `EngineSummaryCounts` and `MatchesEligible` state this. The summary
  still computes the count as the code does.
- The explanation looks up the first household member whose id equals the result's
  member id. It does this only when that id is non-empty, because an empty string is
  falsy in JavaScript.

## Model

| member | source | states |
|---|---|---|
| Criteria.KeyOf | packages/shared/src/engine/matching-engine.ts:63-96 | a recognised field name is the name of the field it resolves to |
| Criteria.KeyOfName | packages/shared/src/engine/matching-engine.ts:63-93 | each of the fifteen field names of the switch is recognised as its own field |
| Criteria.KeyValue | packages/shared/src/engine/matching-engine.ts:56-97 | only annual income, residence type and the two disability fields can be undefined, and only the location is an object |
| Criteria.HouseholdFieldsIgnoreMember | packages/shared/src/engine/matching-engine.ts:74-89 | income range, caste, marital status, location, state, residence type and family size resolve to the profile's value whether or not a member is given |
| Criteria.MemberOwnFields | packages/shared/src/engine/matching-engine.ts:61-69 | for a member, age and gender are the member's own, and the age group is computed from the member's age |
| Criteria.ProfileOwnFields | packages/shared/src/engine/matching-engine.ts:61-89 | without a member, age, occupation and family size are the profile's |
| Criteria.OccupationFallsBack | packages/shared/src/engine/matching-engine.ts:70-71 | a member without an occupation is judged by the profile's occupation (`??` fallback) |
| Criteria.MemberFieldsResolve | packages/shared/src/engine/matching-engine.ts:70-93 | for a member, their own occupation, education level and annual income win when present, and education level and annual income fall back to the profile's; the disability flag and percentage are the member's own, undefined when the member lacks them whatever the profile says |
| Criteria.EvaluateCriterion | packages/shared/src/engine/matching-engine.ts:102-168 | an absent value passes exactly when the criterion is optional; a missing or unknown operator fails |
| Criteria.MembershipOverNonList | packages/shared/src/engine/matching-engine.ts:135-145 | over a criterion value that is not a list, `IN` fails closed and `NOT_IN` passes open |
| Criteria.MembershipComplement | packages/shared/src/engine/matching-engine.ts:135-145 | over a list, `IN` and `NOT_IN` are each other's negation |
| Criteria.BetweenExact | packages/shared/src/engine/matching-engine.ts:147-152 | `BETWEEN` holds exactly for a number v and a two-element numeric pair [min, max] with min ≤ v ≤ max |
| Criteria.EqualityComplement | packages/shared/src/engine/matching-engine.ts:113-117 | `EQUALS` and `NOT_EQUALS` are each other's negation, and a location object is never strictly equal to a criterion value |
| Criteria.OrderingOnNumbers | packages/shared/src/engine/matching-engine.ts:119-133 | the four ordering operators pass only when both sides are numbers; `>=` is `>` or numeric equality |
| Criteria.ContainsIgnoresCase | packages/shared/src/engine/matching-engine.ts:154-157 | `CONTAINS` gives the same answer when either the text or the pattern is lower-cased first |
| Criteria.UnknownFieldOptional | packages/shared/src/engine/matching-engine.ts:94-96 | a criterion on a field the switch does not know holds exactly when it is optional |
| Scoring.ScoreRange | packages/shared/src/engine/matching-engine.ts:242-249 | the score is 0 or within [70, 100]; it is positive exactly when every mandatory criterion matched; it is 100 when every criterion matched |
| Scoring.PriorityOf | packages/shared/src/engine/matching-engine.ts:254-259 | high exactly when fully eligible with score ≥ 80; low exactly when not high and score < 50 |
| Scoring.SplitCriteria | packages/shared/src/engine/matching-engine.ts:224-235 | the classifying loop yields, in input order, the criteria that hold, the failed mandatory ones and the failed optional ones |
| Scoring.Evaluate | packages/shared/src/engine/matching-engine.ts:216-334 | the scoring function: the three filters, the score, full eligibility, priority and applicability; its properties are the lemmas of this section |
| Scoring.EvaluateScheme | packages/shared/src/engine/matching-engine.ts:216-334 | the imperative evaluator, for the profile or a member, returns the result the scoring function specifies |
| Scoring.Partition | packages/shared/src/engine/matching-engine.ts:224-235 | the three lists together are a permutation of the scheme's criteria |
| Scoring.ListsClassified | packages/shared/src/engine/matching-engine.ts:228-234 | matched criteria hold; missing ones failed and are mandatory; partial ones failed and are optional |
| Scoring.MandatoryCount | packages/shared/src/engine/matching-engine.ts:238-239 | the mandatory criteria number the matched mandatory ones plus the missing ones |
| Scoring.OptionalCount | packages/shared/src/engine/matching-engine.ts:245-246 | the matched optional criteria are at most the optional criteria, so the optional ratio is at most 1 |
| Scoring.EligibilityAndScore | packages/shared/src/engine/matching-engine.ts:242-251 | fully eligible ⇔ no missing criterion ⇔ positive score; the score of an eligible result lies in [70, 100] and that of an ineligible one is 0 |
| Scoring.FullyEligibleIff | packages/shared/src/engine/matching-engine.ts:251 | full eligibility holds exactly when every mandatory criterion holds |
| Scoring.PriorityFacts | packages/shared/src/engine/matching-engine.ts:254-259 | for a scored result: high ⇔ eligible with score ≥ 80, medium ⇔ eligible with score < 80, low ⇔ ineligible |
| Scoring.NoCriteriaFullScore | packages/shared/src/engine/matching-engine.ts:243-248 | a scheme without criteria scores 100 with high priority |
| Scoring.AllHoldFullScore | packages/shared/src/engine/matching-engine.ts:243-248 | when every criterion holds the score is 100 and the priority high |
| Scoring.ApplicabilityFacts | packages/shared/src/engine/matching-engine.ts:261-271 | a member result applies to that member only, with its id; a profile result is individual, with no member and no member id |
| Ranking.TiedIff | packages/shared/src/engine/matching-engine.ts:340-348 | two results are in neither order exactly when they have the same priority and score |
| Ranking.RankMatches | packages/shared/src/engine/matching-engine.ts:339-349 | the ranking keeps the number of results; it is a stable insertion sort whose order, permutation and stability are the lemmas below |
| Ranking.InsertPermutes | packages/shared/src/engine/matching-engine.ts:340 | inserting adds exactly the inserted result |
| Ranking.InsertRanked | packages/shared/src/engine/matching-engine.ts:340-348 | inserting into a ranked list keeps it ranked |
| Ranking.InsertStable | packages/shared/src/engine/matching-engine.ts:340 | inserting into a ranked list keeps the relative order of the results tied with each other |
| Ranking.RankMatchesPermutes | packages/shared/src/engine/matching-engine.ts:339-340 | the ranking is a permutation of its input |
| Ranking.RankMatchesRanked | packages/shared/src/engine/matching-engine.ts:340-348 | no result in the ranking is strictly ahead of an earlier one |
| Ranking.RankMatchesAdjacent | packages/shared/src/engine/matching-engine.ts:342-347 | neighbours have non-decreasing priority rank (high 0, medium 1, low 2), and non-increasing score when their priorities are equal |
| Ranking.RankMatchesStable | packages/shared/src/engine/matching-engine.ts:340 | results tied on priority and score keep their input order |
| Matching.FindPairIndex | packages/shared/src/engine/matching-engine.ts:200-203 | -1 exactly when no result has the scheme id and member id; otherwise the first index that does |
| Matching.Matches | packages/shared/src/engine/matching-engine.ts:179-211 | the matcher's result: the ranked collection over the schemes; soundness, uniqueness and completeness are the lemmas below |
| Matching.MatchMembers | packages/shared/src/engine/matching-engine.ts:194-207 | the member loop appends exactly what the step-by-step collection specifies |
| Matching.FindMatches | packages/shared/src/engine/matching-engine.ts:179-211 | the matcher returns the ranked collection of the schemes' results |
| Matching.MatchesSound | packages/shared/src/engine/matching-engine.ts:182-206 | every match is a positive result for a given, active and open scheme, scored for the profile or for a household member that is not `SELF` |
| Matching.MatchesEligible | packages/shared/src/engine/matching-engine.ts:189-198 | every match is fully eligible, scores within [70, 100] and is not low priority |
| Matching.ClosedSchemesExcluded | packages/shared/src/engine/matching-engine.ts:183-185 | an inactive or closed scheme never appears among the matches |
| Matching.AddMembersUnique | packages/shared/src/engine/matching-engine.ts:197-205 | the member step keeps the (scheme id, member id) pairs unique |
| Matching.CollectUnique | packages/shared/src/engine/matching-engine.ts:182-208 | the collected results have unique (scheme id, member id) pairs |
| Matching.MatchesUnique | packages/shared/src/engine/matching-engine.ts:197-210 | no two matches share a scheme id and a member id |
| Matching.AddMembersCovers | packages/shared/src/engine/matching-engine.ts:194-206 | after the member step, every non-applicant member with a positive result has its pair present |
| Matching.AddSchemeCovers | packages/shared/src/engine/matching-engine.ts:188-206 | the scheme step keeps the profile's positive result and covers every positive member pair |
| Matching.CollectExtends | packages/shared/src/engine/matching-engine.ts:180-208 | results are only ever appended: the collection over a prefix of the schemes is a prefix of the whole |
| Matching.MatchesComplete | packages/shared/src/engine/matching-engine.ts:182-210 | for an open scheme, the profile's positive result is a match, and every non-applicant member with a positive result has a match for that scheme |
| Groups.KeysFacts | packages/shared/src/engine/matching-engine.ts:481-487 | the group keys are distinct and are exactly the keys of the grouped elements |
| Groups.KeysCover | packages/shared/src/engine/matching-engine.ts:481-487 | the group sizes add up to the number of grouped elements |
| Groups.GroupBy | packages/shared/src/engine/matching-engine.ts:479-487 | the grouping loop yields the keys in first-seen order, and for each key its elements in input order |
| Summaries.CategorizeMatches | packages/shared/src/engine/matching-engine.ts:478-501 | the categorising method returns the categorisation function's groups |
| Summaries.Categorize | packages/shared/src/engine/matching-engine.ts:478-501 | the categorisation: one group per benefit type, sorted by count; its properties are the Categorize lemmas |
| Summaries.InsertGroupFacts | packages/shared/src/engine/matching-engine.ts:500 | inserting a group adds exactly that group and its count |
| Summaries.SortGroupsFacts | packages/shared/src/engine/matching-engine.ts:500 | sorting the groups is a permutation and keeps the total count |
| Summaries.SortGroupsDescending | packages/shared/src/engine/matching-engine.ts:500 | the sorted groups have non-increasing counts |
| Summaries.SortGroupsStable | packages/shared/src/engine/matching-engine.ts:500 | groups of equal count keep their first-seen order |
| Summaries.CategorizeTotal | packages/shared/src/engine/matching-engine.ts:478-501 | the group counts sum to the number of matches |
| Summaries.CategorizeDescending | packages/shared/src/engine/matching-engine.ts:500 | the groups are ordered by count, descending |
| Summaries.CategorizeGroup | packages/shared/src/engine/matching-engine.ts:490-496 | each group has a benefit type of the matches, holds that type's matches ranked (a permutation of them), counts them, is non-empty, and carries the type's display name |
| Summaries.CategorizeCovers | packages/shared/src/engine/matching-engine.ts:481-487 | every match's benefit type is a group key, and no key repeats |
| Summaries.FindMember | packages/shared/src/engine/matching-engine.ts:523 | a household member with the id such that no earlier member has it (the first, as `find` returns), or none exactly when no member has it |
| Summaries.Take | packages/shared/src/engine/matching-engine.ts:528 | `slice(0, 3)`: a prefix of length three, or everything when there are fewer |
| Summaries.SummarizeMembers | packages/shared/src/engine/matching-engine.ts:521-531 | the per-member loop over the grouped ids yields the member summaries, skipping ids that name no household member |
| Summaries.GetSummary | packages/shared/src/engine/matching-engine.ts:506-541 | the summary builder returns the summary function's counts, groups and member summaries |
| Summaries.Summary | packages/shared/src/engine/matching-engine.ts:506-541 | the summary: the totals, the eligible counts, the categories and the member summaries; its properties are SummaryCounts and the member lemmas |
| Summaries.SummaryMembers | packages/shared/src/engine/matching-engine.ts:511-531 | each member summary is for a household member, counts that member's matches (at least one), and lists the first min(count, 3) of them in ranking order, all for that member |
| Summaries.SummaryMembersComplete | packages/shared/src/engine/matching-engine.ts:511-531 | every match for a household member found by id yields a summary of that member counting all its matches, and no member id has two summaries |
| Summaries.SummaryCounts | packages/shared/src/engine/matching-engine.ts:533-538 | both totals are the number of matches; the fully and partially eligible counts together are at most that; the category counts sum to it |
| Summaries.EngineSummaryCounts | packages/shared/src/engine/matching-engine.ts:507-508 | on the matcher's own output every match counts as fully eligible and none as partially eligible |
| Explanation.NoteFor | packages/shared/src/engine/matching-engine.ts:407-440 | the template is a met one exactly for a matched criterion; an age template exactly for an age criterion; failed and generic templates quote the description; met age and occupation templates show the user's value |
| Explanation.ExplainCriteria | packages/shared/src/engine/matching-engine.ts:360-387 | the explaining loop yields one explanation per criterion, in order |
| Explanation.ExplainMatch | packages/shared/src/engine/matching-engine.ts:355-402 | the explainer returns the explanation the explanation function specifies |
| Explanation.Explain | packages/shared/src/engine/matching-engine.ts:355-402 | the explanation: the criterion notes, the summary sentence and the personal parts; its properties are the lemmas that follow |
| Explanation.ExplainedMemberIsScored | packages/shared/src/engine/matching-engine.ts:361-363 | the member whose values are explained is the member that was scored (for a non-empty id, first of its kind) |
| Explanation.ExplainConsistent | packages/shared/src/engine/matching-engine.ts:359-387 | matched criteria are explained as met, with a user value satisfying them; missing ones as not met, with a value failing them; both in the result's order |
| Explanation.SummaryCounts | packages/shared/src/engine/matching-engine.ts:389-391 | the "all requirements" sentence appears exactly for a fully eligible result and names the scheme; otherwise fewer requirements are met than counted, and the count leaves out the failed optional criteria |
| Explanation.PersonalPartsShape | packages/shared/src/engine/matching-engine.ts:445-472 | the paragraph opens with the full-eligibility sentence (occupation and state) exactly when eligible; then one sentence on the first benefit, with its amount when present and non-zero; then one on the member when the result is for one |
| Explanation.MemberResultNamesRelationship | packages/shared/src/engine/matching-engine.ts:466-469 | a member result's paragraph ends with that member's relationship; a profile result's paragraph names no member |
| Explanation.MemberPartPlacement | packages/shared/src/engine/matching-engine.ts:466-471 | the member sentence, when present, closes the paragraph; an individual result has none |
| ProfileValidation.AgeGroupOf | packages/shared/src/validation/profile-validation.ts:46-53 | the group is the unique one whose half-open band holds the age: [0,6) infant … ≥60 senior, with everything below 6 infant |
| ProfileValidation.AgeGroupMonotone | packages/shared/src/validation/profile-validation.ts:46-53 | an older age never gets a younger group |
| ProfileValidation.ValidateAge | packages/shared/src/validation/profile-validation.ts:58-74 | no error exactly for 0 ≤ age ≤ 120; `INVALID_AGE_NEGATIVE` exactly below 0, `INVALID_AGE_TOO_HIGH` exactly above 120, both for field `age` |
| ProfileValidation.MemberErrorsReport | packages/shared/src/validation/profile-validation.ts:83-113 | one error per absent id, relationship, age or gender (and no others of that kind); the percentage error exactly when the flag is set and a given percentage lies outside 0..100; every error under `familyMember.` |
| ProfileValidation.ValidateFamilyMember | packages/shared/src/validation/profile-validation.ts:79-116 | the member validator's loop and checks yield exactly the specified report |
| ProfileValidation.LocationErrorsReport | packages/shared/src/validation/profile-validation.ts:121-166 | an absent location yields exactly `MISSING_LOCATION`; a present one yields one error per failed check, `INVALID_PINCODE` exactly for a given pincode that is not six digits with a first digit of 1–9 |
| ProfileValidation.PresentLocationCodes | packages/shared/src/validation/profile-validation.ts:133-163 | a present location's report holds each code exactly when its check fails, and never `MISSING_LOCATION` |
| ProfileValidation.ValidateLocation | packages/shared/src/validation/profile-validation.ts:121-166 | the location validator yields exactly the specified report |
| ProfileValidation.MissingFieldsExact | packages/shared/src/validation/profile-validation.ts:18-31 | a required field is listed as missing exactly when the profile lacks it |
| ProfileValidation.CompleteProfileHasNoMissingFields | packages/shared/src/validation/profile-validation.ts:176-182 | a complete profile lacks no required field |
| ProfileValidation.CollectMissingFields | packages/shared/src/validation/profile-validation.ts:176-182 | the required-field loop lists the absent fields in the order of the required list |
| ProfileValidation.ReprefixAll | packages/shared/src/validation/profile-validation.ts:218-222 | each of a member's errors reappears, in order, under its member index |
| ProfileValidation.ValidateHousehold | packages/shared/src/validation/profile-validation.ts:209-225 | the household loops yield every member's errors, re-prefixed with the member's position |
| ProfileValidation.MemberErrorsReprefixed | packages/shared/src/validation/profile-validation.ts:216-224 | every error of the member at position i appears in the profile report as `familyMembers[i].` |
| ProfileValidation.CheckProfileAge | packages/shared/src/validation/profile-validation.ts:184-202 | the age checks yield the age-bound error and then the group-mismatch error |
| ProfileValidation.CheckHouseholdSize | packages/shared/src/validation/profile-validation.ts:227-247 | the closing checks yield the family-size error and then the percentage error |
| ProfileValidation.ValidateProfile | packages/shared/src/validation/profile-validation.ts:172-254 | the profile validator returns the specified missing fields and errors, and is valid exactly when both are empty |
| ProfileValidation.AgeGroupMismatchReported | packages/shared/src/validation/profile-validation.ts:192-202 | `AGE_GROUP_MISMATCH` is reported exactly when age and group are both given and the group is not the age's |
| ProfileValidation.FamilySizeMismatchReported | packages/shared/src/validation/profile-validation.ts:228-236 | `FAMILY_SIZE_MISMATCH` is reported exactly when both are given and the family size is below the member count |
| ProfileValidation.AgeBoundsReported | packages/shared/src/validation/profile-validation.ts:184-190 | an out-of-bounds age is in the report with the age check's error for field `age` |
| ProfileValidation.CompleteFamilyHasBasics | packages/shared/src/validation/profile-validation.ts:259-276 | in a complete household no member is reported as missing age, gender or relationship |
| ProfileValidation.FamilyProfileComplete | packages/shared/src/validation/profile-validation.ts:259-276 | a household is complete when it is absent or empty, or every member has age, gender, relationship and, from age 6, an education level |
| ProfileValidation.CompleteProfileFamily | packages/shared/src/validation/profile-validation.ts:259-276 | for a full profile, completeness comes down to an education level for every member aged 6 or more |
| SchemeValidation.CriterionErrorsExact | packages/shared/dist/validation/scheme-validation.js:28-49 | each criterion message is present exactly when its defect is: falsy id, type, field, operator or description, or an undefined value |
| SchemeValidation.CriterionErrorsCount | packages/shared/dist/validation/scheme-validation.js:28-49 | one message per defect |
| SchemeValidation.CriterionErrorsNone | packages/shared/dist/validation/scheme-validation.js:28-49 | no message exactly for a complete criterion |
| SchemeValidation.ValidateCriterion | packages/shared/dist/validation/scheme-validation.js:28-49 | the criterion validator pushes exactly the specified messages |
| SchemeValidation.StepErrorsExact | packages/shared/dist/validation/scheme-validation.js:53-71 | each step message is present exactly when its defect is: a missing or non-positive number, no title, description or time, an online step without a URL |
| SchemeValidation.StepErrorsNone | packages/shared/dist/validation/scheme-validation.js:53-71 | no message exactly for a complete step |
| SchemeValidation.ValidateApplicationStep | packages/shared/dist/validation/scheme-validation.js:53-71 | the step validator pushes exactly the specified messages |
| SchemeValidation.DocumentErrorsExact | packages/shared/dist/validation/scheme-validation.js:75-84 | no message exactly when name and description are given; one message per missing one |
| SchemeValidation.ValidateDocument | packages/shared/dist/validation/scheme-validation.js:75-84 | the document validator pushes exactly the specified messages |
| SchemeValidation.DataSourceErrorsExact | packages/shared/dist/validation/scheme-validation.js:88-103 | each source message is present exactly when its defect is; none exactly when name, URL and access date are given and the official flag is defined |
| SchemeValidation.ValidateDataSource | packages/shared/dist/validation/scheme-validation.js:88-103 | the source validator pushes exactly the specified messages |
| SchemeValidation.CompleteAttributionExact | packages/shared/dist/validation/scheme-validation.js:213-218 | complete attribution holds exactly when a source is present and complete |
| SchemeValidation.HasCompleteSourceAttribution | packages/shared/dist/validation/scheme-validation.js:213-218 | a source is present and its validator reports nothing; CompleteAttributionExact states what this means |
| SchemeValidation.CeilDays | packages/shared/dist/validation/scheme-validation.js:111 | the rounded-up number of days: the smallest d with ms ≤ d·86 400 000 |
| SchemeValidation.StaleIff | packages/shared/dist/validation/scheme-validation.js:107-113 | stale exactly when the absolute time difference exceeds the threshold in milliseconds |
| SchemeValidation.IsSchemeStale | packages/shared/dist/validation/scheme-validation.js:107-113 | stale when the whole days, rounded up, between now and the last update exceed the threshold; StaleIff states what this means |
| SchemeValidation.StaleAfterWholeDays | packages/shared/dist/validation/scheme-validation.js:107-113 | a scheme updated exactly d days ago is stale exactly when d exceeds the threshold |
| SchemeValidation.FreshNotStale | packages/shared/dist/validation/scheme-validation.js:107-113 | a scheme updated now is not stale for a non-negative threshold |
| SchemeValidation.GetStaleSchemesExact | packages/shared/dist/validation/scheme-validation.js:117-119 | every stale scheme is returned, only stale schemes are returned, and the result of a concatenation is the concatenation of results (order kept) |
| SchemeValidation.SortSlotsCorrect | packages/shared/dist/validation/scheme-validation.js:160 | the step-number sort is a permutation and ascending, with absent numbers last |
| SchemeValidation.SortedUnique | packages/shared/dist/validation/scheme-validation.js:160 | two ascending lists with the same elements are equal, so the sort's result does not depend on how it is computed |
| SchemeValidation.NumberingIff | packages/shared/dist/validation/scheme-validation.js:160-166 | the sorted numbers are 1..n exactly when the step numbers are 1..n in some order |
| SchemeValidation.FirstOutOfSequence | packages/shared/dist/validation/scheme-validation.js:161-166 | the early-exit loop finds a position differing from i + 1 exactly when the sorted numbers are not 1..n |
| SchemeValidation.MissingFieldErrors | packages/shared/dist/validation/scheme-validation.js:127-131 | the messages name only required fields that are absent, and every absent one |
| SchemeValidation.CheckRequiredFields | packages/shared/dist/validation/scheme-validation.js:127-131 | the required-field loop yields the specified messages |
| SchemeValidation.CheckCriteria | packages/shared/dist/validation/scheme-validation.js:145-148 | the criteria loops yield every criterion's messages tagged with its position |
| SchemeValidation.CheckSteps | packages/shared/dist/validation/scheme-validation.js:155-158 | the step loops yield every step's messages tagged with its position |
| SchemeValidation.CheckDocuments | packages/shared/dist/validation/scheme-validation.js:170-173 | the document loops yield every document's messages tagged with its position |
| SchemeValidation.CheckSource | packages/shared/dist/validation/scheme-validation.js:176-179 | the source check yields the source's messages under `Source: ` |
| SchemeValidation.CheckProcess | packages/shared/dist/validation/scheme-validation.js:141-167 | the criteria and steps warnings, including the numbering warning, as specified |
| SchemeValidation.CheckStatus | packages/shared/dist/validation/scheme-validation.js:181-203 | the contact, benefits, openness and deadline warnings at `now`, as specified |
| SchemeValidation.CheckContent | packages/shared/dist/validation/scheme-validation.js:126-174 | the errors before the source and contact checks, in order |
| SchemeValidation.ValidateScheme | packages/shared/dist/validation/scheme-validation.js:123-209 | the scheme validator returns the specified errors and warnings, and is valid exactly when there are no errors |
| SchemeValidation.SourceErrorsPrefixed | packages/shared/dist/validation/scheme-validation.js:176-179 | every defect of a present source is reported, and its text starts with `Source: ` |
| SchemeValidation.CriterionErrorReported | packages/shared/dist/validation/scheme-validation.js:145-148 | a defect of the criterion at position i is reported under that position |
| SchemeValidation.CriteriaErrorsEmpty | packages/shared/dist/validation/scheme-validation.js:145-148 | the criteria report nothing exactly when no criterion does |
| SchemeValidation.StepsErrorsEmpty | packages/shared/dist/validation/scheme-validation.js:155-158 | the steps report nothing exactly when no step does |
| SchemeValidation.DocumentsErrorsEmpty | packages/shared/dist/validation/scheme-validation.js:170-173 | the documents report nothing exactly when no document does |
| SchemeValidation.MissingFieldsEmpty | packages/shared/dist/validation/scheme-validation.js:127-131 | no missing-field message exactly when steps, documents, contact and source are all present |
| SchemeValidation.SchemeValidIff | packages/shared/dist/validation/scheme-validation.js:123-209 | valid exactly when the optional parts are present, a given name has ≥ 3 and a given description ≥ 10 characters, every criterion, step and document is complete, the source is complete and the contact names a department |
| SchemeValidation.ValidHasCompleteSource | packages/shared/dist/validation/scheme-validation.js:176-218 | a valid scheme has complete source attribution |
| SchemeValidation.NumberingWarningOnce | packages/shared/dist/validation/scheme-validation.js:159-166 | the numbering warning appears at most once, and exactly when the steps are out of sequence |
| SchemeValidation.OutOfSequenceIff | packages/shared/dist/validation/scheme-validation.js:151-166 | out of sequence exactly when there is a step list whose numbers are not 1..n in some order |
| SchemesDatabase.MergeFacts | packages/shared/dist/database/schemes-database.js:51-55 | an empty update only restamps `lastUpdated`; a field the update carries wins, an absent one keeps the stored value |
| SchemesDatabase.LoadMapKeys | packages/shared/dist/database/schemes-database.js:27-31 | the loaded keys are exactly the ids of the loaded schemes |
| SchemesDatabase.LoadMapLastWins | packages/shared/dist/database/schemes-database.js:29-31 | the scheme stored under an id is the last loaded one with that id |
| SchemesDatabase.SearchOrderFacts | packages/shared/dist/database/schemes-database.js:123-128 | ordering the hits only reorders them, name matches ahead of the rest; each of the two classes keeps its input order, as the stable sort on a 0/1 key does |
| SchemesDatabase.CountByCategory | packages/shared/dist/database/schemes-database.js:153-157 | the counting loop has one entry per benefit type present, holding the number of schemes of that type |
| SchemesDatabase.StatsFacts | packages/shared/dist/database/schemes-database.js:153-157 | the per-type counts are positive and add up to the number of schemes counted |
| SchemesDatabase.InMemorySchemesDatabase.constructor | packages/shared/dist/database/schemes-database.js:9-23 | an empty catalog with no refresh, whose threshold is the configured one, else 30 days |
| SchemesDatabase.InMemorySchemesDatabase.Set | packages/shared/dist/database/schemes-database.js:30 | `Map.set`: the entry is replaced, or a new key is appended to the insertion order |
| SchemesDatabase.InMemorySchemesDatabase.LoadSchemes | packages/shared/dist/database/schemes-database.js:27-33 | the catalog becomes the map of the loaded schemes, keyed in first-seen order, and the refresh time is recorded |
| SchemesDatabase.InMemorySchemesDatabase.AddScheme | packages/shared/dist/database/schemes-database.js:37-44 | the scheme's validation report is returned; the scheme is stored exactly when valid; otherwise nothing changes |
| SchemesDatabase.InMemorySchemesDatabase.UpdateScheme | packages/shared/dist/database/schemes-database.js:47-62 | none and no change for an unknown id or an invalid merge; otherwise the merged, restamped scheme is stored under the same key and returned |
| SchemesDatabase.InMemorySchemesDatabase.DeleteScheme | packages/shared/dist/database/schemes-database.js:66-68 | reports whether the id was present, and removes that key only |
| SchemesDatabase.InMemorySchemesDatabase.Clear | packages/shared/dist/database/schemes-database.js:169-172 | empties the catalog and resets the refresh time |
| SchemesDatabase.InMemorySchemesDatabase.RefreshFromSources | packages/shared/dist/database/schemes-database.js:141-145 | records the refresh time and leaves the schemes as they are |
| SchemesDatabase.InMemorySchemesDatabase.GetAllSchemes | packages/shared/dist/database/schemes-database.js:72-74 | exactly the stored schemes that are active, in the catalog's insertion order |
| SchemesDatabase.InMemorySchemesDatabase.GetSchemeById | packages/shared/dist/database/schemes-database.js:78-80 | the stored scheme for the id, or none exactly when there is none |
| SchemesDatabase.InMemorySchemesDatabase.GetSchemesByCategory | packages/shared/dist/database/schemes-database.js:84-87 | exactly the active schemes whose type is the category or whose categories include it |
| SchemesDatabase.InMemorySchemesDatabase.GetSchemesByState | packages/shared/dist/database/schemes-database.js:91-103 | exactly the active schemes that are central or whose lower-cased name and description contain the lower-cased state |
| SchemesDatabase.InMemorySchemesDatabase.SearchSchemes | packages/shared/dist/database/schemes-database.js:107-129 | a reordering of the active schemes containing a query word longer than two characters, with whole-query name matches first; name matches, and the other hits, each keep their order among the hits |
| SchemesDatabase.InMemorySchemesDatabase.GetStaleSchemes | packages/shared/dist/database/schemes-database.js:133-136 | exactly the stored schemes stale against the given threshold, or else the configured one |
| SchemesDatabase.InMemorySchemesDatabase.GetStats | packages/shared/dist/database/schemes-database.js:149-165 | total is the map size, active ≤ total, the stale count, the refresh time, and one positive count per active benefit type, the counts summing to the active total |
| Text.Lower | packages/shared/src/engine/matching-engine.ts:156 | lower-casing keeps the length and maps each character |
| Text.LowerIdempotent | packages/shared/src/engine/matching-engine.ts:156-160 | lower-casing twice is lower-casing once |
| Text.Words | packages/shared/dist/database/schemes-database.js:109 | splitting on whitespace yields non-empty words that contain no whitespace |
| Text.WordsCover | packages/shared/dist/database/schemes-database.js:109 | the words laid end to end are exactly the non-whitespace characters of the input, in order |
| Text.WordsAreRuns | packages/shared/dist/database/schemes-database.js:109 | each word occurs in the input as a maximal run, with whitespace or an end of the input on both sides, and the words appear left to right without overlapping; with the no-whitespace clause and WordsCover this makes them exactly the pieces of `split(/\s+/)` |

## Left out

- Wall clock: `new Date()` is a parameter `now` in milliseconds, and dates are integer milliseconds. The summary's `timestamp` is left out.
- `toLocaleString` formatting of benefit amounts, and the mis-encoded rupee sign of that sentence: the amount is carried as a number in the template value.
- Unicode `toLowerCase` in `CONTAINS`, the state filter and search: lower-casing covers ASCII letters only.
- `async`/`Promise` wrappers of the catalog queries: the queries are plain functions.
- `autoRefreshIntervalMs` of the catalog configuration: nothing reads it.
- `getSummary`'s key order for members and `schemesByCategory`'s property order: modelled as first-seen order; JavaScript orders integer-like object keys first, which benefit-type strings never are.
- The client and server packages, the compiled duplicate of the engine, type declarations, sample data and test generators: they are UI, I/O or data, not engine logic.
- Numbers: JavaScript numbers are modelled as `int` throughout (ages, incomes, percentages, family sizes, step numbers, amounts), so fractions, `NaN` and `Infinity` are not: `getAgeGroup(NaN)` gives senior and `validateAge(NaN)` reports nothing in the source, cases the model cannot express.
- `null`: optional fields are present or absent, and `null` is read as absent. The source's `!== undefined` tests treat `null` as present: an `age` of `null` with an age group reports `AGE_GROUP_MISMATCH`, a `familySize` of `null` with members reports `FAMILY_SIZE_MISMATCH`, and a `null` member age counts as given for household completeness. The declared types exclude `null`, and the model reports none of these.
- Lengths: `|s|` counts code points, whereas `.length` counts UTF-16 code units, so the name and description length checks of scheme validation differ for characters outside the Basic Multilingual Plane.
- Text.Words: whitespace is the ASCII set (space, tab, line feed, carriage return, vertical tab, form feed); the Unicode spaces that `\s` also matches (U+00A0, U+FEFF, U+2028, U+2029 and others) do not split words in the model.
- Criteria.EvaluateCriterion: `BETWEEN` with non-numeric bounds is false, whereas JavaScript would coerce the bounds with `>=`; orderings of strings are also false because the code requires numbers on both sides.
- SchemesDatabase.Merge: an update cannot unset an optional field (a JavaScript spread of `undefined` would), and `lastUpdated` is always overwritten.
- Explanation.ExplainMatch: the member for the explanation is the first household member with the result's id, as `find` returns; nothing is claimed when ids repeat.
- SchemeValidation.SortSlots: a `null` step number, which the comparator would treat as 0, is modelled as absent and sorted last as `undefined` is.
- SchemeValidation.ValidateScheme: fields the typed records always carry (id, name, benefit type and the like) are never absent, so only steps, documents, contact and source can be reported missing; a falsy empty name or description is not length-checked, as in the code.
