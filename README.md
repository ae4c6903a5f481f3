# safam core, modelled in Dafny

This project models the logic at the core of safam, a household budget
application. It scrapes bank and credit-card transactions, classifies them
into categories by rules and by a language model, detects recurring
payments, computes balances and a month-end forecast, and signs members in
with passkeys. The model has one Dafny module per source file, plus a few
shared modules:

| module | source |
|---|---|
| `Intervals`, `Detect` | `src/lib/recurring/intervals.ts`, `src/lib/recurring/detect.ts` |
| `Rules`, `Direction`, `Classify`, `Ai` | `src/lib/classification/rules.ts`, `category-direction.ts`, `classify.ts`, `ai.ts` |
| `BulkClassify` | `scripts/bulk-classify.ts` |
| `ScraperTransform`, `WebhookTransform` | `src/lib/scraper/transform.ts`, `scraper/src/transform.ts` |
| `Hebrew`, `Isracard`, `Ingest` | `src/lib/scraper/hebrew.ts`, `isracard.ts`, `ingest.ts` |
| `WebhookAuth`, `WebhookRoute` | `src/lib/webhook/auth.ts`, `src/app/api/webhook/transactions/route.ts` |
| `Balance`, `DbHelpers`, `Forecast` | `src/lib/balance/calculate.ts`, `src/lib/db/helpers.ts`, `src/lib/forecast/calculate.ts` |
| `Format`, `Institutions` | `src/lib/format.ts`, `src/lib/constants/institutions.ts` |
| `AccountsRoute`, `CategoriesRoute` | `src/app/api/accounts/route.ts`, `src/app/api/categories/route.ts` |
| `WebAuthn`, `Base64`, `RegisterOptions`, `RegisterVerify` | `src/lib/auth/webauthn.ts` and the two registration routes |
| `Proxy` | `src/proxy.ts` |
| `Db` | the tables of `src/lib/db/schema.ts` and the statements issued against them |
| `Common`, `Calendar`, `Sorting`, `Grouping` | JavaScript string, number and date behaviour; `Array.sort`; grouping through a `Map` |

Conventions:

- Money is an integer number of agorot.
- Calendar dates are integer day numbers (`Calendar.MakeDay`). Instants are integer milliseconds: challenge expiry and sync times.
- Each database table is a class whose `rows` map is keyed by primary key. The methods are the SQL statements the code issues. Generated ids are fresh. The unique indexes of the schema are the tables' `Valid()` invariants.
- Code that works step by step is modelled as methods with loops over these tables, proved against specification functions. Examples are ingesting a batch, classifying, detecting patterns, the routes and the WebAuthn ceremonies.
- Code that computes a value is modelled as functions and lemmas.
- What the code cannot see inside is given to the model as a parameter:
  - the request body after `request.json()`;
  - environment variables;
  - the clock;
  - SHA-256, AES encryption, `JSON.parse` and the language model's reply;
  - the WebAuthn library's verdicts;
  - `Math.sqrt`;
  - which database statements fail.

## Model

| member | source | states |
|---|---|---|
| Intervals.FrequencyToDays | src/lib/recurring/intervals.ts:10-18 | every nominal period lies between 7 and 365 days |
| Intervals.RangeOf | src/lib/recurring/intervals.ts:20-32 | each frequency has its own bucket in the bucket table |
| Intervals.RangesAscending | src/lib/recurring/intervals.ts:24-32 | the buckets are listed in ascending order, each non-empty, one per frequency |
| Intervals.RangesDisjoint | src/lib/recurring/intervals.ts:24-32 | no median gap lies in the buckets of two different frequencies |
| Intervals.FirstContainingFinds | src/lib/recurring/intervals.ts:34-41 | the scan returns the frequency of a bucket containing the value, and returns null only when no bucket contains it |
| Intervals.FrequencyForIff | src/lib/recurring/intervals.ts:34-41 | `daysToFrequency` gives `f` exactly when the value lies in `f`'s bucket, and null exactly when it lies in none |
| Intervals.DaysToFrequency | src/lib/recurring/intervals.ts:34-41 | the loop over the buckets returns what the first-containing-bucket definition gives |
| Intervals.FrequencyRoundTrip | src/lib/recurring/intervals.ts:10-32 | the nominal period of a frequency maps back to that frequency and to no other |
| Intervals.FrequencyGaps | src/lib/recurring/intervals.ts:24-32 | values between the buckets (e.g. 10 or 20 days) map to no frequency |
| Intervals.Median | src/lib/recurring/intervals.ts:43-51 | 0 for an empty list; otherwise the median is at least one value and at most another |
| Intervals.MedianBounds | src/lib/recurring/intervals.ts:43-51 | the median of a non-empty list lies within any bounds of all its values |
| Intervals.MedianPermutationInvariant | src/lib/recurring/intervals.ts:45 | the median depends only on the multiset of values, since a sorted copy is taken |
| Intervals.MedianOfConstant | src/lib/recurring/intervals.ts:43-51 | a list of one repeated value has that value as its median |
| Intervals.Variance | src/lib/recurring/intervals.ts:55-57 | the population variance is never negative |
| Intervals.StandardDeviation | src/lib/recurring/intervals.ts:53-59 | 0 for fewer than two values, otherwise the square root of the population variance |
| Intervals.MaxCountIsMaximum | src/lib/recurring/intervals.ts:61-75 | the largest count bounds the count of every value and is reached by some item |
| Intervals.CountsStep | src/lib/recurring/intervals.ts:66-68 | bumping the current item's entry keeps the counts map equal to the counts of the prefix seen |
| Intervals.MaxCountStep | src/lib/recurring/intervals.ts:69-72 | one more item raises the maximum count only when that item's count exceeds it |
| Intervals.NewLeader | src/lib/recurring/intervals.ts:69-72 | an item whose count strictly exceeds every earlier count is the first to reach that count |
| Intervals.LeaderIsMode | src/lib/recurring/intervals.ts:61-75 | the first item to reach the largest count is the value `mode` returns |
| Intervals.Mode | src/lib/recurring/intervals.ts:61-75 | null for an empty list; otherwise a most frequent item, the first to reach that count scanning from the left (strict `>` keeps earlier leaders) |
| Detect.DaysBetween | src/lib/recurring/detect.ts:29-33 | the distance between two days is non-negative and takes either day to the other |
| Detect.CutoffOneYearBack | src/lib/recurring/detect.ts:44-45 | moving today's date twelve months back starts the window 365 or 366 days before today |
| Detect.Selected | src/lib/recurring/detect.ts:47-60 | the query yields one row per selected transaction, in the database's date order, carrying its description, amount, date, category and account |
| Detect.Gaps | src/lib/recurring/detect.ts:84-87 | one gap per consecutive pair of a group, each the distance in days between the two dates |
| Detect.GapsSpan | src/lib/recurring/detect.ts:81-87 | on a date-ordered group the gaps add up to the span from the first to the last transaction |
| Detect.ComputeGaps | src/lib/recurring/detect.ts:84-87 | the loop pushing consecutive gaps computes exactly the gap list of the group |
| Detect.Consistency | src/lib/recurring/detect.ts:96-98 | consistency is clamped to [0, 1] and is 1 when the gaps do not deviate at all |
| Detect.CountScore | src/lib/recurring/detect.ts:99 | the count score lies in [0, 1] and is 1 exactly when the group has six or more transactions |
| Detect.Recency | src/lib/recurring/detect.ts:100-105 | recency lies in [0, 1], is 1 within two periods of the last occurrence and 0 from three periods on |
| Detect.Confidence | src/lib/recurring/detect.ts:107 | the weighted confidence lies in [0, 1] |
| Detect.RegularRecentPasses | src/lib/recurring/detect.ts:96-108 | a group of at least three with perfectly regular gaps and a recent last occurrence always reaches the 0.7 threshold |
| Detect.StaleSmallFails | src/lib/recurring/detect.ts:96-108 | a group of at most four whose last occurrence is three periods old or more never reaches the threshold |
| Detect.Assess | src/lib/recurring/detect.ts:78-108 | a pattern is found only for groups of at least three, with a frequency whose bucket holds the median gap, and with confidence between 0.7 and 1 |
| Detect.Amounts | src/lib/recurring/detect.ts:111 | one absolute amount per transaction, each the amount or its negation and never negative |
| Detect.CategoryIds | src/lib/recurring/detect.ts:113-115 | the category ids are exactly the non-null categories of the group, never more than the group has |
| Detect.AccountIds | src/lib/recurring/detect.ts:117 | one account id per transaction, in group order |
| Detect.AssessIntervals | src/lib/recurring/detect.ts:78-108 | the imperative interval and confidence steps agree with the pure assessment |
| Detect.AnalyzeGroup | src/lib/recurring/detect.ts:78-124 | a detection is returned exactly when the date-sorted group passes; it then describes the group: latest description, median absolute amount, modal category and account, last date and next date one period later |
| Detect.GroupDescription | src/lib/recurring/detect.ts:63-124 | the description a group is written under normalises back to the group's key |
| Detect.UpsertChanges | src/lib/recurring/detect.ts:127-153 | one upsert on (household, description) changes only rows of that household and description, each then carrying the upserted values |
| Detect.RecordGroup | src/lib/recurring/detect.ts:77-164 | one group's upsert keeps every existing row's key, adds a row only when counted as detected, leaves the table alone when the group fails, and lists the group when it passes |
| Detect.RecordGroups | src/lib/recurring/detect.ts:74-165 | after the loop every passing group is listed, every changed row is a detection result, and `detected` counts the rows added |
| Detect.DetectRecurringPatterns | src/lib/recurring/detect.ts:40-168 | over the last twelve months of the household's transactions, every group that passes is stored under its latest description, nothing else is written, and `detected` is the number of new pattern rows |
| Grouping.KeysInOrder | src/lib/recurring/detect.ts:62-72 | each key of the items appears once, in the order of its first item, and nothing else appears |
| Grouping.Members | src/lib/recurring/detect.ts:62-72 | a group holds only items with its key, in their original order, and is empty exactly when no item has the key |
| Grouping.GroupBy | src/lib/recurring/detect.ts:62-72 | the map loop's keys in insertion order and, under each key, the items with that key in input order |
| Grouping.GroupsPartition | src/lib/recurring/detect.ts:62-72 | the group sizes add up to the number of items, so every item lands in exactly one group |
| Sorting.SortBy | src/lib/recurring/detect.ts:81 | a group sorted by date is in ascending date order and a permutation of the group |
| Sorting.SortInts | src/lib/recurring/intervals.ts:45 | a numeric sort gives an ascending permutation of the values |
| Sorting.AscendingUnique | src/lib/recurring/intervals.ts:45 | two ascending lists with the same values are equal, so the sorted copy depends only on the values |
| Detect.Cutoff | src/lib/recurring/detect.ts:44-45 | the window starts on the same month and day one year back |
| Detect.ListedNow | src/lib/recurring/detect.ts:125-153 | a group's pattern, once stored under its description with the group's values, counts as listed |
| Detect.InsertedOne | src/lib/recurring/detect.ts:127-153 | an upsert that inserts adds exactly one pattern |
| Rules.MatchRule | src/lib/classification/rules.ts:12-25 | a match is always built from one of the given rules, with that rule's category id and pattern |
| Rules.MatchRuleIsFirst | src/lib/classification/rules.ts:16-24 | null exactly when no rule's lower-cased pattern occurs in the lower-cased description; otherwise the first rule in the list that matches (the highest priority) |
| Rules.EarlierRuleWins | src/lib/classification/rules.ts:18-22 | rules after a matching prefix of the list never change the result |
| Rules.MatchRuleIgnoresCase | src/lib/classification/rules.ts:16 | lower-casing the description beforehand changes nothing |
| Rules.AccentedCapitalsMatch | src/lib/classification/rules.ts:16 | the rule "café" matches the description "CAFÉ 24": accented Latin capitals are lower-cased on both sides |
| Rules.CyrillicCapitalsMatch | src/lib/classification/rules.ts:16 | the rule "МАГАЗИН" matches the description "магазин": Cyrillic capitals are lower-cased on both sides |
| Direction.FindCategory | src/lib/classification/category-direction.ts:21 | `find` returns the first category with the id, and nothing exactly when no category has it |
| Direction.IsIncomeCategorySync | src/lib/classification/category-direction.ts:17-27 | an unknown id is never income; an income answer comes from a found row that is the Income root or has Income as its parent |
| Direction.IncomeIffRow | src/lib/classification/category-direction.ts:17-27 | with distinct ids, a category counts as income exactly when its own row is the Income root or an Income child |
| Direction.IsCategoryDirectionCompatible | src/lib/classification/category-direction.ts:34-47 | transfers accept any category; income accepts exactly the income categories and expense exactly the others |
| Direction.DirectionsComplementary | src/lib/classification/category-direction.ts:41-44 | every category suits exactly one of income and expense |
| Direction.CompatibleOfMembers | src/lib/classification/category-direction.ts:58-61 | the filter keeps exactly the categories compatible with the direction |
| Direction.FilterCategoriesByDirection | src/lib/classification/category-direction.ts:52-62 | transfers get the list unchanged; otherwise the result holds exactly the compatible categories of the list |
| Direction.CompatibleOfAppend | src/lib/classification/category-direction.ts:58-61 | filtering distributes over concatenation, so the order of the list is kept |
| Direction.DirectionsPartition | src/lib/classification/category-direction.ts:52-62 | the income and the expense filters split the list between them: together they hold every category exactly once |
| Classify.UnmatchedMembers | src/lib/classification/classify.ts:46-66 | the unmatched list holds exactly the new transactions no rule matches |
| Classify.UnmatchedAppend | src/lib/classification/classify.ts:48-66 | the unmatched list keeps the input order (splitting the input splits the list) |
| Classify.RuleApplied | src/lib/classification/classify.ts:48-66 | the rule tier updates rows in place and never adds or removes a transaction |
| Classify.RuleAppliedAt | src/lib/classification/classify.ts:48-62 | with distinct ids, each new transaction's row ends as its own rule outcome: the first matching rule's category with method "rule", unless the update fails |
| Classify.RuleAppliedElsewhere | src/lib/classification/classify.ts:52-59 | rows of transactions not in the batch are never touched by the rule tier |
| Classify.RuleStep | src/lib/classification/classify.ts:49-65 | one transaction: reports a match exactly when a rule matches, and then sets that rule's category with method "rule" unless the update throws; otherwise the table is unchanged |
| Classify.ApplyRules | src/lib/classification/classify.ts:46-66 | the rule loop leaves the table as the rule-tier function describes and returns the unmatched transactions in order |
| Classify.RootNamesMembers | src/lib/classification/classify.ts:89-94 | the parent-name map holds exactly the categories without a parent, each mapped to the name of such a category |
| Classify.BuildRootNames | src/lib/classification/classify.ts:89-94 | the loop over the categories builds exactly the parent-name map |
| Classify.OptionOf | src/lib/classification/classify.ts:96-100 | an option keeps id and name and has a parent name exactly when its parent id is set and is a root, taking that root's name |
| Classify.Options | src/lib/classification/classify.ts:96-100 | one option per category, in order |
| Classify.ParentNameFromRoot | src/lib/classification/classify.ts:89-100 | a category's option has a parent name exactly when its parent is a root category of the household, and then carries that root's name |
| Classify.OptionIdsOfOptions | src/lib/classification/classify.ts:96-100 | the ids offered to the model are exactly the household's category ids |
| Classify.OnlyAiChangesCompose | src/lib/classification/classify.ts:108-144 | batches that each only write AI classifications with offered ids compose into a run that does the same |
| Classify.AiApplied | src/lib/classification/classify.ts:121-137 | applying the model's answers updates rows in place and never adds or removes a transaction |
| Classify.AiAppliedOnlyAi | src/lib/classification/classify.ts:121-137 | applying answers that name offered categories only ever sets one of those categories with method "ai" |
| Classify.AiAppliedAt | src/lib/classification/classify.ts:121-130 | the last answer for a transaction whose update succeeds decides its category, with method "ai" |
| Classify.ApplyAiResults | src/lib/classification/classify.ts:121-137 | the loop over the answers leaves the table as the answer-application function describes |
| Classify.Inputs | src/lib/classification/classify.ts:112-117 | one model input per transaction of the batch, with its id and description |
| Classify.ClassifyBatch | src/lib/classification/classify.ts:109-143 | one batch asks the model and, whatever it answers or when it fails, only writes AI classifications with offered category ids |
| Classify.ClassifyBatches | src/lib/classification/classify.ts:106-144 | the batch loop makes one model call per slice of at most 20, the slices together are the unmatched list in order, and only AI classifications with offered ids are written |
| Classify.ClassifyTransactions | src/lib/classification/classify.ts:23-145 | an empty input changes nothing; otherwise the rule tier runs first, the model is asked only with unmatched transactions, an API key and readable categories, the slices cover the unmatched list, and the AI tier writes only household category ids with method "ai" |
| Ai.Label | src/lib/classification/ai.ts:47 | the label ends in the category's name; it is the bare name exactly when there is no parent name, and starts with "Parent > " otherwise |
| Ai.DropOptionalAll | src/lib/classification/ai.ts:95-96 | an optional part of a fence pattern that is present is consumed entirely |
| Ai.StripFences | src/lib/classification/ai.ts:94-97 | the cleaned reply is trimmed and never longer than the reply |
| Ai.RemoveAllSkipsPlainText | src/lib/classification/ai.ts:95-96 | a global replace leaves text without backticks untouched |
| Ai.StripFencesPlain | src/lib/classification/ai.ts:94-97 | a reply without backticks is only trimmed |
| Ai.StripFencesJson | src/lib/classification/ai.ts:94-97 | a reply fenced as "```json" over a body without backticks cleans to the trimmed body |
| Ai.BareFenceKept | src/lib/classification/ai.ts:95 | the first pattern does not remove a bare "```" fence (its "json?" needs at least "jso"); the second replace does |
| Ai.StripFencesPlainFence | src/lib/classification/ai.ts:94-97 | a reply in a bare "```" fence over a body without backticks also cleans to the trimmed body |
| Ai.AsClassification | src/lib/classification/ai.ts:107-121 | an element gives a mapping exactly when it is an object whose `id` and `categoryId` are strings and the category is a valid id, and the mapping carries those two strings |
| Ai.ValidatedMembers | src/lib/classification/ai.ts:104-124 | the kept mappings are exactly those some element of the array yields, so every kept category id is valid |
| Ai.ValidatedAppend | src/lib/classification/ai.ts:107-122 | the kept mappings keep the array's order |
| Ai.ValidateItems | src/lib/classification/ai.ts:104-124 | the loop over the parsed array computes exactly the validated mappings |
| Ai.Interpret | src/lib/classification/ai.ts:94-124 | a parse error is passed on, a parsed value that is not an array gives "AI response is not an array", and success yields the validated elements of the parsed array |
| Ai.ClassifyWithAi | src/lib/classification/ai.ts:36-125 | no transactions gives an empty answer without calling the model; a missing API key gives its error; otherwise the model's failure is passed on or its reply interpreted, and every returned category is one of the offered ids |
| BulkClassify.Classifiable | scripts/bulk-classify.ts:76 | the classifiable list keeps only uncategorised transactions that are not transfers, never more than it was given |
| BulkClassify.ClassifiableKeeps | scripts/bulk-classify.ts:76 | every non-transfer transaction of the query is kept |
| BulkClassify.GroupOf | scripts/bulk-classify.ts:113-125 | a group keeps the first-seen description and the ids of all its members, in order |
| BulkClassify.GroupsForSnoc | scripts/bulk-classify.ts:112-126 | a key seen later adds its group at the end: groups come in first-seen order |
| BulkClassify.KeysHaveMembers | scripts/bulk-classify.ts:112-126 | every key of the group map has at least one transaction |
| BulkClassify.GroupsForCount | scripts/bulk-classify.ts:112-126 | the groups of a list of keys hold as many ids as those keys have members |
| BulkClassify.GroupSizesSum | scripts/bulk-classify.ts:112-126 | deduplication loses no transaction: the groups hold exactly as many ids as there were transactions |
| BulkClassify.GroupIdsFromTxns | scripts/bulk-classify.ts:113-125 | each id in a group belongs to a transaction whose lower-cased description is the group's key |
| BulkClassify.GroupsOfMap | scripts/bulk-classify.ts:112-126 | the map's groups, taken in key order, carry the ids collected under each key |
| BulkClassify.GroupsOfMapIs | scripts/bulk-classify.ts:112-126 | the map built by the loop gives exactly the description groups |
| BulkClassify.GroupDescriptions | scripts/bulk-classify.ts:112-126 | the deduplication loop computes exactly the description groups |
| BulkClassify.UnmatchedGroupsMembers | scripts/bulk-classify.ts:147-165 | the unmatched map holds exactly the groups whose original description no rule matches |
| BulkClassify.IdSet | scripts/bulk-classify.ts:160 | the `inArray` filter selects exactly the listed ids |
| BulkClassify.GroupRulesApplied | scripts/bulk-classify.ts:147-165 | the rule tier updates rows in place and never adds or removes one |
| BulkClassify.RuleTierSnoc | scripts/bulk-classify.ts:147-165 | each group either joins the unmatched list or has all its ids set to the matching rule's category with method "rule" |
| BulkClassify.GroupRulesChanges | scripts/bulk-classify.ts:147-161 | a row the rule tier changes belongs to a matched group and only gets that rule's category and method "rule" |
| BulkClassify.RuleGroupStep | scripts/bulk-classify.ts:148-164 | one group reports a match exactly when a rule matches, and writes it (to all the group's ids) only outside a dry run |
| BulkClassify.RuleTier | scripts/bulk-classify.ts:143-165 | the loop returns the unmatched groups in order, counts the others, and updates the table as the rule-tier function describes except in a dry run |
| BulkClassify.SynthId | scripts/bulk-classify.ts:214 | a synthetic id is "d" followed by the index |
| BulkClassify.SynthIdInjective | scripts/bulk-classify.ts:213-216 | different indexes give different synthetic ids |
| BulkClassify.Entries | scripts/bulk-classify.ts:213-216 | one entry per unmatched group, in order, the i-th under synthetic id "d" + i |
| BulkClassify.SynthMap | scripts/bulk-classify.ts:277 | the batch map holds exactly the batch's synthetic ids, each to its entry's group |
| BulkClassify.ChangedWithinCompose | scripts/bulk-classify.ts:225-323 | changes confined to a set of ids stay so over several batches |
| BulkClassify.RulesWrittenCompose | scripts/bulk-classify.ts:298-318 | rule writes for the household, known categories and seen descriptions stay so over several answers |
| BulkClassify.AiEffectCompose | scripts/bulk-classify.ts:225-323 | the effect of the AI tier composes over answers and batches |
| BulkClassify.AiEffectWeaken | scripts/bulk-classify.ts:225-323 | an AI effect within smaller id and description sets is one within larger sets |
| BulkClassify.ApplyAnswer | scripts/bulk-classify.ts:279-318 | an answer is applied exactly when its category is valid and its synthetic id is in the batch; it then sets the group's ids to that category with method "ai" and upserts the rule (household, original description) with priority 0, retargeting an existing rule, unless that write fails |
| BulkClassify.AnswerEffect | scripts/bulk-classify.ts:279-318 | each single answer only writes AI classifications of the batch's ids and rules for the batch's descriptions |
| BulkClassify.ApplyAnswers | scripts/bulk-classify.ts:279-319 | `aiClassified` counts the accepted answers, `rulesCreated` never exceeds it, and only batch ids and batch descriptions are written |
| BulkClassify.CountStep | scripts/bulk-classify.ts:285 | the accepted-answer count grows by one exactly on an accepted answer |
| BulkClassify.SynthWithin | scripts/bulk-classify.ts:277 | the batch map's ids and descriptions come from the batch |
| BulkClassify.ClassifyBatch | scripts/bulk-classify.ts:226-322 | a dry-run batch writes nothing; otherwise a failed call writes nothing and an answer only writes AI classifications and rules within the batch |
| BulkClassify.SliceWithin | scripts/bulk-classify.ts:226 | a slice of the entries stays within their ids and descriptions |
| BulkClassify.ClassifyBatches | scripts/bulk-classify.ts:225-323 | one API call per slice of at most 50, the slices together are the entries in order, a dry run writes nothing, and every write stays within the entries |
| BulkClassify.Descriptions | scripts/bulk-classify.ts:304 | the set of descriptions of the transactions |
| BulkClassify.CategoryOnlyCompose | scripts/bulk-classify.ts:100-332 | changes to category and method alone compose |
| BulkClassify.ChangedWithinWeaken | scripts/bulk-classify.ts:100-332 | changes within a smaller id set are within any larger one |
| BulkClassify.GroupOriginalFromTxns | scripts/bulk-classify.ts:120 | a group's original description is the description of one of its transactions |
| BulkClassify.RuleTierWithin | scripts/bulk-classify.ts:147-165 | the rule tier only changes category and method of the household's transactions |
| BulkClassify.UnmatchedWithin | scripts/bulk-classify.ts:213-216 | the entries carry only the household's ids and descriptions |
| BulkClassify.AiChangesCategoryOnly | scripts/bulk-classify.ts:289-296 | AI writes only change category and method |
| BulkClassify.AiTier | scripts/bulk-classify.ts:180-323 | the entries are batched in order into API calls, a dry run writes nothing, and only the household's ids, known categories and descriptions are written |
| BulkClassify.ProcessHousehold | scripts/bulk-classify.ts:100-332 | the rule tier runs on the description groups; the AI tier is skipped when every group matched or no gateway credential is set; AI writes use known category ids; only the household's transactions change, and only in category and method; rules are written only for its own descriptions and categories |
| BulkClassify.HouseholdStep | scripts/bulk-classify.ts:95-97 | one household's run keeps the loop's invariant over the whole script |
| BulkClassify.ChangedRowsWereUncategorized | scripts/bulk-classify.ts:59-76 | a changed row was uncategorised, not overridden and not a transfer |
| BulkClassify.BulkClassify | scripts/bulk-classify.ts:52-98 | transfers are skipped, households are processed in first-seen order, a dry run writes nothing, and only category and method of uncategorised, non-overridden, non-transfer rows change, with rules only from each household's own descriptions and categories |
| ScraperTransform.AmountText | src/lib/scraper/transform.ts:12 | the amount written into the hash key is never empty and starts with '-' exactly when it is negative |
| ScraperTransform.MakeExternalId | src/lib/scraper/transform.ts:8-14 | a string identifier is kept, a numeric one becomes its decimal digits (NaN as "NaN"), and without one the id is the first 32 characters of the hash of date, amount and description |
| ScraperTransform.ExternalIdStable | src/lib/scraper/transform.ts:4-14 | two transactions that agree on identifier, date, amount and description get the same external id, so re-scraping deduplicates |
| ScraperTransform.Transform | src/lib/scraper/transform.ts:20-35 | keeps date and description, takes the absolute amount with type income exactly when the charge is not negative (the sign recovers the charge), and copies processed date, memo and non-ILS currency exactly when they are set |
| ScraperTransform.TransformTransactions | src/lib/scraper/transform.ts:17-37 | one transformed transaction per input, in order |
| WebhookTransform.ToWebhook | scraper/src/transform.ts:30-49 | the payload keeps date and description, the absolute amount with type income exactly when the charge is not negative, and the optional fields exactly when set |
| WebhookTransform.ToWebhookAll | scraper/src/transform.ts:30-50 | one payload entry per transaction, in order |
| WebhookTransform.CopiesAgree | scraper/src/transform.ts:20-50 | the scraper's copy of the transform agrees field by field with the ingest transform |
| Hebrew.ClassEnd | src/lib/scraper/hebrew.ts:2 | the scan stops at the first character outside the run class (Hebrew letters, quotes, dash, underscore, space, slashes) |
| Hebrew.LastHebrew | src/lib/scraper/hebrew.ts:2 | the last Hebrew letter of a stretch, or none exactly when the stretch has no Hebrew letter |
| Hebrew.RunAt | src/lib/scraper/hebrew.ts:2 | a match found at a position is a run: Hebrew at both ends, run-class characters in between |
| Hebrew.RunAtIsLongest | src/lib/scraper/hebrew.ts:2 | the greedy pattern matches at a position exactly when some run starts there, and then takes the longest one |
| Hebrew.Runs | src/lib/scraper/hebrew.ts:14-19 | the global match yields runs in increasing, non-overlapping order from the start |
| Hebrew.RunsLeftmost | src/lib/scraper/hebrew.ts:14 | no run starts before the first match, between two matches or after the last one: each match is the leftmost one |
| Hebrew.ReflectAt | src/lib/scraper/hebrew.ts:24-28 | inside a matched range a position is mirrored within the range; outside every range it stays put |
| Hebrew.RangesAfter | src/lib/scraper/hebrew.ts:16-19 | a later range starts at or after the end of an earlier one |
| Hebrew.Plain | src/lib/scraper/hebrew.ts:13 | the cleaned text holds no U+202D override character |
| Hebrew.RemoveChar | src/lib/scraper/hebrew.ts:13 | removing every occurrence of a character leaves none, never lengthens the text, and changes nothing when it is absent |
| Hebrew.Unreversed | src/lib/scraper/hebrew.ts:21-31 | rebuilding keeps the length of the text |
| Hebrew.Reversed | src/lib/scraper/hebrew.ts:26 | the reversal has the same length with every character mirrored |
| Hebrew.UnreversedOutside | src/lib/scraper/hebrew.ts:24-31 | characters outside every Hebrew run are kept in place |
| Hebrew.UnreversedInRun | src/lib/scraper/hebrew.ts:26 | a character inside a run is taken from the mirrored position of that run |
| Hebrew.ChunkStep | src/lib/scraper/hebrew.ts:24-28 | each loop round appends the gap before a run and the reversed run, keeping the output a prefix of the rebuilt text |
| Hebrew.TailStep | src/lib/scraper/hebrew.ts:30-31 | appending the rest after the last run completes the rebuilt text |
| Hebrew.SanitizeHebrew | src/lib/scraper/hebrew.ts:8-32 | text without an override is only trimmed; otherwise the overrides are removed, the text trimmed and every Hebrew run reversed |
| Hebrew.Rebuild | src/lib/scraper/hebrew.ts:21-31 | the loop over the ranges builds exactly the text with each run reversed in place |
| Hebrew.SanitizedNoMarks | src/lib/scraper/hebrew.ts:8-32 | the result never holds an override character |
| Hebrew.SanitizedTrimmed | src/lib/scraper/hebrew.ts:8-32 | the result is always trimmed |
| Hebrew.UnreversedTrimmed | src/lib/scraper/hebrew.ts:13-31 | reversing runs of a trimmed text keeps it trimmed |
| Hebrew.EndIsHebrewOrPlain | src/lib/scraper/hebrew.ts:24-31 | the first and last characters after rebuilding are either Hebrew letters or unchanged |
| Hebrew.SanitizedIdempotent | src/lib/scraper/hebrew.ts:8-32 | sanitising twice gives the same as sanitising once |
| Isracard.TwoDigits | src/lib/scraper/isracard.ts:16 | two decimal digits whose value is the number |
| Isracard.ParseIsracardDate | src/lib/scraper/isracard.ts:13-17 | text not of the form dd/mm/yyyy comes back unchanged; a shaped date with month outside 1-12 or day outside 1-31 is "Invalid time value"; a real calendar date becomes the ISO midnight text of the same year, month and day |
| Isracard.IsoMidnightParts | src/lib/scraper/isracard.ts:16 | the ISO text is the year, month and day separated by '-' followed by "T00:00:00.000Z" |
| Isracard.CarryDay | src/lib/scraper/isracard.ts:16 | a day past the end of its month names the same day as the overflow into the next month |
| Isracard.ParsedDateIsSameDay | src/lib/scraper/isracard.ts:13-17 | a successfully parsed dd/mm/yyyy date is an ISO midnight text naming the same calendar day, overflowing days rolled into the next month |
| Isracard.ParseIsracardDateIdempotent | src/lib/scraper/isracard.ts:13-17 | parsing an already parsed date gives it back |
| Isracard.ParseIsracardDateSameText | src/lib/scraper/isracard.ts:13-17 | two statement dates that parse to the same text name the same day |
| Isracard.DigitRun | src/lib/scraper/isracard.ts:198 | the leading run of decimal digits, stopping at the first non-digit |
| Isracard.ParseInt10 | src/lib/scraper/isracard.ts:198 | `parseInt(text, 10)` yields a number or NaN |
| Isracard.ParseInt10Digits | src/lib/scraper/isracard.ts:198 | all-digit text parses to its value; empty text or text starting with something other than a sign, space or digit is NaN |
| Isracard.ConvertTransaction | src/lib/scraper/isracard.ts:183-209 | a skipped row (installment type "1" or both vouchers zero) gives null; an invalid payment or purchase date gives "Invalid time value"; a purchase abroad without its date gives a transaction dated `undefined`, and one without its payment sum a transaction with no charge; otherwise the abroad or domestic fields are chosen, amounts negated, the voucher parsed as the identifier, the currencies defaulted to ILS and the memo copied when set |
| Isracard.ConvertedChargeIsExpense | src/lib/scraper/isracard.ts:204 | after the transform a positive card charge is an expense of the same absolute amount |
| Isracard.ConvertedExternalId | src/lib/scraper/isracard.ts:191-198 | an all-digit voucher becomes an external id with the same numeric value |
| Isracard.MonthParam | src/lib/scraper/isracard.ts:216 | the month parameter is two digits with the month's value, zero-padded below 10 |
| Isracard.NextMonth | src/lib/scraper/isracard.ts:279 | `setMonth(getMonth() + 1)` on the first of a month moves the cursor to the first of the next month, rolling December into January of the next year |
| Isracard.CursorStep | src/lib/scraper/isracard.ts:279 | the next cursor is one month later and strictly after the previous one |
| Isracard.NextRequest | src/lib/scraper/isracard.ts:278-279 | the next request names a month from 1 to 12 |
| Isracard.MonthsToScrape | src/lib/scraper/isracard.ts:272-280 | the months listed run consecutively from the start date's month, each already begun today, and the month after the last has not begun |
| Isracard.ConsecutiveAppend | src/lib/scraper/isracard.ts:277-280 | appending the cursor's month keeps the list consecutive |
| Isracard.RequestsNotAfter | src/lib/scraper/isracard.ts:277 | when the last month listed has begun, every month listed has |
| Isracard.BegunBefore | src/lib/scraper/isracard.ts:277 | a month no later than a begun month has begun |
| Isracard.RequestBegun | src/lib/scraper/isracard.ts:277 | a cursor not after today lists a begun month |
| Isracard.RequestNotBegun | src/lib/scraper/isracard.ts:277 | a cursor after today lists a month not begun |
| Isracard.KeptRow | src/lib/scraper/isracard.ts:287-291 | one statement row contributes at most one transaction, dated on or after the start, and fails exactly when its conversion fails |
| Isracard.KeptRowOfConverted | src/lib/scraper/isracard.ts:288-291 | a converted row is kept exactly when it is a priced transaction whose date is not before the start |
| Isracard.MissingAbroadFields | src/lib/scraper/isracard.ts:189-204 | a purchase abroad sent without its purchase date contributes nothing and fails nothing once its payment date is valid; one sent without its payment sum contributes nothing |
| Isracard.KeptRowsStep | src/lib/scraper/isracard.ts:287-292 | each row either stops the month with its error or appends what it keeps |
| Isracard.KeptRowsErrStays | src/lib/scraper/isracard.ts:287-292 | after a row throws, later rows of the month change nothing |
| Isracard.CollectedErrStays | src/lib/scraper/isracard.ts:284-293 | after a month throws, later months change nothing |
| Isracard.KeptRowsOnOrAfter | src/lib/scraper/isracard.ts:287-292 | a month keeps no more transactions than it has rows, all on or after the start |
| Isracard.CollectedOnOrAfter | src/lib/scraper/isracard.ts:282-293 | the whole scrape keeps no more transactions than the statements have rows, all on or after the start |
| Isracard.StatementsFor | src/lib/scraper/isracard.ts:284-285 | one statement fetched per month listed, with the padded month and the year as text |
| Isracard.CollectStatement | src/lib/scraper/isracard.ts:287-292 | the loop over one month's rows appends exactly what the month keeps, or reports the first conversion error |
| Isracard.KeptRowsErrAt | src/lib/scraper/isracard.ts:287-292 | a row that fails to convert fails its whole statement with that row's error |
| Isracard.KeptRowsOkAt | src/lib/scraper/isracard.ts:288-291 | a row that converts adds itself to the kept rows when it is a transaction dated on or after the start, and nothing otherwise |
| Isracard.KeepRow | src/lib/scraper/isracard.ts:288-291 | one step of the row loop: the converted row is appended when kept, so the collected rows stay the kept rows so far, or the step ends with the statement's error |
| Isracard.CollectMonths | src/lib/scraper/isracard.ts:282-303 | success with every kept transaction in month order, or failure with no transactions and the first error's message |
| Isracard.ScrapeIsracard | src/lib/scraper/isracard.ts:252-304 | the months from the start to today are fetched in order and the result is the success or failure the collection gives |
| Ingest.InsertValues | src/lib/scraper/ingest.ts:32-49 | the insert fails exactly when encryption or a date parse throws; otherwise the row carries household, account, external id, parsed dates, description, amount, currency defaulted to ILS, type, encrypted payload and memo |
| Ingest.Accepted | src/lib/scraper/ingest.ts:31-53 | a transaction is inserted only when its values can be built and fit the columns, and then with exactly those values |
| Ingest.KeysAppend | src/lib/scraper/ingest.ts:50-52 | inserting a row adds exactly its external id to the account's keys |
| Ingest.InsertsStep | src/lib/scraper/ingest.ts:30-73 | each transaction is inserted exactly when it is accepted and its external id is not yet taken for the account |
| Ingest.InsertsFresh | src/lib/scraper/ingest.ts:30-73 | the rows inserted belong to the household and account, with external ids distinct from each other and from those already stored |
| Ingest.InsertsCover | src/lib/scraper/ingest.ts:30-73 | after the loop every accepted transaction's external id is stored for the account |
| Ingest.InsertsNothing | src/lib/scraper/ingest.ts:50-52 | when every accepted external id is already stored, nothing is inserted |
| Ingest.ReingestAddsNothing | src/lib/scraper/ingest.ts:50-52 | ingesting the same transactions again adds nothing: deduplication on (account, external id) is idempotent |
| Ingest.Report | src/lib/scraper/ingest.ts:59-64 | the report of a new row carries its id, description, type and the amount as text |
| Ingest.IdsAppend | src/lib/scraper/ingest.ts:59 | reporting a row adds exactly its id |
| Ingest.ExternalIdsInsert | src/lib/scraper/ingest.ts:34-53 | a new row adds its external id to its own account's keys and to no other account's |
| Ingest.ExtendsInsert | src/lib/scraper/ingest.ts:55-65 | a fresh row inserted and reported keeps the table an extension of the original by exactly the reported rows |
| Ingest.TakenIff | src/lib/scraper/ingest.ts:50-52 | the unique index reports a conflict exactly when the external id is stored for the account |
| Ingest.Offer | src/lib/scraper/ingest.ts:31-72 | one transaction: inserted and reported exactly when accepted and not yet taken, otherwise counted as a duplicate with the table unchanged |
| Ingest.InsertBatch | src/lib/scraper/ingest.ts:26-73 | `added` counts the rows inserted, `added + duplicates` is the number of transactions, and the table grows by exactly the reported new rows |
| Ingest.IngestTransactions | src/lib/scraper/ingest.ts:20-92 | the batch is inserted as above, the account's last sync time is set when it exists, and one success log with the two counts is appended |
| Ingest.LogScrapeError | src/lib/scraper/ingest.ts:95-109 | one error log with zero counts and the message, started and completed at the same time, is appended |
| WebhookAuth.EncodeChar | src/lib/webhook/auth.ts:23-24 | a character takes one to four UTF-8 bytes, one exactly when it is ASCII, and its lead byte tells how many |
| WebhookAuth.DecodeEncodeChar | src/lib/webhook/auth.ts:23-24 | the bytes of a character decode back to its code point |
| WebhookAuth.Utf8 | src/lib/webhook/auth.ts:23-24 | the UTF-8 bytes of a string are at least as many as its characters |
| WebhookAuth.Utf8Injective | src/lib/webhook/auth.ts:22-25 | different strings have different UTF-8 bytes, so comparing bytes compares the keys |
| WebhookAuth.TimingSafeEqual | src/lib/webhook/auth.ts:22-25 | buffers of different lengths throw; otherwise the answer is true exactly when the bytes are equal |
| WebhookAuth.ValidateWebhookKey | src/lib/webhook/auth.ts:4-26 | a missing header or one without "Bearer " is refused; a missing server key throws; keys of equal JavaScript length but different byte length throw; otherwise the key is accepted exactly when the header is "Bearer " followed by the server key |
| WebhookAuth.SameLengthDifferentBytesThrows | src/lib/webhook/auth.ts:18-25 | the key "é" against "a" has equal length but different byte lengths, so the comparison throws |
| WebhookRoute.Check | src/app/api/webhook/transactions/route.ts:31-65 | a throwing key check gives 500, a refused key 401, a bad body 500, a missing account id or transaction list 400, an unknown account 404 and an inactive one 400; only an active, known account proceeds, with its household and the body's transactions |
| WebhookRoute.UnauthorizedIgnoresBody | src/app/api/webhook/transactions/route.ts:32-34 | a refused key answers 401 before the body is read |
| WebhookRoute.AnswersAreErrors | src/app/api/webhook/transactions/route.ts:31-65 | every early answer is an error body with status 400, 401, 404 or 500 |
| WebhookRoute.Post | src/app/api/webhook/transactions/route.ts:27-175 | an early answer writes nothing; otherwise the transactions are inserted with deduplication, and with a valid scrape date the account's last sync time is set, a success log with both counts appended, 200 returned with the counts and classification queued exactly when rows were added; an invalid scrape date answers 500 and logs the error |
| Balance.BalanceIsRunning | src/lib/balance/calculate.ts:51-56 | starting balance plus income minus expenses minus transfers equals the running balance over the account's transactions, each income added and each expense or transfer subtracted |
| Balance.NoTransactionsNoChange | src/lib/balance/calculate.ts:37-42 | an account without transactions (the left join's COALESCE to 0) keeps its starting balance |
| Balance.RunningUnchanged | src/lib/balance/calculate.ts:42 | other accounts' transactions do not move an account's balance |
| Balance.BankAccounts | src/lib/balance/calculate.ts:43-48 | the selection keeps exactly the household's bank accounts |
| Balance.CalculateBankBalance | src/lib/balance/calculate.ts:29-67 | one balance per bank account of the household, each its running balance, and the total is their sum |
| Balance.BillingCycleBounds | src/lib/balance/calculate.ts:77-94 | no billing day gives the calendar month; with billing day d the cycle starts d+1 days into the month and lasts exactly the month's length |
| Balance.CycleLength | src/lib/balance/calculate.ts:90-91 | the first of the next month is one month's length after the first of this one, across the year end too |
| Balance.BillingCycleExample | src/lib/balance/calculate.ts:73 | billing day 2 in February 2026 gives the cycle from February 3 to March 3 |
| Balance.LiabilityOf | src/lib/balance/calculate.ts:129-155 | a card's liability is the absolute sum of its expenses whose billing date lies in its cycle |
| Common.Abs | src/lib/balance/calculate.ts:150 | the absolute value is the number or its negation, never negative |
| Common.LowerChar | src/lib/classification/rules.ts:16 | `toLowerCase` on one character: the result is never a capital, and a capital moves by its case offset (32 for ASCII, Latin-1 and most Cyrillic capitals, 80 for Ѐ to Џ) |
| Common.LowerIdempotent | src/lib/classification/rules.ts:16 | lower-casing twice is lower-casing once |
| Balance.SumLiabilitiesNonNegative | src/lib/balance/calculate.ts:158 | the total liability is never negative |
| Balance.CalculateCCLiability | src/lib/balance/calculate.ts:102-161 | no cards gives 0 and no accounts; otherwise one liability per card, in order, and the total is their sum, never negative |
| DbHelpers.EffectiveDate | src/lib/db/helpers.ts:15-24 | the processed date is used exactly when it lies from 7 days before to 45 days after the purchase date; otherwise the purchase date, so the result is always within that window |
| Forecast.RoundIsNearest | src/lib/forecast/calculate.ts:195 | `Math.round` gives a whole number of shekels within half a shekel of the amount (a half rounds up) and leaves whole shekels alone |
| Forecast.Normalize | src/lib/forecast/calculate.ts:126 | the normalised description is never longer than the description |
| Forecast.PendingItem | src/lib/forecast/calculate.ts:124-163 | a pattern is pending exactly when no transaction of the month fulfils it and its next date falls in the month; the item keeps id, description, amount and category, is income exactly for Income categories, defaults its account to bank, and an overdue date moves to today |
| Forecast.PendingListMembers | src/lib/forecast/calculate.ts:122-163 | the pending list holds exactly the items of the pending patterns |
| Forecast.PendingDatesInWindow | src/lib/forecast/calculate.ts:140-151 | every pending item's date lies from today to the end of the month |
| Forecast.CollectPending | src/lib/forecast/calculate.ts:122-163 | the loop over the patterns computes exactly the pending list, in pattern order |
| Forecast.BankOnlyMembers | src/lib/forecast/calculate.ts:167 | the bank filter keeps exactly the items paid from a bank account |
| Forecast.OnDayMembers | src/lib/forecast/calculate.ts:181-183 | the day filter keeps exactly the items due that day |
| Forecast.NetIsIncomeLessExpenses | src/lib/forecast/calculate.ts:185-191 | adding income and subtracting expenses item by item gives total income less total expenses |
| Forecast.NetInStep | src/lib/forecast/calculate.ts:174-191 | one more day adds that day's net amount |
| Forecast.NetInAll | src/lib/forecast/calculate.ts:174-191 | when all items fall in the days walked, the walk applies every item once |
| Forecast.NetInEmpty | src/lib/forecast/calculate.ts:170 | before the first day nothing is applied |
| Forecast.DescriptionsAt | src/lib/forecast/calculate.ts:198 | one description per item, in order |
| Forecast.ChartItemsAt | src/lib/forecast/calculate.ts:199-205 | one chart item per pending item, in order |
| Forecast.DataPointShape | src/lib/forecast/calculate.ts:193-206 | a point carries the day and the rounded running balance, and a label (descriptions joined by ", ") and items exactly when items are due that day |
| Forecast.Chart | src/lib/forecast/calculate.ts:169-209 | one point per day from today to the month's last day |
| Forecast.ChartAt | src/lib/forecast/calculate.ts:174-209 | the k-th point is that of day today + k |
| Forecast.LastPoint | src/lib/forecast/calculate.ts:219-221 | the last point's balance is the bank balance plus every bank item due in the days walked, rounded |
| Forecast.ApplyDay | src/lib/forecast/calculate.ts:185-191 | the inner loop adds the day's income and subtracts its expenses |
| Forecast.EndOfMonth | src/lib/forecast/calculate.ts:174-221 | when all items fall in the days walked, the chart ends on the balance plus income less expenses, rounded |
| Forecast.Project | src/lib/forecast/calculate.ts:169-209 | the day loop builds exactly the chart of the bank items |
| Forecast.AssembleEnd | src/lib/forecast/calculate.ts:211-231 | with the bank items in the month, there is a point per remaining day, the projected end is the bank balance plus pending bank income less pending bank expenses, rounded, and the month is safe exactly when that end is not negative |
| Forecast.BankPendingInWindow | src/lib/forecast/calculate.ts:140-167 | the bank items of the pending list fall between today and the end of the month |
| Forecast.CalculateForecast | src/lib/forecast/calculate.ts:57-234 | the forecast is the assembly of the pending list: the chart of its bank items, their rounded totals, the projected end and its safety flag, and the full pending list |
| Forecast.CardItemsDoNotMoveTheLine | src/lib/forecast/calculate.ts:165-167 | a credit-card item added to the pending list leaves the bank items, and so the line, unchanged |
| Format.ParseMonth | src/lib/format.ts:16-31 | a `YYYY-MM` parameter with the year in 2020..2030 and the month in 1..12 gives that year and the zero-based month; a missing, empty, malformed or out-of-range parameter gives the current month; the result's month is always 0..11 |
| Format.MonthKey | src/lib/format.ts:33-35 | the key of a four-digit year and a zero-based month below 99 has the `YYYY-MM` shape |
| Format.PaddedValue | src/lib/format.ts:34 | padding the decimal text of 1..99 to two characters gives two digits that read back as the number |
| Format.ParseMonthKey | src/lib/format.ts:16-35 | parsing the key of any month in 2020..2030 gives back that year and month, whatever the current month |
| Format.MonthKeyInjective | src/lib/format.ts:33-35 | two months in 2020..2030 with the same key are the same month |
| Format.NextMonthBound | src/lib/format.ts:60 | day one of month + 1 rolls December over into January of the next year, and lies one month's length after the month's first day |
| Format.GetMonthBounds | src/lib/format.ts:54-62 | the bounds start on the month's first day and end on the next month's first day (January of the next year after December), so they span exactly the month's days |
| Institutions.Lookup | src/lib/constants/institutions.ts:1-37 | an institution exists exactly for the seven keys; each asks for a password, only One Zero requires a one-time password, and every field it asks for has a label |
| Institutions.SevenInstitutions | src/lib/constants/institutions.ts:1-37 | there are seven distinct institution keys and only `one_zero` requires a one-time password |
| Institutions.CredentialFieldsDistinct | src/lib/constants/institutions.ts:1-37 | no institution lists the same credential field twice |
| Institutions.InheritedNamePasses | src/app/api/accounts/route.ts:60 | the `in` test as written accepts `toString`, which names no institution |
| Institutions.IsInstitutionExactly | src/lib/constants/institutions.ts:1-37 | the intended test accepts exactly the seven keys and agrees with the written one on every name that is not inherited from the object prototype |
| AccountsRoute.Keys | src/app/api/accounts/route.ts:78 | the provided credential field names, one per entry, in order |
| AccountsRoute.UnexpectedFields | src/app/api/accounts/route.ts:79 | a provided field is reported exactly when the institution does not ask for it |
| AccountsRoute.TypeOf | src/app/api/accounts/route.ts:67-72 | only `bank` and `credit_card` are account types |
| AccountsRoute.Validate | src/app/api/accounts/route.ts:53-86 | the checks in order: a missing name, institution or type; an unsupported institution; a bad type; then unexpected credential fields, reported with their names joined by commas; an institution name found only on the prototype throws a TypeError when credential fields are given; a body passes exactly when none applies |
| AccountsRoute.MissingFieldsAllowed | src/app/api/accounts/route.ts:74-86 | a body giving only some of the institution's fields passes: fields are checked for being expected, not for being complete |
| AccountsRoute.InheritedInstitutionOutcomes | src/app/api/accounts/route.ts:60-86 | as written, an institution such as `toString` throws the TypeError of `includes` on undefined when credential fields are given, and passes when none are |
| AccountsRoute.OwnKeysRefuseInherited | src/app/api/accounts/route.ts:60-65 | with the own-key institution test an inherited name is unsupported and the checks never throw |
| AccountsRoute.ValidateTestsAgree | src/app/api/accounts/route.ts:53-86 | the written and the own-key institution tests give the same verdict on every name not inherited from the prototype |
| AccountsRoute.StoredCredentials | src/app/api/accounts/route.ts:88-91 | credentials are sealed and stored exactly when at least one field is given; a failing `encrypt` gives its error |
| AccountsRoute.NewAccount | src/app/api/accounts/route.ts:93-102 | the inserted row carries the session's household, the body's fields and the sealed credentials, and starts active, never synced, with no starting balance or billing day |
| AccountsRoute.Post | src/app/api/accounts/route.ts:42-125 | a session or body failure answers its message; an invalid body answers 400; a thrown credential check or `encrypt` answers 500 with its message; all these store nothing; a valid body stores exactly one new row under a fresh id and answers 201 with its view |
| AccountsRoute.InheritedInstitutionStored | src/app/api/accounts/route.ts:60-113 | as written, an account under the institution `toString` without credentials is stored and answered with 201 |
| AccountsRoute.InheritedInstitutionThrows | src/app/api/accounts/route.ts:75-123 | as written, the same request with a credential field answers 500 with the TypeError message and stores nothing |
| AccountsRoute.List | src/app/api/accounts/route.ts:9-40 | the listing holds each of the household's accounts once and only those, as views of the stored rows, newest first; without a session it answers the session's failure |
| CategoriesRoute.Roots | src/app/api/categories/route.ts:33 | exactly the categories without a parent |
| CategoriesRoute.ChildrenOf | src/app/api/categories/route.ts:43-50 | exactly the views of the categories whose parent is the given id |
| CategoriesRoute.Nest | src/app/api/categories/route.ts:36-51 | one node per top-level category, in order, each holding its children |
| CategoriesRoute.TopLevelExactly | src/app/api/categories/route.ts:33-51 | an id is at the top of the tree exactly when it is a category without a parent |
| CategoriesRoute.OrphanNowhere | src/app/api/categories/route.ts:33-51 | a category whose parent is not a top-level category appears nowhere in the tree |
| CategoriesRoute.SameId | src/app/api/categories/route.ts:26-30 | with distinct ids, two categories with the same id are the same row |
| CategoriesRoute.RootsKeepOrder | src/app/api/categories/route.ts:30-33 | the top-level categories keep the name order of the query |
| CategoriesRoute.ChildrenKeepOrder | src/app/api/categories/route.ts:30-44 | each category's children keep the name order of the query |
| CategoriesRoute.List | src/app/api/categories/route.ts:22-61 | the answer is the tree of the household's categories in name order; without a session it answers 500 |
| CategoriesRoute.ForeignParentAccepted | src/app/api/categories/route.ts:81-97 | the parent lookup as written finds another household's category |
| CategoriesRoute.ParentTestsAgree | src/app/api/categories/route.ts:81-97 | the written and the household-scoped lookup agree whenever the parent id is not another household's |
| CategoriesRoute.Create | src/app/api/categories/route.ts:63-119 | a session or body failure answers 500, a blank name 400, a parent id naming no category 404, all storing nothing; otherwise exactly one new row with the trimmed name, not a system category, under a fresh id, answered with 201; the parent is found by id alone |
| CategoriesRoute.CreateScoped | src/app/api/categories/route.ts:63-119 | the same answers with the parent looked up within the session's household; every stored parent is then one of the household's categories |
| CategoriesRoute.ForeignParentCreated | src/app/api/categories/route.ts:81-103 | as written, a request from one household naming another household's category as parent answers 201 and stores the child under it |
| CategoriesRoute.ForeignParentRefused | src/app/api/categories/route.ts:81-97 | with the household-scoped lookup the same request answers 404 and stores nothing |
| CategoriesRoute.CreatedNameTrimmed | src/app/api/categories/route.ts:74-103 | the stored name of an accepted category is not empty and has no surrounding whitespace |
| WebAuthn.GetRpConfig | src/lib/auth/webauthn.ts:21-29 | the configuration exists exactly when all three variables are set and not empty, and is then their values; otherwise the missing-variables error |
| WebAuthn.StoredChallengeLifetime | src/lib/auth/webauthn.ts:55-90 | a challenge stored now is accepted exactly until five minutes have passed |
| WebAuthn.GetRegistrationOptions | src/lib/auth/webauthn.ts:35-66 | the options name the relying party, use the display name as both user names and exclude the given passkeys; exactly one challenge is stored, under a fresh id, expiring in five minutes |
| WebAuthn.RegistrationOutcome | src/lib/auth/webauthn.ts:95-113 | a library error is passed on, an unverified answer is the verification failure, and a verified one gives its credential |
| WebAuthn.VerifyRegistration | src/lib/auth/webauthn.ts:68-114 | without configuration nothing changes; a missing or expired challenge is an error; a live one is deleted before the library checks the response against it; either way the challenge cannot be used again |
| WebAuthn.GetAuthenticationOptions | src/lib/auth/webauthn.ts:118-141 | the options name the relying party id and exactly one fresh challenge is stored, expiring in five minutes |
| WebAuthn.AuthenticationOutcome | src/lib/auth/webauthn.ts:176-201 | a library error is passed on, an unverified answer is the verification failure, and a verified one gives the passkey's user |
| WebAuthn.VerifyAuthentication | src/lib/auth/webauthn.ts:143-202 | the challenge is consumed before the passkey is looked up; an unknown passkey is an error; the library sees the stored public key decoded from base64, and only a verified answer updates that passkey's counter and signs in its user |
| Base64.CharOf | src/app/api/auth/register/verify/route.ts:74 | each six-bit value has an alphabet character that reads back as that value |
| Base64.ValueOf | src/lib/auth/webauthn.ts:174 | an alphabet character reads as a six-bit value |
| Base64.Encode | src/app/api/auth/register/verify/route.ts:74 | the text has four characters per started group of three bytes |
| Base64.Decode | src/lib/auth/webauthn.ts:174 | well-formed text gives at most three bytes per four characters |
| Base64.GroupRoundTrip | src/app/api/auth/register/verify/route.ts:74 | the four six-bit pieces of three bytes put back together are the three bytes |
| Base64.DecodeLastOne | src/lib/auth/webauthn.ts:174 | a final group of one byte, padded with two `=`, reads back |
| Base64.DecodeLastTwo | src/lib/auth/webauthn.ts:174 | a final group of two bytes, padded with one `=`, reads back |
| Base64.DecodeFullGroup | src/lib/auth/webauthn.ts:174 | a full group in front of well-formed text reads back as its three bytes in front of the text's bytes |
| Base64.DecodeEncode | src/app/api/auth/register/verify/route.ts:74 | a public key stored as base64 at registration is read back unchanged at sign-in |
| Base64.EncodeInjective | src/app/api/auth/register/verify/route.ts:74 | different public keys are stored as different text |
| Common.Utf16Length | src/app/api/auth/register/options/route.ts:13 | a string's JavaScript length is between its character count and twice that |
| RegisterOptions.CheckDisplayName | src/app/api/auth/register/options/route.ts:10-18 | a missing or non-string name is refused; a given one is accepted exactly when its trimmed text is 1 to 100 code units long, and the trimmed text is what is kept |
| RegisterOptions.AcceptedNameShape | src/app/api/auth/register/options/route.ts:10-18 | an accepted name is trimmed and 1 to 100 characters long |
| RegisterOptions.BlankNameRefused | src/app/api/auth/register/options/route.ts:11-13 | a name of only whitespace is refused |
| RegisterOptions.TrimBlank | src/app/api/auth/register/options/route.ts:11 | trimming whitespace-only text leaves nothing |
| RegisterOptions.Post | src/app/api/auth/register/options/route.ts:7-66 | a bad name answers 400, a full first household 400, a failure 500, none storing anything; otherwise the options exclude exactly the passkeys of the household's members, each once, and exactly one challenge is stored |
| RegisterVerify.MemberCountInsert | src/app/api/auth/register/verify/route.ts:60-66 | a new user adds one member to their own household and none to any other |
| RegisterVerify.MemberCountUnused | src/app/api/auth/register/verify/route.ts:37-40 | a household no user points at has no members |
| RegisterVerify.AdmitKeeps | src/app/api/auth/register/verify/route.ts:32-66 | adding a user to a stored household below capacity keeps every user in a stored household and every household within two members |
| RegisterVerify.NewHouseholdEmpty | src/app/api/auth/register/verify/route.ts:48-57 | a household just created has no members and creating it keeps the invariant |
| RegisterVerify.Enrol | src/app/api/auth/register/verify/route.ts:29-82 | the first household is joined or "My Family" created, one new user is stored in it, and the passkey is stored with its public key as base64 unless its id is taken, which answers the clash error and issues no session |
| RegisterVerify.Post | src/app/api/auth/register/verify/route.ts:9-89 | nothing is written before the challenge is verified; a failed verification or a full household writes nothing more; otherwise the writes of Enrol; every household keeps at most two members |
| RegisterVerify.ThirdMemberRefused | src/app/api/auth/register/verify/route.ts:37-47 | a household with two members is full, and adding any user to it would exceed capacity |
| Proxy.Gate | src/proxy.ts:12-38 | in development nothing is redirected; public and static paths always pass; otherwise a request is redirected to sign-in exactly when it lacks a non-empty session cookie |
| Proxy.PublicPrefixPasses | src/proxy.ts:4-23 | every path under a public prefix passes, with or without a cookie |
| Proxy.StaticPrefixPasses | src/proxy.ts:25-28 | every path beginning `/_next` or `/favicon` passes, with or without a cookie |
| Proxy.CookieAdmits | src/proxy.ts:30-37 | any request carrying a non-empty session cookie passes |
| Proxy.PrefixOnly | src/proxy.ts:21 | public paths match as prefixes: `/loginx` passes, and `/api/auth` without its slash is redirected |
| Db.NewId | src/lib/db/schema.ts:120 | a generated id carries its table's tag |
| Db.NewIdInjective | src/lib/db/schema.ts:120 | ids drawn from different counter values differ, so a generated id is never already in use |
| Db.SelectOrdered | src/app/api/accounts/route.ts:13-26 | a filtered, ordered select: exactly the rows that pass the filter, each once, in ascending order of the sort key |
| Db.TxRowOf | src/lib/scraper/ingest.ts:35-49 | a newly inserted transaction has the account and external id it was given and starts uncategorised, not overridden and not classified |
| Db.TransactionTable.InsertOrIgnore | src/lib/scraper/ingest.ts:35-53 | an insert that does nothing on a clash of (account, external id) returns no id exactly when the pair is already stored; otherwise it stores one new row under a fresh id; afterwards the pair is stored and the unique index still holds |
| Db.Categorised | src/lib/classification/classify.ts:51-60 | the rows named get the category and the classification method, every other row is unchanged, and no row is added or removed |
| Db.TransactionTable.SetCategory | src/lib/classification/classify.ts:51-60 | the update sets category and method on exactly the rows named and keeps the unique index |
| Db.AccountTable.SetLastSyncedAt | src/lib/scraper/ingest.ts:75-78 | only the named account's sync time changes, and only if the account exists |
| Db.AccountTable.Insert | src/app/api/accounts/route.ts:93-111 | one row is added under a fresh id and nothing else changes |
| Db.SyncLogTable.Append | src/lib/scraper/ingest.ts:82-89 | the sync log gains exactly the one entry at its end |
| Db.Retargeted | scripts/bulk-classify.ts:300-313 | the rules of the household with the pattern point at the new category; every other rule is unchanged and none is added or removed |
| Db.RuleTable.Upsert | scripts/bulk-classify.ts:300-313 | the insert-or-update on (household, pattern): an existing rule is pointed at the category, otherwise one new rule with priority 0 is stored; afterwards the pattern is stored once |
| Db.CategoryTable.Insert | src/app/api/categories/route.ts:99-109 | one row is added under a fresh id and nothing else changes |
| Db.Refreshed | src/lib/recurring/detect.ts:140-151 | the conflict update overwrites the detected values and keeps household, description and whether the pattern is active |
| Db.ValuesOf | src/lib/recurring/detect.ts:140-151 | refreshing a stored pattern with its own values leaves it unchanged |
| Db.ValuesOfRefreshed | src/lib/recurring/detect.ts:140-151 | the values read back from a refreshed pattern are the values written |
| Db.FreshPattern | src/lib/recurring/detect.ts:127-139 | a newly inserted pattern belongs to the household and description given, is active, and holds the values given |
| Db.PatternListedKept | src/lib/recurring/detect.ts:127-153 | an upsert that keeps every row's household and description keeps every stored (household, description) pair |
| Db.ChangesCompose | src/lib/recurring/detect.ts:127-153 | if two successive writes change only rows with some property, together they change only rows with that property |
| Db.RefreshedAll | src/lib/recurring/detect.ts:140-151 | the pattern of the household with the description is refreshed; every other pattern is unchanged and none is added or removed |
| Db.PatternTable.Upsert | src/lib/recurring/detect.ts:127-153 | the insert-or-update on (household, description): an existing pattern is refreshed, otherwise one fresh pattern is stored; every row keeps its household and description and the unique index holds |
| Db.ChallengeTable.Insert | src/lib/auth/webauthn.ts:55-61 | one challenge is added under a fresh id and nothing else changes |
| Db.ChallengeTable.Delete | src/lib/auth/webauthn.ts:93 | the challenge with the id is gone and nothing else changes |
| Db.CredentialTable.Insert | src/app/api/auth/register/verify/route.ts:71-77 | the passkey is stored exactly when its id is not yet stored; a clash leaves the table unchanged |
| Db.CredentialTable.SetCounter | src/lib/auth/webauthn.ts:196-199 | only the named passkey's counter changes, and only if it is stored |
| Db.HouseholdTable.Insert | src/app/api/auth/register/verify/route.ts:50-53 | one household is added under a fresh id, which becomes the last in insertion order |
| Db.UserTable.Insert | src/app/api/auth/register/verify/route.ts:60-66 | one user is added under a fresh id and nothing else changes |

## Left out

- Network clients (the Gemini call, the Isracard browser session and its fetches), `randomDelay`, timeouts and `after()` post-response tasks are not modelled. Their results enter as parameters, and their failures as `Err` values.
- Cryptography is not modelled. SHA-256, AES-256-GCM and its random IV are opaque functions passed in. `src/lib/auth/session.ts` is not part of this model: registration returns the session it would issue, and the cookie itself is not modelled.
- The WebAuthn library's signature and attestation checks are oracles that return a verdict.
- Floating point is not modelled: amounts are exact integers, and `Math.sqrt` is a parameter.
- `toFixed(2)` rounding of the stored expected amount and confidence is not modelled.
- Time zones are not modelled. This includes the ISO-string versus local-date mismatches in the forecast: dates are day numbers.
- `Intl` and `toLocaleDateString` formatting is not modelled. This means `formatILS`, `formatDate`, `monthLabel` and `billingDateLabel` in `src/lib/format.ts`.
- Detect.RecordGroup: the detected/updated split relies on `createdAt` and `updatedAt` being within a second of each other. The model uses whether the (household, description) pair existed before the upsert instead.
- Classify.ClassifyBatch: states that only the AI tier's rows change, to category and method "ai", and not which row gets which category.
- Classify.ClassifyBatches: states that only the AI tier's rows change, and not the exact category of each row.
- BulkClassify.ClassifyBatch: bounds what an accepted answer may write, but does not give the exact rows and rules written.
- BulkClassify.ClassifyBatches: bounds what the batches may write, but does not give the exact rows and rules written.
- BulkClassify.AiTier: bounds the tier's writes through the same bound.
- `scripts/bulk-classify.ts` calls the `gateway` model provider without importing it. As written, every language-model call therefore throws inside the batch's `try`. The model treats the reply as a `Result` input, so this case is the `Err` reply and every batch fails.
- Ai.DropOptional: only bounds the length of the text after an optional character is dropped.
- The prompt text sent to the language model is not modelled.
- Database failures are not modelled as such:
  - a value longer than its column;
  - a malformed uuid, answered with 500;
  - an insert that returns no row.

  Only the failures the code branches on are modelled. A passkey-id clash on insert is its error message, given as a parameter.
- Request bodies whose fields are JSON values of the wrong type are read as missing. A thrown value that is not an `Error` is not modelled.
- The `lastSyncedAt` field is absent from the account view of the accounts POST.
- The login routes are not modelled. Neither is the `config.matcher` of `src/proxy.ts`, which decides which requests reach the gate at all.
- `Buffer.from(text, "base64")` is modelled only on well-formed text: whole four-character groups with padding only at the end. It skips or stops at other characters, and that leniency is not modelled.
- Common.Lower: lower-cases ASCII, Latin-1 and Cyrillic capitals only. Greek capitals (with the word-final sigma), Latin Extended, Armenian and other scripts, and the length-changing `İ`, are left as they are, where `toLowerCase` would lower them.
- Rules.MatchRule: the case-insensitive match inherits the Common.Lower gap: a rule and a description differing only in the case of a letter outside ASCII, Latin-1 and Cyrillic do not match in the model.
- Rules.MatchRuleIgnoresCase: holds for the Common.Lower the model has, with its gap.
- BulkClassify.GroupOf: descriptions are grouped under Common.Lower, with its gap.
- Forecast.Normalize: the normalised description inherits the Common.Lower gap.
- Detect.Normalize: the grouping key inherits the Common.Lower gap.
- Isracard.KeptRow: a purchase abroad sent without its payment sum, dated on or after the start, is passed on by the source with a `NaN` charged amount. Amounts here are integers with no `NaN`, so the model drops that row.
- "The first household" is the first household inserted. An unordered `limit(1)` is modelled as insertion order.
- The register routes check capacity and then insert as separate statements. Concurrent registrations, which could race past the check, are not modelled.
- Sorting in place (`group.sort`) is modelled as a stable sort of a sequence, and aliasing of the sorted array is not modelled.

## Findings

| source | as written | input that shows it | evidently intended | confidence | as-written member | corrected member |
|---|---|---|---|---|---|---|
| src/app/api/accounts/route.ts:60 | `body.institution in INSTITUTIONS` also finds the names every object inherits from `Object.prototype` | institution `"toString"` passes the check: without credentials the account is stored and answered with 201, and with a credential field the lookup of its `credentials` throws a TypeError answered with 500 | accept only the seven own keys | not executed | AccountsRoute.InheritedInstitutionStored | AccountsRoute.OwnKeysRefuseInherited |
| src/app/api/categories/route.ts:81-97 | the parent lookup filters by id only, although its comment says the parent must belong to the household | a parentId of another household's category is accepted and a child is stored under it | look the parent up within the session's household | not executed | CategoriesRoute.ForeignParentCreated | CategoriesRoute.CreateScoped |
