# growth-co-pilot: a Dafny model of the scraping and labeling pipeline

growth-co-pilot is a scheduled pipeline with two halves.

The complaints half works like this:
- It scrapes the low-rating reviews of top iOS apps.
- It sends them in batches of twenty to a language model, which extracts structured complaints.
- It retries on rate limits, waiting as long as the error message suggests.
- It stores the complaints.
- It folds a day's complaints into a summary: counts by complaint category, counts by app category and complaint category, and the twenty most frequent complaint texts.
- It asks the model to group each app's complaints into at most five product opportunities.

The jobs half works like this:
- It pages through The Muse's public job board for entry-level product-management jobs.
- It drops the jobs whose id an earlier page already gave.
- It keeps the recent ones at software companies, after stripping HTML from their descriptions.
- It upserts companies and jobs.
- It asks the model for at most five outcome themes per company.

## Modules

This project models the seven core steps, one Dafny module per source file, plus shared modules.

Shared modules:
- `Wrappers`: `Option` and `Result`.
- `Json`: a decoded JSON value and JavaScript's `??`, `typeof`, `Array.isArray` and indexing.
- `Text`: the JavaScript string operations the steps use, such as `trim`, `toLowerCase`, `slice`, `join`, `includes`, `split('T')[0]` and `String(n)`.
- `Tally`: insertion-ordered dictionaries (`Distinct`, `Histogram`, `FirstIndex`, `SumOver`) and fixed-size chunking.
- `Clusters`: the decoder and the index-to-id mapping that the opportunity and outcome steps share.

Everything outside the program is a parameter:
- the language model: a function from a request and the call's number in the run to a reply or a thrown message;
- `JSON.parse`: a function from text to an optional value;
- the app store scraper and The Muse;
- the clock: the run's ISO time, and a predicate for "posted within six months";
- date-to-ISO conversion;
- every database query: its result is an input;
- every database write: a function from the rows written to the error reported.

Imperative code is modelled as methods with loops, each proved equal to a specification function. This covers:
- the batch loops;
- the retry loop;
- the page loop;
- the dictionary-building loops;
- the chunking loop.

The specification functions are folds over the input. The lemmas prove what the source promises about them.

## Behaviour the model follows

- A failed lookup of the reviews already processed today is ignored (`existing ?? []`, agent/steps/analyzeComplaints.ts:50-55). Every fetched review is then processed. Only a failed reviews query ends the step with an error.
- The extraction prompt carries each review body whole (agent/lib/groq.ts:50). Only the job descriptions of the outcome prompt are cut, to their first 1200 units (agent/steps/generatePMOutcomes.ts:44).
- The `BATCH_DELAY_MS` pause is taken between batches only, never after the last one (agent/steps/analyzeComplaints.ts:126-128).
- The already-processed filter removes every fetched row whose review id was looked up (agent/steps/analyzeComplaints.ts:55-56). When fetched rows repeat an id, all of them go.
- The page loop filters each page against the ids seen before that page and marks the kept ids only afterwards (agent/steps/fetchPMJobs.ts:82-83). A job listed twice on one page is therefore gathered twice. The methods follow this; see "## Findings".

## Model

| member | source | states |
|---|---|---|
| Json.Member | agent/lib/groq.ts:73 | a member is present exactly for an object having that key, and is that key's value |
| Json.Coalesce | agent/lib/groq.ts:73 | `a ?? b` is `a` unless `a` is undefined or null, and then `b` |
| Json.AsString | agent/lib/groq.ts:77-78 | a `typeof === 'string'` test passes exactly for strings and gives the string |
| Json.AsNumber | agent/lib/groq.ts:76-79 | a `typeof === 'number'` test passes exactly for numbers and gives the number |
| Json.AsArray | agent/lib/groq.ts:71 | `Array.isArray` holds exactly for arrays and gives the elements |
| Json.IndexOf | agent/steps/analyzeComplaints.ts:100 | a whole-number index in range names a position of the array |
| Json.ItemsOf | agent/lib/groq.ts:71-73 | a bare array is used as is, `null` makes the member access throw, and an object gives the chosen member when it is an array |
| Json.KeepShaped | agent/lib/groq.ts:74-80 | the shape filter throws exactly when an item is `null`; otherwise it keeps the shaped items, each of which comes from the input |
| Json.KeepShapedAppend | agent/lib/groq.ts:74-80 | the filter treats items one by one: filtering a concatenation concatenates the results |
| Json.KeepShapedOne | agent/lib/groq.ts:74-80 | a single non-null item is kept exactly when it has the shape |
| Text.Trim | agent/lib/groq.ts:66 | the result of `trim()` has no JavaScript white space at either end |
| Text.TrimStart | agent/lib/groq.ts:66 | the result has no leading white space and is a suffix of the input that drops only white space |
| Text.TrimEnd | agent/lib/groq.ts:66 | the result has no trailing white space and is a prefix of the input that drops only white space |
| Text.TrimOfTrimmed | agent/lib/groq.ts:66 | trimming is idempotent |
| Text.TrimIgnoresSurroundingSpace | agent/lib/groq.ts:66 | white space around a trimmed text is removed exactly |
| Text.Lower | agent/steps/fetchPMJobs.ts:40 | `toLowerCase()` keeps the length, lower-cases each ASCII capital and leaves every other character as it is |
| Text.LowerAppend | agent/steps/fetchPMJobs.ts:40 | helper fact for the keyword test: lower-casing works character by character, so it distributes over concatenation |
| Text.Take | agent/steps/aggregate.ts:63 | `slice(0, n)` is the first `min(n, length)` elements of a sequence of Unicode scalar values |
| Text.Includes | agent/steps/fetchPMJobs.ts:41 | `includes` holds exactly when the pattern occurs at some offset |
| Text.BeforeFirst | agent/steps/fetchPMJobs.ts:148 | `split(c)[0]` is the longest prefix without `c`, followed by `c` when shorter than the input |
| Text.JoinSplit | agent/lib/groq.ts:47-52 | joining a list equals joining the entries before any inner position, the separator, and joining the entries from it on |
| Text.NatToString | agent/steps/fetchPMJobs.ts:140 | `String(n)` is a non-empty string of decimal digits without a leading zero |
| Text.NatToStringRoundTrip | agent/steps/fetchPMJobs.ts:140 | the decimal digits of `n` read back as `n` |
| Text.NatToStringInjective | agent/steps/fetchPMJobs.ts:140 | different numbers give different strings |
| Text.IntToStringInjective | agent/steps/fetchPMJobs.ts:140 | different integer ids give different strings, negative ones too |
| Tally.Distinct | agent/steps/generateOpportunities.ts:95 | `[...new Set(s)]` holds each element of `s` exactly once and nothing else |
| Tally.DistinctSnoc | agent/steps/generateOpportunities.ts:95 | a new element is appended to the set's order, and a seen one changes nothing |
| Tally.FirstIndex | agent/steps/fetchPMJobs.ts:118-120 | the position of the first occurrence of an element |
| Tally.Histogram | agent/steps/aggregate.ts:46-50 | the counting dictionary has a key per distinct element, counting its occurrences |
| Tally.HistogramSnoc | agent/steps/aggregate.ts:48-49 | counting one more element bumps only its entry |
| Tally.HistogramTotal | agent/steps/aggregate.ts:46-50 | the counts over the keys add up to the number of elements |
| Tally.SumOverBump | agent/steps/aggregate.ts:48-49 | raising one listed entry by one raises the sum by one |
| Tally.ChunksConcat | agent/steps/analyzeComplaints.ts:63-65 | the 20-element (or 10-app) batches concatenate back to the input |
| Tally.ChunksShape | agent/steps/analyzeComplaints.ts:63-65 | there are `ceil(n / size)` batches, all full except the last, which is not empty |
| Tally.ChunksHead | agent/steps/fetchReviews.ts:43-44 | the first batch is the first `size` elements and the rest are the batches of what follows |
| Tally.PermutationNoDuplicates | agent/steps/aggregate.ts:74-75 | sorting keeps the entries distinct |
| Tally.SnocFacts | agent/steps/aggregate.ts:62-72 | appending a key adds one occurrence and keeps the first position of earlier keys |
| Tally.FlatMapAppend | agent/steps/fetchReviews.ts:45-46 | `map(f).flat()` distributes over concatenation |
| Tally.FlatMapSkip | agent/steps/fetchReviews.ts:30-34 | an element mapped to nothing drops out of the flattening |
| Groq.RawText | agent/lib/groq.ts:63-64 | the reply text is the first block's text, or `[]` when that is missing or not text |
| Groq.StripFences | agent/lib/groq.ts:66 | the text handed to the parser is trimmed |
| Groq.FencedReplyGivesBody | agent/lib/groq.ts:65-66 | a reply fenced as ```` ```json … ``` ```` gives back exactly the text between the fences |
| Groq.OpeningFenceStripped | agent/lib/groq.ts:66 | the opening fence, an optional `json` tag in any case, and the white space after it are removed |
| Groq.ClosingFenceStripped | agent/lib/groq.ts:66 | the closing fence and the white space around it are removed |
| Groq.UnfencedReplyIsTrimmed | agent/lib/groq.ts:66 | a reply without fences is only trimmed |
| Groq.ShownTitle | agent/lib/groq.ts:50 | an empty title is shown as `(no title)` |
| Groq.RenderReview | agent/lib/groq.ts:48-50 | each prompt entry opens with its `[index]` tag |
| Groq.RenderReviews | agent/lib/groq.ts:47-51 | one entry per review, in order |
| Groq.PromptListsReview | agent/lib/groq.ts:47-54 | every review appears in the prompt in order, separated by `---`, each opened by its tag |
| Groq.IndexTagsDiffer | agent/lib/groq.ts:50 | reviews with different indexes get different tags |
| Groq.AsComplaint | agent/lib/groq.ts:74-80 | an item is kept exactly when `review_index` and `severity` are numbers and `complaint_text` and `complaint_category` are strings, and carries those values |
| Groq.ParseFailureYieldsNothing | agent/lib/groq.ts:81-83 | unparseable text yields no complaints rather than an error |
| Groq.NonTextReplyYieldsNothing | agent/lib/groq.ts:63-64 | a reply whose first block is not text yields no complaints |
| Groq.BareArrayIsFiltered | agent/lib/groq.ts:71-80 | a bare array is shape-filtered as it is |
| Groq.EnvelopePriority | agent/lib/groq.ts:73 | an object's `complaints` wins over `results`, which wins over nothing |
| Groq.NullItemYieldsNothing | agent/lib/groq.ts:74-83 | one `null` item makes the filter throw, so the batch yields nothing |
| AnalyzeComplaints.FlattenRow | agent/steps/analyzeComplaints.ts:37-45 | the row keeps id, app, rating, title and body, and the joined category becomes `'Unknown'` when missing |
| AnalyzeComplaints.FlattenRows | agent/steps/analyzeComplaints.ts:37-45 | one row per fetched review, in order |
| AnalyzeComplaints.ToProcess | agent/steps/analyzeComplaints.ts:55-56 | exactly the rows whose id was not already processed are kept |
| AnalyzeComplaints.ToProcessAppend | agent/steps/analyzeComplaints.ts:56 | the filter keeps the order: it distributes over concatenation |
| AnalyzeComplaints.NothingProcessed | agent/steps/analyzeComplaints.ts:55 | a failed or empty lookup keeps every row |
| AnalyzeComplaints.ToProcessIdempotent | agent/steps/analyzeComplaints.ts:56 | filtering twice changes nothing |
| AnalyzeComplaints.MakeBatches | agent/steps/analyzeComplaints.ts:61-65 | the slicing loop builds exactly the 20-review chunks |
| AnalyzeComplaints.BatchesPartition | agent/steps/analyzeComplaints.ts:61-65 | the batches concatenate to the input; there are `ceil(n/20)` of them, each of 1 to 20 reviews, all full but the last |
| AnalyzeComplaints.ReviewInputs | agent/steps/analyzeComplaints.ts:71-76 | entry `i` has index `i` and the review's rating and body, with a null title shown as empty |
| AnalyzeComplaints.HintOfWholeSeconds | agent/steps/analyzeComplaints.ts:90 | digits followed by `s` are read as whole seconds |
| AnalyzeComplaints.HintOfFraction | agent/steps/analyzeComplaints.ts:90 | digits, a point, digits and `s` are read as a decimal number |
| AnalyzeComplaints.FirstHintSpec | agent/steps/analyzeComplaints.ts:90 | the search finds the leftmost hint at or after the start, or reports that there is none |
| AnalyzeComplaints.FindHintLeftmost | agent/steps/analyzeComplaints.ts:90 | `match` uses the leftmost occurrence of `try again in <number>s` |
| AnalyzeComplaints.FindHintNone | agent/steps/analyzeComplaints.ts:90 | there is no match exactly when no offset starts a hint |
| AnalyzeComplaints.CeilDiv | agent/steps/analyzeComplaints.ts:91 | `Math.ceil(a / b)` is the least `q` with `a <= q * b` |
| AnalyzeComplaints.CeilDivExact | agent/steps/analyzeComplaints.ts:91 | an exact quotient is not rounded up |
| AnalyzeComplaints.HintWaitMs | agent/steps/analyzeComplaints.ts:91 | the wait is the hinted seconds in milliseconds, rounded up, plus 500 |
| AnalyzeComplaints.WaitDefault | agent/steps/analyzeComplaints.ts:90-91 | without `try again in` the wait is 15000 ms, and it is never below 500 ms |
| AnalyzeComplaints.WholeSecondsWait | agent/steps/analyzeComplaints.ts:90-91 | `try again in 3s` waits 3500 ms |
| AnalyzeComplaints.TenthsWait | agent/steps/analyzeComplaints.ts:90-91 | `try again in 1.5s` waits 2000 ms |
| AnalyzeComplaints.LeadingHint | agent/steps/analyzeComplaints.ts:90-91 | a message opening with a hint waits by that hint |
| AnalyzeComplaints.Retried | agent/steps/analyzeComplaints.ts:79-96 | the retry loop makes one to six calls, recording one rate-limit message per retry |
| AnalyzeComplaints.RetryFromResult | agent/steps/analyzeComplaints.ts:81-88 | the loop ends with the last call's result: a success, a non-rate-limit error, or the error of the sixth call |
| AnalyzeComplaints.RetryFromLimited | agent/steps/analyzeComplaints.ts:85-94 | every call before the last failed with a rate limit, recorded in order |
| AnalyzeComplaints.RetriedOutcome | agent/steps/analyzeComplaints.ts:79-96 | the result is the last call's; it is an error only if that error is not a rate limit or the retries ran out; every earlier call was rate-limited |
| AnalyzeComplaints.NoRetryOtherErrors | agent/steps/analyzeComplaints.ts:88 | an error that is not a rate limit is rethrown at once, without a wait |
| AnalyzeComplaints.Waits | agent/steps/analyzeComplaints.ts:91-94 | one wait per rate-limit message |
| AnalyzeComplaints.ExtractWithRetry | agent/steps/analyzeComplaints.ts:79-96 | the `while (true)` loop returns the retry specification's result, call count and waits |
| AnalyzeComplaints.Clamp | agent/steps/analyzeComplaints.ts:108 | the severity is clamped into [1, 5] and kept when already inside |
| AnalyzeComplaints.InRange | agent/steps/analyzeComplaints.ts:99-100 | the complaints kept are complaints of the input whose `review_index` names a review of the batch |
| AnalyzeComplaints.MapComplaintsInOrder | agent/steps/analyzeComplaints.ts:98-112 | the records are exactly one per complaint whose index names a review, in the complaints' order, each built from the review it names; so `complaints.length` counts those complaints |
| AnalyzeComplaints.MapComplaintsSpec | agent/steps/analyzeComplaints.ts:98-112 | each record maps a complaint whose index names a review of the batch, and every such complaint gives its record |
| AnalyzeComplaints.MappedFromBatch | agent/steps/analyzeComplaints.ts:100-110 | each record carries its review's id, app and category, the run date and a clamped severity |
| AnalyzeComplaints.ProcessBatch | agent/steps/analyzeComplaints.ts:68-128 | the body of the batch loop performs one step of the run specification |
| AnalyzeComplaints.Analyze | agent/steps/analyzeComplaints.ts:17-133 | the step's result and effects are those of the run specification |
| AnalyzeComplaints.RunBatchesStopped | agent/steps/analyzeComplaints.ts:88 | once an error is thrown, no later batch is processed |
| AnalyzeComplaints.RunBatchesTotal | agent/steps/analyzeComplaints.ts:114-119 | the total counts every mapped record, including those of failed inserts; empty batches are not inserted |
| AnalyzeComplaints.RunBatchesPaced | agent/steps/analyzeComplaints.ts:126-128 | without an error there is one pause between consecutive batches and none after the last |
| AnalyzeComplaints.RunBatchesCalls | agent/steps/analyzeComplaints.ts:79-96 | each batch costs one to six model calls |
| AnalyzeComplaints.RunBatchesGrounded | agent/steps/analyzeComplaints.ts:98-117 | every stored record comes from a review of a batch, with the run date and a severity in [1, 5] |
| AnalyzeComplaints.AnalyzedFacts | agent/steps/analyzeComplaints.ts:24-133 | a query error is rethrown with its message; no reviews gives 0; the result is the number of records sent; every stored record is for a review fetched today and not processed before |
| Clusters.AsCluster | agent/steps/generateOpportunities.ts:73-77 | an item is kept exactly when `title` is a string and the index member is an array |
| Clusters.DecodeClustersSources | agent/steps/generateOpportunities.ts:70-77 | a bare array is filtered; otherwise only the envelope member is read; a missing member or `null` gives nothing |
| Clusters.ParseFailureYieldsNoClusters | agent/steps/generateOpportunities.ts:78-81 | unparseable text yields no clusters |
| Clusters.KeptPositions | agent/steps/generateOpportunities.ts:147 | exactly the index elements passing `i >= 0 && i < length` are kept, in order |
| Clusters.PickIds | agent/steps/generateOpportunities.ts:147-148 | the kept indices give ids in order; an index that passes the filter but names no item (a fraction) makes the mapping throw |
| Clusters.PickIdsBounded | agent/steps/generateOpportunities.ts:146-148 | the ids are no more than the indices and all belong to the fetched items |
| Clusters.PickIdsOfNumbers | agent/steps/generateOpportunities.ts:147-148 | whole-number indices in range give exactly the ids at those positions |
| Clusters.StoredDescription | agent/steps/generateOpportunities.ts:144 | `description ?? null` |
| Clusters.RowsOfShape | agent/steps/generateOpportunities.ts:140-149 | the rows exist exactly when every cluster's row does, one per cluster, in order |
| Clusters.ClusterRowsShape | agent/steps/generateOpportunities.ts:140-149 | at most five rows, one per leading cluster, with its title, its unfiltered index count (never below the number of ids) and ids of fetched items only; a bad index yields no rows |
| Clusters.StoredCountAppend | agent/steps/generateOpportunities.ts:155-160 | only a successful insert adds its rows to the total |
| Opportunities.ComplaintLine | agent/steps/generateOpportunities.ts:45-49 | line `i` opens with the tag `[i]` |
| Opportunities.ComplaintLines | agent/steps/generateOpportunities.ts:45-50 | one line per complaint, in order |
| Opportunities.PromptTagsPositions | agent/steps/generateOpportunities.ts:45-52 | complaint `k` is line `k` of the prompt and carries the tag `[k]`, so a returned index names that complaint |
| Opportunities.NameOf | agent/steps/generateOpportunities.ts:106-119 | the app's name from the last lookup row for it, or its id when there is none |
| Opportunities.ComplaintIds | agent/steps/generateOpportunities.ts:148 | the ids of the fetched complaints, by position |
| Opportunities.StoredRows | agent/steps/generateOpportunities.ts:140-149 | each row gets the app id and run date |
| Opportunities.ProcessApp | agent/steps/generateOpportunities.ts:118-167 | the body of the loop over apps performs one step of the run specification |
| Opportunities.GenerateOpportunities | agent/steps/generateOpportunities.ts:84-171 | the step's result and writes are those of the run specification |
| Opportunities.AppStepConsistent | agent/steps/generateOpportunities.ts:118-167 | one app keeps the run consistent: clear first, 1–5 grounded rows per insert, total = rows stored |
| Opportunities.RowsKeepConsistent | agent/steps/generateOpportunities.ts:140-160 | inserting an app's rows keeps the run consistent |
| Opportunities.PauseKeepsConsistent | agent/steps/generateOpportunities.ts:166 | the delay keeps the run consistent |
| Opportunities.InsertKeepsConsistent | agent/steps/generateOpportunities.ts:151-160 | an insert of good rows keeps the run consistent and credits them only on success |
| Opportunities.RunAppsConsistent | agent/steps/generateOpportunities.ts:110-167 | after the loop the clear came first, every insert holds one to five rows pointing at the app's own complaints, and the total is the rows stored |
| Opportunities.RunAppsCalls | agent/steps/generateOpportunities.ts:130-135 | one model call per app with complaints |
| Opportunities.RunAppsBound | agent/steps/generateOpportunities.ts:140 | at most five rows per app are counted |
| Opportunities.GeneratedFacts | agent/steps/generateOpportunities.ts:84-171 | the apps query's error is rethrown with nothing written; no apps gives 0 with nothing written; otherwise the run is consistent, with total = rows stored ≤ 5 × apps |
| Opportunities.AppIdsDistinct | agent/steps/generateOpportunities.ts:95 | each app with complaints is handled exactly once |
| PmOutcomes.JobEntries | agent/steps/generatePMOutcomes.ts:41-46 | one entry per job, in order |
| PmOutcomes.JobEntryShape | agent/steps/generatePMOutcomes.ts:41-46 | entry `k` opens with `[k] Title: ` and the title, then at most the first 1200 scalar values of the description (all of it when shorter), separated by `---` |
| PmOutcomes.JobIds | agent/steps/generatePMOutcomes.ts:122 | the ids of the fetched jobs, by position |
| PmOutcomes.StoredRows | agent/steps/generatePMOutcomes.ts:113-123 | each row gets the company id and name and the scrape date |
| PmOutcomes.ProcessCompany | agent/steps/generatePMOutcomes.ts:96-137 | the body of the loop over companies performs one step of the run specification |
| PmOutcomes.GeneratePmOutcomes | agent/steps/generatePMOutcomes.ts:77-141 | the step's result and writes are those of the run specification |
| PmOutcomes.CompanyStepConsistent | agent/steps/generatePMOutcomes.ts:96-137 | one company keeps the run consistent |
| PmOutcomes.RowsKeepConsistent | agent/steps/generatePMOutcomes.ts:113-131 | inserting a company's rows keeps the run consistent |
| PmOutcomes.PauseKeepsConsistent | agent/steps/generatePMOutcomes.ts:136 | the delay keeps the run consistent |
| PmOutcomes.InsertKeepsConsistent | agent/steps/generatePMOutcomes.ts:125-131 | an insert of good rows keeps the run consistent and credits them only on success |
| PmOutcomes.RunCompaniesConsistent | agent/steps/generatePMOutcomes.ts:91-137 | after the loop the clear came first, every insert holds one to five rows pointing at the company's own jobs, and the total is the rows stored |
| PmOutcomes.NoJobsNoRows | agent/steps/generatePMOutcomes.ts:105 | a company without jobs, or whose job query failed, changes nothing |
| PmOutcomes.RunCompaniesCalls | agent/steps/generatePMOutcomes.ts:105-110 | one model call per company with jobs |
| PmOutcomes.RunCompaniesBound | agent/steps/generatePMOutcomes.ts:113 | at most five rows per company are counted |
| PmOutcomes.GeneratedFacts | agent/steps/generatePMOutcomes.ts:77-141 | the company query's error is rethrown with nothing written; no companies gives 0; otherwise the run is consistent, with total = rows stored ≤ 5 × companies |
| Aggregate.ExtractAppName | agent/steps/aggregate.ts:12-16 | a falsy join gives the fallback; an array gives its first element's name; an object gives its name; a missing or null name gives the fallback |
| Aggregate.ToRow | agent/steps/aggregate.ts:33-43 | the row's app name is the extracted name with the app id as fallback |
| Aggregate.ToRows | agent/steps/aggregate.ts:33-43 | one row per fetched complaint, in order |
| Aggregate.Categories | agent/steps/aggregate.ts:47-49 | the complaint categories of the rows, in order |
| Aggregate.HistogramBump | agent/steps/aggregate.ts:48-49 | `counts[c] = (counts[c] ?? 0) + 1` turns the dictionary for `s` into the one for `s + [c]` |
| Aggregate.CountByComplaintCategory | agent/steps/aggregate.ts:46-50 | the loop builds the histogram of the rows' complaint categories |
| Aggregate.ByComplaintCategoryTotal | agent/steps/aggregate.ts:46-50 | every row is counted once: the counts add up to the number of rows |
| Aggregate.InAppCategoryMembers | agent/steps/aggregate.ts:54-58 | exactly the rows of the app category are kept |
| Aggregate.ByAppCategoryMeaning | agent/steps/aggregate.ts:53-58 | there is a key for each app category of the rows, and its inner dictionary is the histogram of that category's complaint categories |
| Aggregate.CountRowOwn | agent/steps/aggregate.ts:55-57 | counting a row fixes its own app category's entry |
| Aggregate.CountRowOther | agent/steps/aggregate.ts:55-57 | counting a row leaves the other app categories as they were |
| Aggregate.CountByAppCategory | agent/steps/aggregate.ts:53-58 | the nested loop builds the nested dictionary of the specification |
| Aggregate.InAppCategoryCount | agent/steps/aggregate.ts:54-58 | an app category has as many rows as it occurs |
| Aggregate.ByAppCategoryTotal | agent/steps/aggregate.ts:53-58 | each app category's inner counts add up to its rows, and the sums over all app categories add up to all rows |
| Aggregate.FrequenciesMeaning | agent/steps/aggregate.ts:61-72 | a key (first 100 scalar values, lower-cased) is present exactly when some row has it; its count is its occurrences; its app and category are those of its first row |
| Aggregate.AddRowKeeps | agent/steps/aggregate.ts:64-71 | counting a row keeps that meaning for every key |
| Aggregate.AddRowInserts | agent/steps/aggregate.ts:64-71 | a new key gets a zero entry with the row's app and category, then its count is raised by one |
| Aggregate.FrequenciesStep | agent/steps/aggregate.ts:62-72 | one more row adds to the dictionary and appends a new key to the key order |
| Aggregate.AddComplaint | agent/steps/aggregate.ts:64-71 | the loop body adds one row to the dictionary and appends its key to the key order exactly when it is new |
| Aggregate.CountFrequencies | agent/steps/aggregate.ts:61-72 | the loop builds `complaintFreq` and the insertion order of its keys |
| Aggregate.FrequenciesTotal | agent/steps/aggregate.ts:61-72 | every row is counted under exactly one key |
| Aggregate.EntriesOf | agent/steps/aggregate.ts:74 | `Object.entries` lists the keys in insertion order, each with its entry |
| Aggregate.InsertByCountSpec | agent/steps/aggregate.ts:75 | insertion keeps the entries in descending count order and adds exactly one entry |
| Aggregate.SortByCountSpec | agent/steps/aggregate.ts:75 | the sort orders by descending count and is a permutation |
| Aggregate.FrequenciesKeys | agent/steps/aggregate.ts:74 | the key order lists exactly the keys of the dictionary |
| Aggregate.EntriesDistinct | agent/steps/aggregate.ts:74 | the entries are distinct |
| Aggregate.RankedPermutes | agent/steps/aggregate.ts:74-75 | the ranking is a permutation of the entries, in descending count order |
| Aggregate.RankedSpec | agent/steps/aggregate.ts:74-75 | the ranking lists every key once, with its own entry, largest count first |
| Aggregate.Top | agent/steps/aggregate.ts:76-82 | the top list has `min(20, entries)` elements |
| Aggregate.TopSpec | agent/steps/aggregate.ts:74-82 | descending counts, distinct texts, each entry matching its key's count, app and category, and no omitted key counted higher than a listed one |
| Aggregate.TopComplaintsSpec | agent/steps/aggregate.ts:61-82 | `top_complaints` holds the `min(20, keys)` most frequent keys of the rows, in descending order, with their own count, app and category |
| Aggregate.Aggregate | agent/steps/aggregate.ts:18-103 | the step's result is that of the specification |
| Aggregate.AggregatedFacts | agent/steps/aggregate.ts:26-99 | a query error is rethrown with its message; a success means the upsert reported no error and stored a summary dated for the run, `complete`, whose three tallies each add up to the number of complaints, with at most 20 top entries; an upsert error is rethrown with its message |
| FetchPmJobs.ReplaceNothing | agent/steps/fetchPMJobs.ts:25-35 | a pattern that matches nowhere leaves the text unchanged |
| FetchPmJobs.CollapseSpaceSpec | agent/steps/fetchPMJobs.ts:35 | after `/\s{2,}/g → ' '` no two white-space characters are adjacent |
| FetchPmJobs.TidySpec | agent/steps/fetchPMJobs.ts:35-36 | collapsing and trimming leave no doubled white space and none at the ends |
| FetchPmJobs.StripHtmlSpec | agent/steps/fetchPMJobs.ts:24-37 | `stripHtml` output has no doubled white space and none at either end |
| FetchPmJobs.StripHtmlPlain | agent/steps/fetchPMJobs.ts:24-37 | text without `<`, `&`, doubled or surrounding white space passes through unchanged |
| FetchPmJobs.CollapseSingleSpaces | agent/steps/fetchPMJobs.ts:35 | collapsing changes nothing where no two white-space characters meet |
| FetchPmJobs.MarkupLeavesPlain | agent/steps/fetchPMJobs.ts:26-34 | the markup replacements leave text without `<` and `&` unchanged |
| FetchPmJobs.SomeIncluded | agent/steps/fetchPMJobs.ts:41 | `some(includes)` holds exactly when some keyword occurs |
| FetchPmJobs.IsSoftwareCompany | agent/steps/fetchPMJobs.ts:39-42 | a job is a software job exactly when some tech keyword occurs in its lower-cased title, company and description |
| FetchPmJobs.IdsAppend | agent/steps/fetchPMJobs.ts:84 | the ids of appended jobs are appended |
| FetchPmJobs.FreshAsWrittenKeepsRepeats | agent/steps/fetchPMJobs.ts:82-84 | a page listing the same new job twice keeps it twice as written, and once when corrected |
| FetchPmJobs.FreshAsWrittenAgrees | agent/steps/fetchPMJobs.ts:82-84 | on a page without repeated ids the code as written and the corrected filter agree |
| FetchPmJobs.FreshSpec | agent/steps/fetchPMJobs.ts:82-84 | the new jobs have distinct ids, none seen before, all from the page, and their ids are exactly the page's unseen ids |
| FetchPmJobs.FreshIgnoresUnused | agent/steps/fetchPMJobs.ts:82 | marking an id no job of the page has changes nothing |
| FetchPmJobs.MarkSeen | agent/steps/fetchPMJobs.ts:83 | the `forEach` adds exactly the ids of the kept jobs to the seen set |
| FetchPmJobs.PagesFetchedSpec | agent/steps/fetchPMJobs.ts:79-94 | pages are requested consecutively from 0, one to eight of them; every page but the last was read and not last; the last is page 7, failed, or was the last page |
| FetchPmJobs.Requests | agent/steps/fetchPMJobs.ts:81 | one request per page, for the level |
| FetchPmJobs.PageLoopRequests | agent/steps/fetchPMJobs.ts:79-94 | the page loop requests exactly those pages, in order |
| FetchPmJobs.PageLoopPauses | agent/steps/fetchPMJobs.ts:87-89 | the pauses recorded are one 400 ms pause for every requested page except a last one that failed or ended the listing, and nothing else |
| FetchPmJobs.LevelsRequests | agent/steps/fetchPMJobs.ts:75-95 | the requests are the two levels' pages, level by level |
| FetchPmJobs.FetchPage | agent/steps/fetchPMJobs.ts:81-92 | one pass of the loop as written: the request, the filter against the ids seen before the page, the marking of the kept ids, and whether the loop goes on |
| FetchPmJobs.AfterPageDeduped | agent/steps/fetchPMJobs.ts:81-84 | adding a page's new jobs keeps every id once and the seen set equal to the gathered ids: always with the corrected filter, and as written when the page repeats no id |
| FetchPmJobs.PageLoopDeduped | agent/steps/fetchPMJobs.ts:79-94 | the page loop keeps the gathered jobs deduplicated, with the corrected filter or, as written, when no page repeats an id |
| FetchPmJobs.LevelsDeduped | agent/steps/fetchPMJobs.ts:72-95 | across all levels and pages no id is gathered twice, with the corrected filter or, as written, when no page repeats an id |
| FetchPmJobs.FetchLevel | agent/steps/fetchPMJobs.ts:77-94 | one level's `while` loop, with its breaks, computes the page-loop specification with the filter as written |
| FetchPmJobs.CollectJobs | agent/steps/fetchPMJobs.ts:72-95 | the loop over the two levels computes the level specification with the filter as written |
| FetchPmJobs.FilteredMembers | agent/steps/fetchPMJobs.ts:103-108 | a job is kept exactly when it is recent and a software job |
| FetchPmJobs.FilteredAppend | agent/steps/fetchPMJobs.ts:103-108 | the filter keeps the jobs' order and every occurrence: it distributes over concatenation |
| FetchPmJobs.FilteredOne | agent/steps/fetchPMJobs.ts:103-108 | one job is kept exactly when it is recent and a software job |
| FetchPmJobs.FilteredDistinct | agent/steps/fetchPMJobs.ts:103-108 | filtering keeps ids distinct |
| FetchPmJobs.ShortNames | agent/steps/fetchPMJobs.ts:117 | the company keys of the jobs, in order |
| FetchPmJobs.CompanyMapMeaning | agent/steps/fetchPMJobs.ts:115-122 | a company is present exactly when some job has it; its name is its first job's company name; its count is its number of jobs |
| FetchPmJobs.AddJobKeeps | agent/steps/fetchPMJobs.ts:118-121 | counting a job keeps that meaning for every company |
| FetchPmJobs.AddJobInserts | agent/steps/fetchPMJobs.ts:118-121 | a new company gets a zero entry, then its count is raised by one |
| FetchPmJobs.CompanyMapStep | agent/steps/fetchPMJobs.ts:116-122 | one more job adds to the map and appends a new company to the key order |
| FetchPmJobs.CountJob | agent/steps/fetchPMJobs.ts:117-121 | the loop body counts one job into the map and the key order |
| FetchPmJobs.CountCompanies | agent/steps/fetchPMJobs.ts:115-122 | the loop builds `companyMap` and the insertion order of its keys |
| FetchPmJobs.CompanyMapKeys | agent/steps/fetchPMJobs.ts:125 | the key order lists exactly the map's keys |
| FetchPmJobs.CompanyCountsTotal | agent/steps/fetchPMJobs.ts:115-122 | every job is counted under exactly one company |
| FetchPmJobs.CompanyRows | agent/steps/fetchPMJobs.ts:125-130 | one row per key, in key order, with its entry and today's date |
| FetchPmJobs.CompanyRowsTotal | agent/steps/fetchPMJobs.ts:125-130 | the rows' counts add up to the entries' counts |
| FetchPmJobs.CompanyRowsEntries | agent/steps/fetchPMJobs.ts:115-130 | one row per company in order of first appearance, with its first job's company name, its job count and today's date |
| FetchPmJobs.CompanyRowsSpec | agent/steps/fetchPMJobs.ts:115-130 | company row ids are distinct, every company of the jobs has a row, counts are correct and add up to the number of jobs |
| FetchPmJobs.FirstName | agent/steps/fetchPMJobs.ts:144-145 | a missing or empty list gives null; otherwise the result is the first entry's name, which may itself be null |
| FetchPmJobs.ToJobRow | agent/steps/fetchPMJobs.ts:139-149 | the row id is `String(id)`; company id, company name and title are the job's; location and level are the first entry of each list or null; the URL is the landing page; the description is the first `min(8000, length)` scalar values of the stripped contents; the posted date is the part of the publication date before the first `T` |
| FetchPmJobs.JobRows | agent/steps/fetchPMJobs.ts:139-149 | one row per filtered job, in order |
| FetchPmJobs.JobRowIdsDistinct | agent/steps/fetchPMJobs.ts:139-153 | jobs with distinct ids give rows with distinct ids, so the upsert on `id` sees each once |
| FetchPmJobs.FetchPmJobs | agent/steps/fetchPMJobs.ts:69-158 | the step's result and gathered jobs are those of the specification with the filter as written |
| FetchPmJobs.FinishFacts | agent/steps/fetchPMJobs.ts:103-157 | no kept job gives 0 with nothing written; the step fails exactly when an upsert reports an error, with `Company upsert failed: ` first, then `Job upsert failed: `; a success returns the number of kept jobs |
| FetchPmJobs.PmJobsFacts | agent/steps/fetchPMJobs.ts:69-158 | the requests are the level loops' pages; with the corrected filter, or as written when no page repeats an id, no id is gathered or kept twice and the job rows have distinct ids |
| FetchPmJobs.PmJobsRunAgrees | agent/steps/fetchPMJobs.ts:72-95 | when no page repeats an id, the step as written and the corrected step have the same outcome and gather, request and pause alike |
| FetchPmJobs.PageAsWrittenGathersRepeats | agent/steps/fetchPMJobs.ts:81-84 | a first page listing the same job twice: the step as written gathers it twice, the corrected step once |
| FetchReviews.QueryFor | agent/steps/fetchReviews.ts:10-16 | the query asks for the app's 50 most recent US reviews, page 1 |
| FetchReviews.LowRated | agent/steps/fetchReviews.ts:20 | exactly the reviews with at most three stars are kept |
| FetchReviews.LowRatedAppend | agent/steps/fetchReviews.ts:20 | the filter keeps the reviews' order and every occurrence: it distributes over concatenation |
| FetchReviews.LowRatedOne | agent/steps/fetchReviews.ts:20 | one review is kept exactly when it has at most three stars |
| FetchReviews.ReviewDate | agent/steps/fetchReviews.ts:28 | an empty `updated` gives no date; otherwise the ISO form, and an invalid date throws |
| FetchReviews.ToRecord | agent/steps/fetchReviews.ts:21-29 | the record carries the app id, `itunes_id = id`, `rating = score`, the title, `body = text`, the author and the date, and fails exactly when the date conversion throws |
| FetchReviews.Records | agent/steps/fetchReviews.ts:21-29 | one record per kept review, in order, and a failure exactly when some kept review's record throws |
| FetchReviews.ReviewsForAppOrigin | agent/steps/fetchReviews.ts:8-35 | a failed fetch gives no records; every record is for this app and comes from a fetched review with at most three stars, carrying its rating, body and id |
| FetchReviews.RecordOrigin | agent/steps/fetchReviews.ts:21-29 | every record comes from one of the kept reviews |
| FetchReviews.ReviewsForAppComplete | agent/steps/fetchReviews.ts:19-29 | when the fetch succeeds and every date converts, there is exactly one record per review of at most three stars, in order, with its rating, body and id |
| FetchReviews.FailedAppSkipped | agent/steps/fetchReviews.ts:30-34 | an app whose fetch fails contributes nothing and does not stop the other apps of its batch |
| FetchReviews.ChunksFrom | agent/steps/fetchReviews.ts:43-44 | the batch `apps.slice(i, i + 10)` is the first chunk of what is left |
| FetchReviews.StepsFromChunks | agent/steps/fetchReviews.ts:43-44 | visiting the batches `apps.slice(i, i + 10)` for `i, i + 10, …` handles exactly the ten-app chunks of the apps from `i` on, in order |
| FetchReviews.StepsFromStart | agent/steps/fetchReviews.ts:43-44 | the loop from `i = 0` handles the chunks of all the apps |
| FetchReviews.HandleBatch | agent/steps/fetchReviews.ts:45-68 | the loop body performs one step of the batch specification, including the pause after an upserted batch |
| FetchReviews.FetchReviews | agent/steps/fetchReviews.ts:37-75 | the `i += 10` loop computes the total and the upserted batches of the chunk-by-chunk specification |
| FetchReviews.StepTallied | agent/steps/fetchReviews.ts:59-66 | one batch keeps the total equal to the credits of the upserts so far |
| FetchReviews.StepsTallied | agent/steps/fetchReviews.ts:43-69 | the total is the sum of `count ?? 0` over the upserts without an error, and each progress line shows the total up to its batch |
| FetchReviews.StepsSent | agent/steps/fetchReviews.ts:43-58 | the records sent are the batches' records in order; a skipped batch had none |
| FetchReviews.StepLogged | agent/steps/fetchReviews.ts:48-68 | a batch is logged only when it has records, with its index, `processed = min(i + 10, n)` and a 500 ms pause after it |
| FetchReviews.StepsLogged | agent/steps/fetchReviews.ts:43-69 | logged batches have records, are each followed by a 500 ms pause, have increasing indexes below the number of chunks, and `processed = min(10 × (index + 1), n)` |
| FetchReviews.ReviewedFacts | agent/steps/fetchReviews.ts:37-75 | the batches are ten-app chunks covering the apps in order; every record of every app is sent exactly once, in app order; an empty batch is not upserted; the total is the sum of `count ?? 0` over the upserts without an error; each progress line shows `min(i + 10, n)` apps; every upserted batch, the last one included, is followed by a 500 ms pause |

## Left out

- Network and database calls are parameters of the model. This covers the language model, `JSON.parse`, The Muse, the app store scraper, database queries and writes, `Date` and `setTimeout`. Their behaviour is not modelled.
- The request parameters are recorded, but nothing is assumed about the reply to a given request.
- Waits are recorded as milliseconds. No time passes.
- `console.log` and other logging output are not modelled. The one exception is the progress value of the review-scraping loop, which is recorded.
- Concurrency is modelled sequentially. `Promise.all` over a batch in agent/steps/fetchReviews.ts:45 runs its apps one after another. The results are flattened in input order either way, so what is upserted is the same.
- Floating point is not modelled. Numbers are exact rationals. A wait hint is computed as `Math.ceil(x * 1000) + 500` in exact arithmetic, while the source multiplies a parsed IEEE double. The two can differ in the last millisecond for long decimal hints.
- Text.Lower: `toLowerCase` is modelled on ASCII letters only. The regular expressions' `/i` (without the `u` flag) also folds only ASCII, which is exact.
- JavaScript coercions beyond those listed under `Clusters` are left out:
  - A string or object used as an index is dropped.
  - A `page_count` that is not a number is treated as a number.
  - A `score` compared with `<=` is taken to be an integer.
- Plain-object keys that clash with `Object.prototype` are left out. These are `constructor`, `__proto__` and the like, used as a complaint category, an app category or a complaint text.
- The order `Object.entries` gives integer-like keys is left out: it lists them first, in numeric order. The model lists all keys in insertion order.
- JSON serialisation of the summary's dictionaries is not modelled.
- The Muse page-fetch request URL, headers and `res.ok` check are folded into the `muse` oracle. A failed response, a thrown fetch and a body that does not parse all appear as `Err`.
- `Number(appRecord.app_id)` in agent/steps/fetchReviews.ts:11 is not modelled: the query carries the id string. A non-numeric id reaches the scraper as `NaN`. That is the scraper's concern, and at worst its error is caught.
- `new Date(r.updated).toISOString()` is the `toIso` parameter: a valid date gives its ISO text, and an invalid date throws. The throw happens inside `map`, within the `try`, so the whole app yields no records. The model keeps that behaviour.
- Text.Take: strings are sequences of Unicode scalar values, and lengths are counted in them. JavaScript's `slice` counts UTF-16 code units. A text with a character outside the Basic Multilingual Plane (an emoji, say) before the cut therefore keeps more of its text in the model than in the source. The source can also cut such a character in half, leaving a lone surrogate, which a Dafny string cannot hold.
- Aggregate.FrequenciesMeaning: the complaint key is cut at 100 scalar values, not 100 UTF-16 units. Two texts that differ only after a character cut in half are one key in the source and two in the model.
- FetchPmJobs.ToJobRow: the 8000-unit description cap is counted in scalar values, as in Text.Take.
- PmOutcomes.JobEntryShape: the 1200-unit description cap is counted in scalar values, as in Text.Take.
- Opportunities.ComplaintLine: a stored severity is taken to be a whole number and rendered with `String(n)`. The analyze step stores `Math.min(5, Math.max(1, severity))` unrounded, so a stored severity such as 3.5, shown as `(severity 3.5)` in the source's prompt, is not represented.
- FetchPmJobs.AfterPageDeduped: for the step as written, distinct ids are promised only for a page that lists no id twice. FetchPmJobs.PageAsWrittenGathersRepeats shows a page that breaks it.
- FetchPmJobs.PageLoopDeduped: for the loop as written, distinct ids are promised only when no Muse page lists an id twice.
- FetchPmJobs.LevelsDeduped: for the level loops as written, distinct ids are promised only when no Muse page lists an id twice.
- FetchPmJobs.PmJobsFacts: for the step as written, distinct gathered ids and distinct job-row ids are promised only when no Muse page lists an id twice. Otherwise the duplicate job rows reach the `pm_jobs` upsert, whose outcome is the `jobUpsert` parameter.
- FetchPmJobs.Kept: the six-month cut-off `new Date(publication_date) < sixMonthsAgo` is the `recent` parameter, because it depends on the clock.
- FetchPmJobs.FetchPmJobs: `new Date().toISOString()` is the `now` parameter, and today's date is its part before `T`.
- Aggregate.Aggregate: `completedAt` is the `now` parameter.
- FetchPmJobs.PageLoopPauses: the pauses are kept in their own list of durations, not interleaved with the requests in one trace.
- Aggregate.SortByCount: `Array.prototype.sort` is stable, and the model's insertion sort is stable by construction. Stability is not stated as a separate lemma.
- AnalyzeComplaints.Analyze: the start of "today" used to select reviews is part of the reviews query, which is an input.
- The other context files of the repository are not part of this model: the entry points in agent/index.ts and agent/pm-jobs.ts, the dashboard pages and API routes, agent/steps/fetchApps.ts and the database migration.

## Findings

| source | as written | input that shows it | evidently intended | confidence | as-written member | corrected member |
|---|---|---|---|---|---|---|
| agent/steps/fetchPMJobs.ts:82-84 | the page's jobs are filtered against `seenIds` as it was before the page, and only then are their ids added to it, so a job listed twice on one page is kept twice | a page whose results list the same new job id twice | each job id is gathered once; the duplicates would also reach the `pm_jobs` upsert on `id`, which rejects a batch that names a row twice | not executed | FetchPmJobs.FreshAsWrittenKeepsRepeats | FetchPmJobs.FreshSpec |
