# jobhunter search pipeline, modelled in Dafny

This project models the server side of jobhunter. The app searches a handful of
curated remote-job boards and one broad "discovery" query for UX research
roles. Its pipeline has these steps:

- each source is fetched through the Firecrawl search API, with one retry after
  a 429 and a distinct error for 402 (credits exhausted);
- the settled per-source outcomes are folded into succeeded and failed lists,
  a discovery flag and a credits flag;
- every raw result is normalised into a job listing or dropped with a reason
  code; the date rule depends on the trust tier (curated or discovery);
- listings are de-duplicated, first by canonical URL, then by the groups a
  language model returns, falling back to the URL pass when the model's reply
  cannot be used;
- the remote scope of each listing is classified, first by restriction
  patterns, then by the model's verdicts for the undecided ones;
- the search route picks the reply: 402 when credits ran out with nothing
  found, 502 when every source failed, otherwise 200 with the listings sorted
  newest first;
- on the client, the listings are filtered by a date window and sorted by date
  or company, and the list of boards they came from is built.

It also models the request-scoped pipeline log and the query builder.

One Dafny module stands for each source file:

| file | module |
|---|---|
| lib/normalise.ts | Normalise |
| lib/date-utils.ts | DateUtils |
| lib/dedup.ts | Dedup |
| lib/remote-scope.ts | RemoteScope |
| lib/firecrawl.ts | Firecrawl |
| app/api/search/route.ts | SearchRoute |
| lib/filters.ts | Filters |
| lib/logger.ts | Logger |
| lib/boards.ts | Boards |

Supporting modules:

- Jobs holds the record shapes of types/job.ts.
- Basics holds Option/Result and string and decimal helpers.
- Host holds the host environment: an abstract regular-expression engine, and a
  clock and calendar.
- Sorting holds the stable sort that `Array.prototype.sort` performs.

## How the host is modelled

Nothing outside the code is decided by the model; everything the host
supplies is an input.

- **Regular expressions.** Each pattern list keeps its literal patterns, in
  order, as values. An `Engine` decides what a pattern matches. The model
  verifies the order in which patterns are tried, what the first match
  decides, and what happens when none matches. The simple text operations
  are written out exactly:
  - the title clean-up in `cleanTitle`;
  - the title split in `extractCompany`;
  - the URL slug;
  - the dedup key;
  - title-casing.
- **Time.** A Date is a time value in integer milliseconds, or the invalid
  date.
  - Out-of-range values become invalid, as TimeClip makes them.
  - `new Date()`, `new Date(text)`, the month arithmetic of `setMonth` and
    `toLocaleDateString` come from a `Clock`. There is one `now` per request.
  - Minutes, hours, days and weeks are fixed numbers of milliseconds.
  - `datePosted` (an ISO date string in the source) is a day number: the
    posting time divided by 86 400 000, rounded down.
- **Objects the source mutates.** `PipelineLogger` and the JavaScript `Date`
  that `parseJobDate`, `isWithinRecencyWindow` and `applyFilters` move back
  in place are classes (`Logger.PipelineLogger`, `DateUtils.JsDate`). Loops
  that update variables are methods with loop invariants. Each method is
  proved equal to a specification function, and the properties are proved
  about that function.
- **Outside calls.** HTTP replies, the language model's decoded replies and
  the elapsed time are parameters.
  - A reply has explicit failure cases (`HttpReply.NetworkError`,
    `DedupFailed`, `ClassifyFailed`).
  - Ill-typed JSON fields are optional fields.
  - JSON numbers are `real`.

Behaviour of the code that the model keeps:

- **Merge order.** `Promise.all` keeps input order, so the settled outcomes
  are merged in board order, then discovery (lib/firecrawl.ts:165).
- **Scope text.** The scope text the model returns is copied without a
  check (lib/remote-scope.ts:75). A listing can therefore end with a scope
  other than global, restricted or unknown; the model calls it `Unlisted`.
- **Partial classification.** A null verdict throws mid-loop, and the
  verdicts applied before it are kept (lib/remote-scope.ts:71-84).
- **When the model pass runs.** The route deduplicates when more than one
  raw listing was gathered (app/api/search/route.ts:71). `deduplicateJobs`
  then always calls the model, however many listings survive the URL pass
  (lib/dedup.ts:75-99).
- **Empty error message.** A source that fails with an empty error message
  counts as a success, because `if (result.error)` is false for ""
  (lib/firecrawl.ts:174).
- **Shared log.** The per-source searches log into the same logger that
  POST flushes, so a success's development log starts with their records
  (lib/firecrawl.ts:36-160, lib/normalise.ts:293).

## Model

| member | source | states |
|---|---|---|
| Normalise.ToInt32 | lib/normalise.ts:11 | `hash \|= 0` gives the signed 32-bit value congruent to its argument modulo 2^32 |
| Normalise.HashStepPolynomial | lib/normalise.ts:10-11 | one loop step computes 31·hash + code, wrapped to signed 32 bits |
| Normalise.HashValue | lib/normalise.ts:7-12 | the folded hash always lies in the signed 32-bit range |
| Normalise.HashUrl | lib/normalise.ts:6-14 | the loop over the character codes yields the base-36 digits of the absolute value of the polynomial hash |
| Normalise.UrlIdFacts | lib/normalise.ts:6-14 | appending a character extends the hash by one polynomial step; the id has 1 to 6 base-36 digits that read back as the absolute value of the hash |
| Normalise.UrlIdDistinguishes | lib/normalise.ts:6-14 | two URLs share an id exactly when their hashes have the same absolute value |
| Normalise.StripHiringTag | lib/normalise.ts:19 | removing the "[hiring]" tag leaves a suffix of the title |
| Normalise.StripBoardSuffix | lib/normalise.ts:20-23 | removing a board suffix leaves a prefix of the title |
| Normalise.StripBoardSuffixRemoves | lib/normalise.ts:20-23 | "core - Name" or "core \| Name", with the board name in any case, becomes exactly "core" |
| Normalise.CleanTitle | lib/normalise.ts:17-25 | the cleaned title is a contiguous piece of the original and carries no surrounding white space |
| Normalise.LastSegment | lib/normalise.ts:50 | the slug is the suffix after the last "/" (the whole URL when there is none) and holds no "/" |
| Normalise.RelevanceFromSlug | lib/normalise.ts:47-53 | a relevance keyword that matches the title joined with the dash-to-space slug makes the result relevant, even if it matches only in the slug |
| Normalise.JunkReason | lib/normalise.ts:87-95 | no junk reason exactly when no junk-URL pattern matches the URL and no junk-title pattern matches the title |
| Normalise.JunkUrlFirst | lib/normalise.ts:88-90 | the first junk-URL pattern that matches names the reason "junk_url:<pattern>" |
| Normalise.JunkTitleNext | lib/normalise.ts:91-93 | with no URL pattern matching, the first matching title pattern names "junk_title:<pattern>" |
| Normalise.JunkReasonNamed | lib/normalise.ts:89-92 | every junk reason starts with "junk_url:" or "junk_title:" |
| Normalise.IsJunkResult | lib/normalise.ts:87-95 | the two early-return loops compute the junk verdict |
| Normalise.SplitOnSeparators | lib/normalise.ts:110 | splitting gives one more piece than there are separators, and no piece holds a separator |
| Normalise.CompanyFromSegments | lib/normalise.ts:109-128 | a segment-derived company is non-empty, under 50 characters and trimmed, and the title has at least two segments |
| Normalise.TitleCase | lib/normalise.ts:134 | `\b\w` upper-casing keeps the length, changes only the case of word-initial characters, and leaves every other character as it was |
| Normalise.CompanyPriority | lib/normalise.ts:98-136 | the company is given by the first of the rules (@Company, "at Company", 2nd/3rd segment, Remotive slug) that yields a name |
| Normalise.CompanyUnknown | lib/normalise.ts:137 | when no rule yields a name the company is "Unknown" |
| Normalise.DateSources | lib/normalise.ts:141-172 | there are exactly five date sources, in priority order |
| Normalise.ExtractDate | lib/normalise.ts:141-175 | null exactly when no source yields a date; otherwise the date of the first source that yields one |
| Normalise.MetadataDateWins | lib/normalise.ts:143-146 | a metadata date that parses wins over anything in the page text |
| Normalise.TopContentFallback | lib/normalise.ts:165-172 | without metadata or a context match, the date is the relative phrase found in the first 500 characters only |
| Normalise.ExtractSalary | lib/normalise.ts:178-195 | a salary range wins when there is one; null exactly when neither the range nor the qualified pattern matches |
| Normalise.NormaliseResult | lib/normalise.ts:198-271 | drops in order no_url, then the junk reason, then title_irrelevant; every kept listing has the URL's id, the input url, board and layer, location "Remote", isRemote, scope unknown, no countries and a trimmed title |
| Normalise.TierRules | lib/normalise.ts:218-251 | curated: no date is kept as today; discovery: no date is "no_date"; an extracted date outside the window is "too_old" in both tiers; a kept listing is posted on the extracted day |
| Normalise.DropReasonsKnown | lib/normalise.ts:203-251 | every drop reason is no_url, a junk reason, title_irrelevant, too_old or no_date |
| Normalise.KeptPlusDropped | lib/normalise.ts:283-291 | each result is either kept or counted as one drop |
| Normalise.BumpKeys | lib/normalise.ts:289 | a reason seen before keeps its place in the count record; a new reason goes at the end |
| Normalise.BumpCounts | lib/normalise.ts:289 | bumping a reason adds one to its count and to the total, and leaves the other counts alone |
| Normalise.TallyCounts | lib/normalise.ts:281-290 | the counts add up to the number of drops, each reason is counted as often as it occurs, each occurring reason has exactly one key, and no other key exists |
| Normalise.TallyOrder | lib/normalise.ts:289 | the keys of the count record are in order of first occurrence |
| Normalise.DroppedCountMatchesReasons | lib/normalise.ts:283-297 | the drop counts sum to results.length − jobs.length |
| Normalise.CollectOutcomes | lib/normalise.ts:280-291 | the loop keeps the accepted listings in input order and builds the count record of the drop reasons ("unknown" for an empty one) |
| Normalise.NormaliseResults | lib/normalise.ts:274-303 | the kept listings of the batch in input order; the log gains exactly one normalise_drops record, holding droppedCount and the counts, when there were drops and a logger was given |
| DateUtils.UnitOf | lib/date-utils.ts:18-27 | m, h, d, w mean minute, hour, day, week ("m" is minutes, never months); "month" is months; anything else selects no case |
| DateUtils.JsDate.constructor | lib/date-utils.ts:16 | `new Date()` holds the given instant |
| DateUtils.JsDate.MoveBack | lib/date-utils.ts:27-42 | moving a Date back sets it to the instant the given number of units earlier; an invalid Date stays invalid |
| DateUtils.JobDate | lib/date-utils.ts:4-59 | an empty text gives null; an invalid date is produced only by a relative phrase or by "yesterday" outside the Date range |
| DateUtils.MatchRelativePhrase | lib/date-utils.ts:10-44 | the relative branch, with a fresh Date moved back in place, computes the relative date |
| DateUtils.ParseJobDate | lib/date-utils.ts:4-59 | parseJobDate as run, with its Date objects, equals JobDate |
| DateUtils.RelativePhraseMeaning | lib/date-utils.ts:10-43 | "N unit ago" is N units before now, in the unit the captured word selects |
| DateUtils.WeekIsSevenDays | lib/date-utils.ts:37-38 | N weeks back is 7·N days back |
| DateUtils.TodayAndYesterday | lib/date-utils.ts:47-52 | a relative phrase wins; otherwise "today" is now and "yesterday" is now minus one day |
| DateUtils.FallbackParse | lib/date-utils.ts:55-58 | any other text is the host's parse, and null when that is invalid |
| DateUtils.IsWithinRecencyWindow | lib/date-utils.ts:62-69 | the cutoff Date moved back in place gives the recency test |
| DateUtils.RecencyBoundary | lib/date-utils.ts:62-69 | recent exactly when the date is valid and ≥ now − days, inclusive |
| DateUtils.RecencyMonotone | lib/date-utils.ts:62-69 | a wider window keeps everything a narrower one keeps |
| DateUtils.RelativeLabels | lib/date-utils.ts:72-88 | invalid gives "Unknown"; ≤ 0 days "Today"; 1 "Yesterday"; 2–6 "<n>d ago"; 7–29 "<⌊n/7⌋>w ago"; later the host's short date; the number in a label reads back as the days or weeks |
| DateUtils.ElapsedDayBounds | lib/date-utils.ts:77-83 | under a day elapsed is day 0 or less, one to two days is day 1, a week or more is at least 7 |
| Dedup.Keys | lib/dedup.ts:20 | one key per listing |
| Dedup.UrlUniqueSelects | lib/dedup.ts:18-24 | the URL pass keeps exactly the first listing of each key, as a subsequence in input order |
| Dedup.UrlUniqueDistinctKeys | lib/dedup.ts:20-23 | no two survivors share a key (trailing "/" removed, lower-cased) |
| Dedup.UrlUniqueCoversKeys | lib/dedup.ts:19-24 | every key of the input survives: only duplicates are dropped |
| Dedup.FirstOfEachSubset | lib/dedup.ts:19-24 | the survivors are drawn from the input |
| Dedup.UrlDedup | lib/dedup.ts:14-26 | the pass with the `seen` set keeps the first of each key, and removed = input length − survivor length |
| Dedup.DiscardSetMembers | lib/dedup.ts:53-68 | a number is in the discard set exactly when some group that is not skipped lists it as a number in [0, n) other than its keep |
| Dedup.GroupDiscardsMembers | lib/dedup.ts:63-67 | the entries one group adds are its numbers in [0, n) other than its keep |
| Dedup.UndiscardedLength | lib/dedup.ts:70 | the filter removes exactly the positions the set names |
| Dedup.UndiscardedSubset | lib/dedup.ts:70 | the filter keeps only input listings |
| Dedup.KeepCanBeDiscarded | lib/dedup.ts:54-70 | one group's keep can be another group's discard: two crossing groups remove both copies |
| Dedup.FractionalDiscardOvercounts | lib/dedup.ts:63-71 | as written, a discard entry 0.5 is counted in `removed` but removes no listing |
| Dedup.LlmDedup | lib/dedup.ts:29-72 | fails exactly when the reply failed, `groups` is not an array or holds a null; otherwise keeps the listings whose positions are not in the discard set, in order, and removed equals the drop in length |
| Dedup.Deduplicated | lib/dedup.ts:75-99 | any model failure gives exactly the URL-pass result with "url_only"; success gives "llm" and the model filter applied to the URL survivors; duplicatesRemoved is the drop in length; the output is drawn from the input |
| Dedup.DeduplicateJobs | lib/dedup.ts:75-99 | the try/catch composition of the two passes equals Deduplicated |
| RemoteScope.HeuristicVerdict | lib/remote-scope.ts:18-24 | "country_restricted" exactly when some restriction pattern matches title + location + description; otherwise undecided |
| RemoteScope.HeuristicScope | lib/remote-scope.ts:18-24 | the early-return loop computes the verdict |
| RemoteScope.HeuristicPass | lib/remote-scope.ts:55-58 | the pattern pass keeps the list's length |
| RemoteScope.PendingJobs | lib/remote-scope.ts:59-64 | the queue holds undecided listings only, with their own title and description, by strictly increasing index |
| RemoteScope.PendingComplete | lib/remote-scope.ts:55-66 | every undecided listing is in the queue |
| RemoteScope.ScopeValue | lib/remote-scope.ts:75 | "global", "country_restricted" and "unknown" map to their scopes; any other text is copied as it came |
| RemoteScope.Target | lib/remote-scope.ts:73-78 | a numeric index writes to an element exactly when it is a whole number in [0, n); a string index exactly when it is the decimal form (no leading zero) of a number below n, and then to that element |
| RemoteScope.IndexKeyRoundTrip | lib/remote-scope.ts:74 | a string that names an array element is the decimal form of the position it names |
| RemoteScope.TextIndexWrites | lib/remote-scope.ts:73-78 | for every position k < n, the index k and the string of its decimal digits both write to element k |
| RemoteScope.Classify | lib/remote-scope.ts:74-78 | a verdict sets the scope and the countries (none when missing) and nothing else |
| RemoteScope.ApplyItem | lib/remote-scope.ts:72-79 | one verdict keeps the list's length |
| RemoteScope.ApplyAll | lib/remote-scope.ts:71-80 | the verdicts applied in order keep the list's length |
| RemoteScope.FirstNull | lib/remote-scope.ts:71-73 | the verdicts before the first null are all objects, and the one there is null |
| RemoteScope.Classified | lib/remote-scope.ts:48-88 | the classifier's output has the input's length |
| RemoteScope.PatternPass | lib/remote-scope.ts:54-66 | the first loop produces the pattern-pass list and the queue |
| RemoteScope.ApplyVerdicts | lib/remote-scope.ts:71-80 | the second loop applies the verdicts in order up to the first null |
| RemoteScope.ClassifyRemoteScope | lib/remote-scope.ts:48-88 | classifyRemoteScope as run equals Classified; the model is asked exactly when the queue is non-empty, and with that queue |
| RemoteScope.ApplyAllKeepsOthers | lib/remote-scope.ts:73-78 | verdicts change only the scope and the countries |
| RemoteScope.ApplyAllUntouched | lib/remote-scope.ts:71-80 | a listing no verdict targets keeps what it had |
| RemoteScope.ApplyAllLastWins | lib/remote-scope.ts:71-80 | the last verdict that targets a listing decides it |
| RemoteScope.ClassifyOnlyTouchesScope | lib/remote-scope.ts:51-78 | the classifier changes nothing of a listing but its scope and countries |
| RemoteScope.PatternHitStands | lib/remote-scope.ts:56-58 | a pattern hit gets only scope country_restricted, with its countries kept, unless a verdict names it |
| RemoteScope.VerdictDecides | lib/remote-scope.ts:72-79 | once the model is asked, a verdict overrides the pattern pass, whether or not the listing was queued |
| RemoteScope.NullEndsThePass | lib/remote-scope.ts:71-84 | a null verdict ends the pass; the verdicts before it stay applied |
| RemoteScope.FailureKeepsPatternPass | lib/remote-scope.ts:68-84 | if the model fails, or is not asked, the result is the pattern-pass list |
| RemoteScope.NotAskedMeansAllMatched | lib/remote-scope.ts:59-69 | the model is not asked only when every listing matched a pattern |
| Firecrawl.ExtractResults | lib/firecrawl.ts:9-13 | `data.web` if it is non-empty, else `results`, else nothing |
| Firecrawl.EnvelopeShapes | lib/firecrawl.ts:9-13 | both envelopes are read; an empty or missing `data.web` never hides `results` |
| Firecrawl.FirecrawlSearch | lib/firecrawl.ts:16-96 | the request as run: its outcome, its number of fetches, and the records it logs |
| Firecrawl.MissingKeyFetchesNothing | lib/firecrawl.ts:22-23 | without a key it throws before any fetch, and logs nothing |
| Firecrawl.OneRetryAtMost | lib/firecrawl.ts:50-59 | at most two fetches, two exactly after a 429; a second 429 ends as "Firecrawl 429" |
| Firecrawl.StatusPolicy | lib/firecrawl.ts:58-70 | after the retry, 402 is CREDITS_EXHAUSTED, any other non-OK status is "Firecrawl <status>", and an OK JSON body gives the extracted results |
| Firecrawl.SearchAllBoards | lib/firecrawl.ts:126-192 | the loop over the settled outcomes equals the fold, and one aggregate record follows |
| Firecrawl.EachSourceOnce | lib/firecrawl.ts:167-185 | each source lands in exactly one place: one failed entry per error, one succeeded entry per other board success, and discovery only sets the flag |
| Firecrawl.PlaceOfSource | lib/firecrawl.ts:167-185 | a source with an error is listed failed; a board without one succeeded; discovery without one sets the flag |
| Firecrawl.CreditsFlag | lib/firecrawl.ts:168-172 | the credits flag is set exactly when some source failed with CREDITS_EXHAUSTED |
| Firecrawl.DiscoveryNeverListed | lib/firecrawl.ts:179-183 | "Discovery" is never among the succeeded boards |
| Firecrawl.ResultsOfSuccesses | lib/firecrawl.ts:167-185 | the gathered listings are the successful sources' listings concatenated in settled order |
| Firecrawl.AllFailedMeansEveryError | lib/firecrawl.ts:167-185 | nothing succeeded and no discovery exactly when every source reported an error |
| Logger.PipelineLogger.constructor | lib/logger.ts:19 | a new logger has no records |
| Logger.PipelineLogger.Log | lib/logger.ts:21-22 | appends exactly the entry and keeps the earlier ones |
| Logger.PipelineLogger.Flush | lib/logger.ts:43-45 | returns the records in call order and does not clear them |
| Logger.FlushTwice | lib/logger.ts:43-45 | two flushes with no log between return equal lists; a later log does not alter an earlier flush |
| Logger.Prefix | lib/logger.ts:25 | "[stage:board]" when a board is given, else "[stage]" |
| Logger.DetailSlots | lib/logger.ts:26-34 | exactly seven detail slots |
| Logger.Details | lib/logger.ts:26-34 | as many details as there are present fields, at most seven |
| Logger.DetailOrder | lib/logger.ts:26-34 | for any record and any two present fields, each field's detail stands at the position of its field among the present ones, so the earlier field's detail comes first (query, raw, normalised, dropped, reasons, duration, error) |
| Logger.QueryDetail | lib/logger.ts:28 | a query detail shows at most its first 100 characters, then "..." |
| Logger.BareStageLine | lib/logger.ts:25-36 | a record with only a stage prints "[stage] " |
| Logger.ConsoleLine | lib/logger.ts:36 | the console line starts with the prefix and a space |
| Logger.JsonRecord | lib/logger.ts:32 | the reasons record is printed as a JSON object in braces |
| Logger.JsonString | lib/logger.ts:32 | a JSON string literal is quoted, and a key needing no escapes is copied as it is |
| Boards.OrGroup | lib/boards.ts:4-5 | a keyword group is parenthesised |
| Boards.Site | lib/boards.ts:7-37 | a site scope is "site:" followed by the host and path |
| Boards.BoardsWellFormed | lib/boards.ts:7-37 | five boards with distinct names, all curated, each siteQuery beginning with "site:" |
| Boards.BuildBoardQuery | lib/boards.ts:40-42 | the query is siteQuery + " " + UX_KEYWORDS + " remote" |
| Boards.BoardQueryInjective | lib/boards.ts:40-42 | different site scopes give different queries |
| Boards.BuildDiscoveryQuery | lib/boards.ts:45-47 | the discovery query has no "site:" scoping, starts with the keyword group and ends in " jobs" |
| Boards.DiscoveryIsNotABoardQuery | lib/boards.ts:40-47 | no board query equals the discovery query |
| Sorting.Insert | lib/filters.ts:32-39 | inserting keeps every element |
| Sorting.SortBy | lib/filters.ts:32-39 | the sort returns a permutation of its input |
| Sorting.InsertSorted | lib/filters.ts:32-39 | under a total preorder, inserting into a sorted list keeps it sorted |
| Sorting.SortBySorted | lib/filters.ts:32-39 | under a total preorder, the sort's result is ordered by the comparator |
| Sorting.SortByKeepsSorted | app/api/search/route.ts:92-95 | a list already in order is returned as it is |
| Sorting.InsertTies | lib/filters.ts:32-39 | inserting an element puts it after every element it is tied with and keeps every tie class in order |
| Sorting.SortByStable | lib/filters.ts:32-39 | the sort is stable: under a total preorder, the elements tied with any one element keep their input order |
| Filters.Days | lib/filters.ts:25 | a date range is 7 or 14 days |
| Filters.KeepFrom | lib/filters.ts:28 | keeps exactly the listings whose day is at or after the cutoff, each as often as given |
| Filters.KeepRecent | lib/filters.ts:24-29 | the cutoff Date moved back in place gives the window filter |
| Filters.ApplyFilters | lib/filters.ts:17-42 | applyFilters as run, on a copy, equals the window followed by the stable sort by the chosen key |
| Filters.DateWindow | lib/filters.ts:24-29 | with a window, exactly the listings within it are kept, with multiplicity; without one, a permutation of all |
| Filters.WindowByDay | lib/filters.ts:26-28 | a listing is within the window exactly when its day's midnight is ≥ now − days |
| Filters.NewestFirstByDay | lib/filters.ts:32-36 | between valid days, the date comparator puts the later day first |
| Filters.NewestFirstPreorder | lib/filters.ts:32-36 | the date comparator is a total preorder on valid days |
| Filters.CompanyOrderPreorder | lib/filters.ts:37-38 | a valid collation makes the company comparator a total preorder |
| Filters.NewestFirstSorted | lib/filters.ts:32-36 | sorting by date gives non-increasing posting days |
| Filters.TiesAreSameDay | lib/filters.ts:32-36 | on valid days, the date comparator ties exactly the listings posted on the same day |
| Filters.SameDayKeepsOrder | lib/filters.ts:32-36 | sorting newest first keeps the listings of each day in their input order |
| Filters.FilteredSorted | lib/filters.ts:32-39 | "date" orders newest first; "company" orders by the collation ascending |
| Filters.ScopeAndBoardIgnored | lib/filters.ts:17-42 | the scope and board choices never change the result |
| Filters.DefaultKeepsAll | lib/filters.ts:10-42 | the default filters keep every listing and sort newest first |
| Filters.CodeUnitTotal | lib/filters.ts:46 | the default string order compares any two names |
| Filters.CodeUnitTransitive | lib/filters.ts:46 | the default string order is transitive |
| Filters.CodeUnitAntisymmetric | lib/filters.ts:46 | names each ≤ the other are equal |
| Filters.CodeUnitPreorder | lib/filters.ts:46 | the default string order is a total preorder on any list |
| Filters.Distinct | lib/filters.ts:46 | `[...new Set(names)]` has the same members, each once |
| Filters.Boards | lib/filters.ts:46 | the board names of the listings, position by position |
| Filters.AvailableBoardsSpec | lib/filters.ts:45-47 | each board some listing came from appears exactly once, no other name appears, and the names strictly ascend |
| SearchRoute.Post | app/api/search/route.ts:9-123 | POST as run: the reply for the settled outcomes; the development log on success is the per-source records, then aggregate, post_scrape, the dedup record when there was more than one listing, then complete; dedup runs exactly on success with more than one gathered listing; classification runs exactly on success with a non-empty list |
| SearchRoute.Respond | app/api/search/route.ts:22-123 | from a log holding the per-source, aggregate and post_scrape records: the credits reply first, then the total-failure reply, then success, with the same log and gating facts |
| SearchRoute.Succeed | app/api/search/route.ts:66-117 | the success reply and its dedup and complete records |
| SearchRoute.DedupStep | app/api/search/route.ts:66-83 | deduplicates only more than one listing, logging the dedup record then; otherwise removes 0 with "url_only" |
| SearchRoute.ClassifyStep | app/api/search/route.ts:85-89 | classifies only a non-empty list, and keeps its length |
| SearchRoute.CreditsErrorFirst | app/api/search/route.ts:23-42 | credits exhausted with zero listings gives 402 CREDITS_EXHAUSTED, success false, no results, boardsSearched 6, echoed board lists and no discovery, whatever else failed |
| SearchRoute.CreditsWithNothingFound | app/api/search/route.ts:23 | that case arises exactly when some source failed with CREDITS_EXHAUSTED and the successful sources brought nothing |
| SearchRoute.AllFailedError | app/api/search/route.ts:45-64 | without a credits failure, 502 ALL_BOARDS_FAILED exactly when every source failed, with no succeeded board and every source listed failed |
| SearchRoute.ReplyKinds | app/api/search/route.ts:9-149 | every reply is 200, 402 or 502 and never the 500 one; success ⇔ 200 ⇔ no error; boardsSearched is BOARDS.length + 1; totalResults is the number of results; the board lists and discovery flag are echoed |
| SearchRoute.DuplicatesCount | app/api/search/route.ts:66-83 | duplicatesRemoved is the drop from gathered to returned listings; "llm" exactly when more than one was gathered and the model's reply was usable; 0 with at most one |
| SearchRoute.ListingsFromSources | app/api/search/route.ts:66-95 | every returned listing is a gathered one, with at most its scope and countries changed |
| SearchRoute.NewestFirstReply | app/api/search/route.ts:92-95 | the returned listings are in non-increasing order of posting day |

## Findings

| source | as written | input that shows it | evidently intended | confidence | as-written member | corrected member |
|---|---|---|---|---|---|---|
| lib/dedup.ts:63-71 | a discard entry passes validation if it is a number in [0, n) other than `keep`, and `removed` is `discardSet.size` | two listings and the groups `[{keep: 0, discard: [0.5]}]`: both listings survive, yet `removed` is 1 | `removed` counts the listings actually removed (only whole indices name a listing) | not executed | Dedup.FractionalDiscardOvercounts | Dedup.LlmDedup |

`Dedup.LlmPassAsWritten` is the pass as written. `Dedup.LlmDedup` counts the
positions removed instead, so its `removed` equals the drop in length. This is
proved in its contract and carried into `Dedup.Deduplicated` and
`SearchRoute.DuplicatesCount`.

## Left out

- Network I/O is not modelled: the fetch calls, response body reads, the two-second backoff, lib/openai.ts and api/search.js. HTTP replies and the model's decoded replies are parameters.
- The `Promise.all` fan-out is not modelled. The settled outcomes are a sequence given in settled order.
- The per-source wrappers (`searchBoard` and the discovery task, lib/firecrawl.ts:99-163) are not modelled as operations. Their outcome is the `Settled` record each one ends in. The parts they compose (`FirecrawlSearch`, `NormaliseResults`, `BuildBoardQuery`) are modelled separately.
- `JSON.parse`, the prompts and the payload slicing sent to the model are left out. A parsed payload is a datatype with optional or ill-typed fields, plus a failure case.
- The error texts the model pass throws are not the source's exact texts, since only failure matters to the callers.
- Regular-expression semantics are left out; the engine is abstract.
- Calendar behaviour is left out:
  - daylight-saving shifts (a day is 24 hours);
  - time zones;
  - `setMonth` rollover (taken from the host);
  - `new Date(text)` parsing;
  - `toISOString`, which becomes a day number;
  - `toLocaleDateString`.
- `localeCompare` is an abstract collation, assumed total and transitive where ordering is claimed.
- Console output is left out, except for the line format the logger builds.
- The `sampleResults` field of the response log record is left out, because it only shows a sample.
- Strings are sequences of characters. UTF-16 code units, non-ASCII case mapping and floating-point arithmetic are left out.
- In-place sorting is modelled on values, by the stable insertion sort that ECMAScript 2019 requires. Aliasing of the sorted array is not modelled.
- With an invalid posting date the source's comparator is inconsistent. The model's comparator treats NaN as 0, and no order is claimed then.
- Array writes through a key that names no element (a fraction, or a string such as "00") are modelled as writing to no element. The property they create on the array is not modelled.
- The `catch` clause of POST (the 500 reply) is the constant `SearchRoute.INTERNAL_ERROR_REPLY`. No modelled step throws, so `SearchRoute.ReplyKinds` shows it is never produced. The `fatal_error` log record is left out.
- `_debug` is attached only in development. The model always returns the flushed log on success, as `debug`.
- SearchRoute.NewestFirstReply: stated only for listings whose posting days a Date can hold. Normalisation produces only such days, but that is not proved here.
- Filters.FilteredSorted: the company order is stated only for a collation that is total and transitive, because `localeCompare` is abstract.
- Dedup.LlmDedup: its `removed` is the number of positions removed, not the size of the discard set; see Findings.
- Dedup.Deduplicated: its `duplicatesRemoved` is built on the corrected count of `Dedup.LlmDedup`. With a fractional discard entry the source reports more than the listings removed (see Findings).
- Dedup.DeduplicateJobs: returns the corrected count, as `Dedup.Deduplicated` does.
- SearchRoute.Post: the reply's `duplicatesRemoved` and the dedup record carry the corrected count.
- SearchRoute.Respond: carries the corrected count, as `SearchRoute.Post` does.
- SearchRoute.Succeed: carries the corrected count, as `SearchRoute.Post` does.
- SearchRoute.DedupStep: carries the corrected count, as `SearchRoute.Post` does.
- SearchRoute.DuplicatesCount: "duplicatesRemoved is the drop" holds of the corrected count. With a fractional discard entry the source's count exceeds the drop.
- RemoteScope.Target: an `index` that is a boolean, null, an array or an object is read as absent. Of these, only a one-element array whose text is an element's decimal position (such as `[0]`) would write to that element in the source.
- SearchRoute.Post: the per-source records are an input, in the order they were written, because the per-source searches run concurrently and are not modelled as operations.
