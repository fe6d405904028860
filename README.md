# Grant search aggregation pipeline, modelled in Dafny

This project models the search pipeline of a Spanish public-grant finder.
A search names four facets: sector, location, company type and region. The
aggregator `RealGrantAPI` answers from a cache that keeps each list for
1800 seconds. On a miss it queries its adapters in a fixed order: BOE,
EU Funding, CDTI, IDAE. If any adapter raises, everything gathered so far is
replaced by the empty fallback list. The result is then deduplicated, sorted
newest first, cut to 25 and cached.

- **BOE adapter.** It reads the daily summaries of the Boletín Oficial del
  Estado for 15 days. A relevance keyword gate, a sector filter and a
  location filter decide which items become records. Each record gets a
  region and location tag, a clamped score and a reformatted date. The
  adapter returns at most 10 records.
- **CDTI adapter.** It scrapes three sections of the CDTI site. Links are
  gated by title keywords and deduplicated by URL, and at most 15 per section
  are followed. Each record gets a sector, a company type and an additive
  clamped score; records scoring below 4, or outside the sector, are
  rejected. The results are deduplicated by a 50-character title key, ranked
  by score and cut to 8.
- **Grants service.** It post-processes records with the whole days left
  (never negative), an urgency bucket (7/30/60 days) and counts.
- **Template filters.** Date reprinting, days remaining, integer amount
  regrouping and smart truncation.
- **Results page.** The browser-side location predicates, the region
  matcher, the combined country/region/quick filter, the urgency and source
  filters, and the favourites toggle.

Modules, one per source file where the source has one:

| module | file | models |
|---|---|---|
| `Common` | common.dfy | Python/JavaScript string primitives: `lower`, `in`, `any`, slicing, `rfind`, `replace`, decimal numerals, keyword tables |
| `Dates` | dates.dfy | `strptime` for `%Y-%m-%d` and `%Y%m%d`, `strftime`, `toordinal` |
| `Lists` | lists.dfy | keep-first dedup by key, stable descending sort |
| `Records` | records.dfy | the grant record, source names, the region table |
| `Aggregator` | aggregator.dfy | `scraper/api_client.py` |
| `Boe` | boe.dfy | `scraper/api/boe.py` |
| `Cdti` | cdti.dfy | `scraper/web/cdti.py` |
| `GrantsService` | grants_service.dfy | `services/grants.py` |
| `WebHelpers` | web_helpers.dfy | `utils/web_helpers.py` |
| `ClientFilters` | client_filters.dfy | `static/js/script.js` |

Clocks, the network, HTML parsing and Python's randomised string hash are
parameters of the model. "Now" is an integer: seconds for the cache,
microseconds from midnight of day ordinal 0 for day counts. Adapter calls
are functions returning records or `Raised`. BeautifulSoup's link
extraction is a function from page to anchors. `urljoin` is a `resolve`
parameter. A page's description and amount are a `detail` parameter.
`hash(title)` is a `hashOf` parameter. The aggregator's `cdti` adapter
function is given the whole facet tuple, but `cdti_web.search` is called with
sector, company type and region only (scraper/api_client.py:92); the
adapter receives the location as well, and nothing in the model depends on
whether it ignores it.

The dedup key starts with the record's source (scraper/api_client.py:121-129),
so records from different sources are never merged, even when their
normalised titles agree (`Aggregator.DedupKeySeparatesSources`).

## Model

| member | source | states |
|---|---|---|
| Aggregator.CacheKey | scraper/api_client.py:66 | the key starts with the sector and `_`, and is as long as the four facets plus the three separators |
| Aggregator.CacheKeyInjective | scraper/api_client.py:66 | the `sector_location_company_type_region` key tells facet combinations apart when the first three facets contain no underscore |
| Aggregator.CacheKeyCollision | scraper/api_client.py:66 | facets holding an underscore can share one cache entry (two distinct facet tuples, one key) |
| Aggregator.DedupKey | scraper/api_client.py:121-129 | every dedup key starts with the record's source and `_`; without an identifier longer than 3 characters other than `NO_ID`, the rest of the key holds word characters only |
| Aggregator.DedupKeySeparatesSources | scraper/api_client.py:121-129 | records from two different sources (names without `_`) never share a dedup key |
| Aggregator.DedupKeyIgnoresCase | scraper/api_client.py:124-126 | without an identifier, the key of a record equals the key of its lower-cased-title copy |
| Aggregator.PublicationKeyOrder | scraper/api_client.py:136-141 | the sort key orders records with parseable dates as their calendar dates |
| Aggregator.ProcessResults | scraper/api_client.py:112-146 | the seen-set loop, sort and cut compute first-per-key, stable newest-first, top 25; the facets play no part |
| Aggregator.ProcessedProperties | scraper/api_client.py:116-146 | at most 25 records, a prefix of the stably sorted dedup list, sorted newest first, drawn from the input, pairwise-distinct keys, and every input key present when at most 25 keys occur |
| Aggregator.ProcessedNewestFirst | scraper/api_client.py:136-144 | no record precedes one with a later date; an unparseable date never precedes a date after 1900-01-01 |
| Aggregator.CollectAsWrittenAlwaysFails | scraper/api_client.py:78-101 | as written, the adapter block always ends in the handler with no records, after starting BOE and never CDTI |
| Aggregator.CollectAsWrittenDiscardsBoe | scraper/api_client.py:80-101 | as written, a BOE record found is lost, while the fixed block returns it |
| Aggregator.CollectAsWritten | scraper/api_client.py:78-101 | as written, only the BOE adapter and, when it returns, the EU stub are ever started; the CDTI adapter never is |
| Aggregator.Collect | scraper/api_client.py:78-101 | the adapters start in the order BOE, EU, CDTI, IDAE and stop at the first that raises; every record returned came from the BOE or the CDTI adapter |
| Aggregator.CollectConcatenates | scraper/api_client.py:78-97 | with no adapter raising, the result is BOE then CDTI records (the EU and IDAE stubs give none), all four adapters started in order |
| Aggregator.CollectFallback | scraper/api_client.py:78-101 | the handler runs exactly when an adapter raises and then every gathered record is dropped; a raising BOE stops the block |
| Aggregator.SearchAsWrittenMissIsEmpty | scraper/api_client.py:63-110 | as written, every search the cache does not answer returns `[]` and caches `([], now)` |
| Aggregator.SearchAsWritten | scraper/api_client.py:63-110 | as written, the list returned is the one cached under the search's key afterwards, no key but that one is added, and adapters start exactly when the cache has no fresh entry |
| Aggregator.Search | scraper/api_client.py:63-110 | the list returned is the one cached under the search's key afterwards, no key but that one is added, and adapters start exactly when the cache has no fresh entry |
| Aggregator.SearchHit | scraper/api_client.py:69-74 | a fresh entry is returned unchanged, the cache is untouched and no adapter is started |
| Aggregator.SearchMiss | scraper/api_client.py:76-110 | on a miss the processed result is stored as `(result, now)`, BOE is started first, and no other key changes |
| Aggregator.SearchExpired | scraper/api_client.py:70-72 | an entry 1800 s old or older is not served |
| Aggregator.SearchFallbackCached | scraper/api_client.py:99-107 | when an adapter raises the search returns `[]` and caches it |
| Aggregator.SearchRepeatWithinTimeout | scraper/api_client.py:63-110 | a repeat within 1800 s returns the same list, leaves the cache alone and starts no adapter, whatever the adapters would return |
| Aggregator.RealGrantApi.constructor | scraper/api_client.py:17-61 | the cache starts empty |
| Aggregator.RealGrantApi.SearchGrants | scraper/api_client.py:63-110 | the method's result, new cache and adapter calls are those of the search function |
| Lists.FirstByKeyProperties | scraper/api_client.py:116-133 | keep-first dedup gives a subsequence of the input with distinct keys, the same key set, and every first occurrence |
| Lists.FirstByKeyPrecedence | scraper/api_client.py:131-133 | of two records with one key the earlier stays and the later is dropped |
| Lists.SortDescProperties | scraper/api_client.py:144 | the sort is non-increasing, a permutation, and stable (each key's records keep their order) |
| Lists.SortedDescStableUnique | scraper/api_client.py:144 | those three properties determine the sorted list uniquely |
| Lists.SortDescDistinct | scraper/api_client.py:144 | sorting keeps distinct dedup keys and the same members |
| Dates.Strptime | scraper/api_client.py:138 | a parsed date is a valid calendar date |
| Dates.ParseIsoOfFormat | scraper/api_client.py:138 | parsing a `%Y-%m-%d` rendering gives the date back |
| Dates.ParseCompactOfFormat | scraper/api/boe.py:21 | parsing a `%Y%m%d` rendering gives the date back |
| Dates.FormatCompactOfParse | scraper/api/boe.py:145-146 | an eight-digit string that parses as `%Y%m%d` prints back as itself |
| Dates.OrdinalOrder | scraper/api_client.py:136-144 | day ordinals are in calendar order, and equal exactly for equal dates |
| Boe.SectorRelevance | scraper/api/boe.py:95-114 | `Todos` passes; a table sector needs one of its row's words; any other sector needs its own lower-cased name |
| Boe.LocationRelevance | scraper/api/boe.py:75-93 | each branch of the location filter: Todas, España (EU markers reject, a known region needs its words), UE, a named region, anything else |
| Boe.IsRelevantForSector | scraper/api/boe.py:95-114 | `_is_relevant_for_sector`: `Todos`, or a word of the sector's row (the sector's own lower-cased name outside the table) occurring in the lower-cased title; its cases are proved in `Boe.SectorRelevance` |
| Boe.IsRelevantForLocation | scraper/api/boe.py:75-93 | `_is_relevant_for_location`: the Todas, España, UE, table-region and fallback branches on the lower-cased title; each is proved in `Boe.LocationRelevance` |
| Boe.ExtractRegion | scraper/api/boe.py:125-130 | the first region in table order whose word occurs, else the default |
| Boe.ExtractLocation | scraper/api/boe.py:116-123 | the region tag when any region matches, else `Unión Europea` on an EU marker, else the default |
| Boe.RegionFilterImpliesTag | scraper/api/boe.py:60-92 | a title passing a region filter is tagged with some region of the table, as location and region |
| Boe.RelevanceScore | scraper/api/boe.py:132-141 | the score is 3, 5 or 7, and 7 or 3 exactly when only high or only low words occur |
| Boe.FormatBoeDateDigits | scraper/api/boe.py:143-148 | a parseable `YYYYMMDD` becomes `YYYY-MM-DD` with the same digits; anything else gives today |
| Boe.FormatBoeDateOfStamp | scraper/api/boe.py:143-146 | a summary date reprinted is the ISO form of that day, which the aggregator parses back to it |
| Boe.FormatBoeDate | scraper/api/boe.py:143-148 | a date `strptime` accepts becomes a 10-character ISO date with dashes at positions 4 and 7; anything else gives today's date |
| Boe.ItemGrant | scraper/api/boe.py:51-70 | an item yields a record exactly when it passes the keyword gate, sector and location filters; the record has a title of at most 150 chars prefixing the item's, the BOE source and the reformatted date |
| Boe.ItemGrantDedupKey | scraper/api/boe.py:56-69 | BOE records have no identifier, so the aggregator dedups them by source and normalised truncated title |
| Boe.ItemsGrants | scraper/api/boe.py:49-70 | a subsection's items yield at most as many records as there are items |
| Boe.ItemsGrantsRecords | scraper/api/boe.py:49-70 | every record of a subsection's items is a BOE record for the query, dated with the reformatted summary date |
| Boe.SubsectionsGrantsRecords | scraper/api/boe.py:33-36 | every record of a section's subsections is a BOE record of the day |
| Boe.SectionsGrantsRecords | scraper/api/boe.py:31-36 | every record of a summary's sections is a BOE record of the day |
| Boe.DayGrantsRecords | scraper/api/boe.py:26-36 | every record of one day's summary is a BOE record of that day; an unusable day contributes none |
| Boe.DaysGrantsRecords | scraper/api/boe.py:20-36 | every record collected over the days is a BOE record for the query |
| Boe.DaysGrantsIncludesDay | scraper/api/boe.py:20-40 | a record of any searched day is in the collected list, whatever the other days gave |
| Boe.DaysGrantsSkipsUnavailable | scraper/api/boe.py:26-40 | an unusable day contributes nothing and does not stop the other days |
| Boe.ProcessSubsection | scraper/api/boe.py:45-73 | the item loop computes the subsection's records |
| Boe.ProcessSection | scraper/api/boe.py:31-36 | the subsection loop computes the section's records |
| Boe.ProcessDay | scraper/api/boe.py:26-36 | the section loop computes the day's records |
| Boe.Search | scraper/api/boe.py:15-43 | the first 10 records of the 15 days, newest day first; at most 10, all BOE records |
| Cdti.IsRelevantUrl | scraper/web/cdti.py:178-199 | true iff the title has a relevant keyword and no excluded one |
| Cdti.IsRelevantUrlIgnoresUrl | scraper/web/cdti.py:178-199 | the URL argument never changes the answer |
| Cdti.DetermineSector | scraper/web/cdti.py:302-319 | the first sector in table order with a matching keyword, else Tecnología |
| Cdti.DetermineCompanyType | scraper/web/cdti.py:321-334 | PYME, then Startup, then Grande empresa, then Centro de investigación, else Todos, each iff its words occur and no earlier one's |
| Cdti.Clamp | scraper/web/cdti.py:359 | the clamp keeps values in 1..10 and leaves those already there |
| Cdti.CalculateRelevanceScore | scraper/web/cdti.py:336-359 | the three loops compute 6 + 2·high + medium − 2·low, clamped to 1..10 |
| Cdti.ScoreFloor | scraper/web/cdti.py:336-359 | a score below 4 needs at least two low keywords; with none the score is at least 6 |
| Cdti.UnknownSectorNeedsName | scraper/web/cdti.py:367-381 | a sector outside the table, not Todos and not the record's, needs its lower-cased name in title + description |
| Cdti.IsRelevantGrant | scraper/web/cdti.py:361-387 | `_is_relevant_grant`: a non-empty title, the sector test (name, or a keyword of the small table in title and description) and a score of at least 4; company type and region play no part |
| Cdti.RelevantInOwnSector | scraper/web/cdti.py:361-387 | under `Todos`, or for the grant's own sector, only a non-empty title and a score of at least 4 decide |
| Cdti.FullUrl | scraper/web/cdti.py:152-158 | an `http`-prefixed href is kept, anything else is resolved against the base URL |
| Cdti.Candidate | scraper/web/cdti.py:146-174 | a link an anchor yields has a title of 10 to 200 chars that prefixes the anchor's text, and that text passes the gate |
| Cdti.Candidates | scraper/web/cdti.py:142-174 | every candidate link has a title between 10 and 200 chars that prefixes the text |
| Cdti.FindProgramLinks | scraper/web/cdti.py:124-176 | the seen-URL loop keeps the first link per full URL |
| Cdti.ProgramLinksProperties | scraper/web/cdti.py:140-176 | no URL twice, title bounds, and every candidate URL kept |
| Cdti.Identifier | scraper/web/cdti.py:421-423 | the identifier starts with `CDTI_` and is longer than 3 chars |
| Cdti.ExtractGrant | scraper/web/cdti.py:201-241 | the record keeps the link's title and URL, has the CDTI source, a usable identifier and a score in 1..10 |
| Cdti.ExtractGrantDedupKey | scraper/web/cdti.py:238 | the aggregator dedups CDTI records by source and generated identifier |
| Cdti.AdmittedGrants | scraper/web/cdti.py:104-109 | no more grants are admitted than there are links |
| Cdti.AdmittedGrantRelevant | scraper/web/cdti.py:104-109 | an admitted grant passes `_is_relevant_grant` |
| Cdti.AdmittedGrantOrigin | scraper/web/cdti.py:104-109 | an admitted grant is the extraction of one of the links |
| Cdti.AdmittedGrantsRecords | scraper/web/cdti.py:104-109 | admitted grants pass `_is_relevant_grant` and carry the CDTI source, a usable identifier and a score of at most 10; with short link titles they are CDTI records |
| Cdti.SectionGrants | scraper/web/cdti.py:80-122 | a section yields at most 15 records, all admitted CDTI records |
| Cdti.AdmitLinks | scraper/web/cdti.py:104-117 | the link loop computes the admitted grants |
| Cdti.ScrapeSection | scraper/web/cdti.py:80-122 | the method computes the section's records |
| Cdti.ProcessResults | scraper/web/cdti.py:389-408 | the dict loop, sort and cut compute first-per-title-key, stable by score, top 8 |
| Cdti.ProcessedProperties | scraper/web/cdti.py:389-408 | at most 8, sorted by score, drawn from the input, distinct title keys |
| Cdti.ProcessedKeepsBest | scraper/web/cdti.py:404-408 | a deduplicated grant left out never outscores one kept |
| Cdti.TitleKey | scraper/web/cdti.py:397 | the title key: characters other than word characters and spaces removed, lower-cased, the first 50 |
| Cdti.TitleKeyBound | scraper/web/cdti.py:397 | a title key is at most 50 characters and never longer than the title |
| Cdti.SectionsGrants | scraper/web/cdti.py:56-68 | every record of the sections is an admitted CDTI record |
| Cdti.ScrapeSections | scraper/web/cdti.py:56-68 | the section loop concatenates the sections' records in order |
| Cdti.Search | scraper/web/cdti.py:43-78 | the method computes the adapter's result |
| Cdti.SearchResultProperties | scraper/web/cdti.py:43-78 | at most 8 admitted CDTI records; none without BeautifulSoup |
| GrantsService.DaysRemaining | services/grants.py:13-18 | never negative; 0 on an unparseable deadline and on a deadline whose midnight has passed; positive exactly when at least one whole day is left, and then the number of whole days to the deadline's midnight |
| GrantsService.DaysRemainingShrinks | services/grants.py:13-18 | a later clock never gives more days |
| GrantsService.UrgencyOf | services/grants.py:20-27 | the bucket is critical exactly up to 7 days and low exactly beyond 60 |
| GrantsService.UrgencyMonotone | services/grants.py:20-27 | fewer days never mean a less pressing bucket; thresholds 7, 30 and 60 inclusive |
| GrantsService.Annotate | services/grants.py:13-27 | the grant is unchanged, days are non-negative and the urgency matches them |
| GrantsService.ActiveCount | services/grants.py:38 | the active count is at most the total |
| GrantsService.UrgentCount | services/grants.py:39 | the urgent count is at most the total |
| GrantsService.InactiveAreUrgent | services/grants.py:16-39 | total minus active is at most urgent |
| GrantsService.StatsBounds | services/grants.py:34-41 | active ≤ total, urgent ≤ total, total − active ≤ urgent |
| GrantsService.ProcessGrantsData | services/grants.py:4-43 | same length and order, each element the grant with its days and urgency, and the counts of the output |
| WebHelpers.DatetimeFilter | utils/web_helpers.py:11-16 | a datetime prints day first; an unparseable string or other value comes back unchanged |
| WebHelpers.DatetimeFilterOfIso | utils/web_helpers.py:11-16 | `YYYY-MM-DD` becomes `DD/MM/YYYY` of the same date |
| WebHelpers.DatetimeFilterDigits | utils/web_helpers.py:11-16 | the reprint starts with the day and ends with the year |
| WebHelpers.DaysRemainingFilter | utils/web_helpers.py:18-24 | never negative; 0 on a parse failure or a value without dates; on a string the grants service's count; on a datetime 0 once it has passed, positive exactly when a whole day is left, and then the whole days to it |
| WebHelpers.DaysRemainingFilterAgrees | utils/web_helpers.py:18-24 | on strings it equals the grants service's count |
| WebHelpers.DaysRemainingFilterMidnight | utils/web_helpers.py:18-24 | a midnight datetime counts as its printed date |
| WebHelpers.FirstNumber | utils/web_helpers.py:28-29 | no match iff the text has no `[\d.,]`; a match is the first maximal run: it starts at the first amount character, holds only amount characters, and ends at the text's end or before a non-amount character |
| WebHelpers.FirstRunUnique | utils/web_helpers.py:28-29 | two first maximal runs of one text start at the same place and are equal, so the match is determined |
| WebHelpers.Group3RoundTrip | utils/web_helpers.py:32 | grouping only inserts spaces, one per three digits |
| WebHelpers.FormatAmount | utils/web_helpers.py:26-36 | non-strings and strings without a number come back unchanged |
| WebHelpers.FormatAmountLongNumber | utils/web_helpers.py:32-36 | a first number of more than 4300 digits makes `int()` raise, and the text comes back unchanged |
| WebHelpers.FormatAmountLongExample | utils/web_helpers.py:32-36 | 4301 ones come back unchanged |
| WebHelpers.FormatAmountShortNumber | utils/web_helpers.py:29-33 | a number of at most three digits without a leading zero leaves the text unchanged |
| WebHelpers.FormatAmountKeepsValue | utils/web_helpers.py:29-33 | in the integer branch, for a numeral within `int()`'s 4300-digit limit, every copy of the run is replaced by the grouped numeral carrying the same value |
| WebHelpers.TruncateSmart | utils/web_helpers.py:38-44 | empty or short text unchanged; otherwise a prefix of the text plus `...`, at most `length + 3` long |
| WebHelpers.TruncateSmartCut | utils/web_helpers.py:42-44 | the cut is at the last space beyond 80 % of `length`, or at `length` when there is none |
| ClientFilters.IsSpanishLocation | static/js/script.js:234-245 | `isSpanishLocation`: a Spanish keyword in the lower-cased location, or exactly `España` or `Todas`; `ClientFilters.SpanishLocationByKeyword` shows the `España` test is redundant |
| ClientFilters.IsEuropeanLocation | static/js/script.js:247-255 | `isEuropeanLocation`: a European keyword anywhere in the lower-cased location; case-blind by `ClientFilters.LocationTestsIgnoreCase` |
| ClientFilters.IsInternationalLocation | static/js/script.js:257-265 | `isInternationalLocation`: an international keyword anywhere in the lower-cased location; case-blind by `ClientFilters.LocationTestsIgnoreCase` |
| ClientFilters.MatchesRegion | static/js/script.js:267-295 | `matchesRegion`: a word of the target's row, or the target's own lower-cased name, in the lower-cased location; `ClientFilters.MatchesRegionFallback` states the fallback |
| ClientFilters.SpanishLocationByKeyword | static/js/script.js:234-245 | Spanish iff a Spanish keyword occurs in the lower-cased location or it is `Todas` (the `España` test is subsumed) |
| ClientFilters.LocationTestsIgnoreCase | static/js/script.js:247-295 | the European, international and region tests ignore the case of the location |
| ClientFilters.EuropeanInsideWords | static/js/script.js:247-255 | `ue` matches inside words: `Huesca` counts as European |
| ClientFilters.MatchesRegionFallback | static/js/script.js:291-294 | an unknown target region matches iff its lower-cased name occurs in the location |
| ClientFilters.OrElse | static/js/script.js:335-351 | JavaScript `a \|\| b`: a non-empty string is kept, an absent or empty one replaced |
| ClientFilters.GeoShown | static/js/script.js:356-364 | the country and region tests of `applyAllFilters` on the card's country (or location); their scope is proved in `ClientFilters.GeoFilterScope` |
| ClientFilters.QuickShown | static/js/script.js:366-369 | the urgent, high-amount and recent quick filters; `ClientFilters.QuickFilterHides` proves what each hides |
| ClientFilters.GeoFilterScope | static/js/script.js:356-364 | Todos/Todas skip the country test; the region only matters for España; with España every shown item is Spanish |
| ClientFilters.QuickFilterHides | static/js/script.js:366-369 | quick filters only hide; `urgent` shows only critical or high; none or `clear` leaves the geographic decision |
| ClientFilters.ResultsPage.constructor | static/js/script.js:342-344 | every card starts shown, with no quick filter |
| ClientFilters.ResultsPage.ApplyAllFilters | static/js/script.js:334-378 | each card's display is the combined decision; a `clear` quick filter is reset afterwards |
| ClientFilters.ResultsPage.QuickFilterClicked | static/js/script.js:323-330 | the clicked filter is applied; after `clear` only country and region decide |
| ClientFilters.ResultsPage.FilterByUrgency | static/js/script.js:959-974 | each card's display is the urgency decision |
| ClientFilters.ResultsPage.FilterBySource | static/js/script.js:976-985 | each card's display is the source decision |
| ClientFilters.UrgencyShown | static/js/script.js:965-971 | the `switch` of `filterByUrgency`, an absent urgency equal to no string; `ClientFilters.UrgencyFilterMonotone` proves its nesting |
| ClientFilters.SourceShown | static/js/script.js:982 | `all`, or the lower-cased filter within the lower-cased source; `ClientFilters.SourceFilterProperties` proves its cases |
| ClientFilters.UrgencyFilterMonotone | static/js/script.js:965-971 | critical ⊆ high ⊆ medium; `active` hides exactly `expired`; other choices hide nothing |
| ClientFilters.SourceFilterProperties | static/js/script.js:982 | `all` and the empty filter show everything; otherwise a case-insensitive substring test |
| ClientFilters.Without | static/js/script.js:499 | the filter removes every copy of the title and keeps every other, never lengthens the list and shortens it when the title was there |
| ClientFilters.Toggled | static/js/script.js:497-509 | a toggle shortens the list when the title was stored and adds exactly one entry when it was not |
| ClientFilters.ToggleFlips | static/js/script.js:496-510 | a toggle flips the title's membership and no other |
| ClientFilters.ToggleTwice | static/js/script.js:496-510 | two toggles restore every membership, and the list itself when the title was absent |
| ClientFilters.FavoriteStore.constructor | static/js/script.js:497 | the stored list starts empty |
| ClientFilters.FavoriteStore.ToggleFavorite | static/js/script.js:496-510 | the new list is the toggled one; the title is present iff it was absent |

## Left out

- Network access, HTTP status codes, encodings, timeouts and `time.sleep` are not modelled. What an adapter fetched is an input, and an adapter call either returns records or raises.
- BeautifulSoup is not modelled: the CSS selector queries become the list of anchors they return. `_extract_description_from_page`, `_extract_amount_from_page` and `_extract_amount_from_text` are opaque parameters, since they are heuristic text mining.
- `hash(title) % 10000` in `_generate_identifier` is a parameter, because Python randomises string hashes per process. The floor modulo and the 30-character stem are modelled.
- Deadlines and publication dates invented from `datetime.now()`, and today's date, are parameters.
- The float branch of `format_amount_filter` and the `search_time` rounding are left out, because they are floating point; the float branch is a marker value.
- `_get_fallback_data` is modelled as the empty list it returns. `get_grant_details` is network-only and left out.
- The EU Funding and IDAE adapters are stubs that return `[]`; they appear only as such in the aggregator.
- The Flask routes, the export encoders and the app setup are web plumbing and are left out.
- Most of script.js is left out: DOM building, button classes, animations, timers, observers, notifications, `updateVisibleCount` and `sortResults` (which relies on JavaScript date parsing).
- In `applyAllFilters` the `recent` test compares JavaScript `Date` objects; the model receives the result of that comparison as the card's `olderThanAWeek` flag.
- `FavoriteStore` holds the favourites list directly; the `localStorage` JSON round trip around `toggleFavorite` is I/O and left out.
- `ClientFilters.ResultsPage.FilterBySource`: a card without `data-source` makes `source.toLowerCase()` throw and stops the loop; the model gives every card a source.
- `Common.Lower` maps ASCII and Latin-1 letters only. That covers the Spanish text of the keyword tables; Python's and JavaScript's full Unicode lower-casing is not modelled.
- `WebHelpers.DatetimeFilter`: a plain `date` object is not modelled. Template values are strings, datetimes (date plus time of day) or values without `strftime`.
- `Cdti.ProcessResults`: the dictionary keyed by title is modelled as a seen-set plus a list in insertion order, which is the order Python dictionaries keep.
- `Boe.Item`: an item without `titulo` has the title `''`. Summaries whose JSON has other shapes, such as non-string titles raising inside the subsection handler, are not modelled.
- `Aggregator.RealGrantApi.SearchGrants`: the adapters run inside the method, but which ones started is kept only as ghost state. The aliasing between a cached list and later in-place updates by `process_grants_data` is not modelled.
- Concurrency around the cache is not modelled; the code is single-threaded.
- Common.IsWordChar and Common.IsAsciiDigit cover ASCII letters and digits, `_`, and the Latin-1 and Latin Extended-A letters only, not the whole of Unicode `\w` and `\d`. Greek, Cyrillic or other scripts, and non-ASCII digits, are treated as non-word characters, where Python keeps them.
- Aggregator.DedupKey: because of that narrower word class, titles differing only in non-Latin letters share a key in the model ("Ayuda Ω" and "Ayuda Ψ" both become `ayuda `), while Python keeps them apart.
- Cdti.TitleKey and Cdti.Identifier inherit the same narrower word class for their `\w`/`\W` character filters.
- WebHelpers.FormatAmount follows CPython 3.11 and later (and the 3.7-3.10 security releases), whose `int()` refuses numerals of more than 4300 digits by default; older interpreters would regroup such a numeral, and a changed `sys.set_int_max_str_digits` setting is not modelled.
- Dates.Strptime accepts ASCII digits only; Python's `strptime` also accepts other Unicode decimal digits.
- WebHelpers.FirstNumber matches `[\d.,]+` with ASCII digits only.
- GrantsService.ProcessGrantsData: the clock is read once for the whole list, while services/grants.py:15 calls `datetime.now()` for every grant, so two grants processed across a day boundary may be counted against different days in Python.
- `WebHelpers.TruncateSmart`: the `length + 3` bound is stated for non-negative lengths only. Python's negative-index slicing for a negative `length` is modelled, but nothing more is proved about it.

## Findings

| source | as written | input that shows it | evidently intended | confidence | as-written member | corrected member |
|---|---|---|---|---|---|---|
| scraper/api_client.py:91 | the CDTI adapter is looked up as `cdti.CdtisScraper`, a class the module does not define (it defines `CdtiScraper`, scraper/web/cdti.py:8). The lookup raises, so the handler throws away the BOE records and every uncached search returns and caches `[]` (`Aggregator.CollectAsWrittenAlwaysFails`, `Aggregator.SearchAsWrittenMissIsEmpty`) | facets Todos/Todas/Todos/Todas with an empty cache and a BOE adapter returning one record `g`: the result is `[]` instead of `[g]` (`Aggregator.CollectAsWrittenDiscardsBoe`) | `cdti.CdtiScraper`: with no adapter raising, the result is every adapter's records in order (`Aggregator.CollectConcatenates`, `Aggregator.CollectFallback`) | not executed | Aggregator.CollectAsWritten | Aggregator.Collect |
