# Load-test path generators, modelled in Dafny

The repository holds three scripts. Each one writes a list of request paths for a load test:

- `sierra/generate-api-paths.js` builds Sierra API paths. The record types are bibs, items, holdings, patrons and holds. Each type gets a share of `argv.count` (`OVERALL_MAKEUP`). Bibs, items and holdings split their share further over three query types (`QUERY_TYPES`):
  - updatedDate queries, over a random date window;
  - deletedDate queries, over the dates of such a window;
  - identity lookups of up to ten ids, taken from a page that an updatedDate query returned.

  Patron and holds paths are id lookups of the same kind. `run` merges everything, shuffles it, keeps the first `count` paths and shuffles them again.
- `discovery-front-end/generate-paths.rb` builds catalog page paths: search, bib, home page and subject-heading navigations, in the shares of `makeup`.
- `discovery-api/generate-api-paths.rb` builds Discovery API paths. Each search gives two paths, the resources query and its aggregations. Bib resources come next.

Both Ruby scripts share three steps, modelled once in `Discovery`:
- drop six problematic keywords;
- check that the seed data are large enough;
- collect bib ids ("bnums") by searching keywords until more than the bib share has been found.

Each category loop then draws from a shuffle-on-empty pool and appends its paths. Finally `paths.shuffle!` reorders the whole list.

## Modules

| module | file | what it holds |
|---|---|---|
| `Wrappers` | wrappers.dfy | `Option`, `Result` |
| `Quota` | quota.dfy | shares as exact fractions, `Math.ceil`, Ruby `to_i` |
| `Text` | text.dfy | decimal rendering, `sub`, `replace(/T.*$/, '')`, chunked concatenation |
| `PercentEncoding` | percent.dfy | `encodeURIComponent`, `CGI.escape` and percent-decoding |
| `IsoDate` | iso_date.dfy | `Date.prototype.toISOString` |
| `JsRandom` | js_random.dfy | `randomDateRange`, `randomOffset`, `randomSort`, `randomSelection` |
| `Pools` | pools.dfy | `pool = seed.shuffle if pool.empty?; pool.shift` as the class `Pool` |
| `Discovery` | discovery.dfy | keyword filter, seed checks, bnum collection |
| `FrontEndPaths` | front_end.dfy | the front-end script |
| `ApiPaths` | discovery_api.dfy | the Discovery API script |
| `SierraPaths` | sierra.dfy | the Sierra script; `SierraRun` holds `allPaths` |

Everything from outside a script is an input, each with the contract it must satisfy:
- Every `Math.random()` is a real `r` with `0 <= r < 1`.
- Every Ruby `Array#shuffle` is a function `(k, s) -> s'`. The k-th shuffle of `s` returns a permutation of `s`.
- Every `sample(20)` is a list of distinct positions in the page.
- Every HTTP response is the list of ids its page held.

Shares such as `0.36` or `0.3 * 0.6` are exact fractions (36/100, 30·60/10000):
- A Ruby loop `while count < N * p` runs `LoopQuota(N, num, den)` times. That is the least `q >= 0` with `q * den >= N * num`.
- `Math.ceil(count * a * b)` is `CeilDiv`.

## Model

| member | source | states |
|---|---|---|
| Quota.CeilDiv | sierra/generate-api-paths.js:131 | `Math.ceil` of a / b: the least q with a <= q·b |
| Quota.TruncDiv | discovery-front-end/generate-paths.rb:30 | `Float#to_i` of a / b truncates toward zero: q·b lies between 0 and a, within one b of a |
| Quota.LoopQuota | discovery-front-end/generate-paths.rb:61 | the number of runs of `while count < N * p`: the least q >= 0 with q·den >= N·num |
| Quota.LoopQuotaIsExit | discovery-front-end/generate-paths.rb:61-66 | the loop guard `c·den < N·num` holds exactly while c < LoopQuota, so the counter ends at LoopQuota |
| Text.NatToString | sierra/generate-api-paths.js:100 | `${offset}`: a non-empty digit string without a leading zero |
| Text.NatToStringRoundTrip | sierra/generate-api-paths.js:100 | reading the rendered digits back gives the number |
| Text.IndexOfFrom | discovery-front-end/generate-paths.rb:46 | the leftmost occurrence of the pattern at or after `from`, or None when there is none |
| Text.RemoveFirst | discovery-front-end/generate-paths.rb:46 | `id.sub /res:/, ''` removes exactly the leftmost occurrence and leaves a string without one unchanged |
| Text.RemoveFirstOfPrefixed | discovery-front-end/generate-paths.rb:46 | an id `res:<bnum>` becomes `<bnum>` |
| Text.RemoveFirstLength | discovery-api/generate-api-paths.rb:44 | without an occurrence the id is unchanged; with one it is exactly the pattern's length shorter |
| Text.DropFromT | sierra/generate-api-paths.js:105 | `replace(/T.*$/, '')` keeps a prefix of its input |
| Text.DropFromTKeepsDate | sierra/generate-api-paths.js:105 | on `<date>T<time>` with no 'T' in the date and no line break in the time, exactly the date is left |
| IsoDate.Pad | sierra/generate-api-paths.js:74 | a fixed-width field of decimal digits |
| IsoDate.DateString | sierra/generate-api-paths.js:74 | the `YYYY-MM-DD` part is ten characters without a 'T' |
| IsoDate.TimeString | sierra/generate-api-paths.js:74 | the `HH:mm:ss.sssZ` part is thirteen characters without a line break |
| IsoDate.IsoDatePart | sierra/generate-api-paths.js:74 | the date part of an instant's ISO string: ten characters without a 'T' |
| IsoDate.IsoTimePart | sierra/generate-api-paths.js:74 | the time part of an instant's ISO string: thirteen characters without a line break |
| IsoDate.CivilFromDays | sierra/generate-api-paths.js:74 | the calendar date of a day count has a month in 1..12 and a day in 1..31 |
| IsoDate.ToIsoString | sierra/generate-api-paths.js:74 | `toISOString()` of an instant before year 10000: 24 characters with 'T' at position 10 |
| IsoDate.DateOnlyOfIso | sierra/generate-api-paths.js:105 | dropping from 'T' leaves the `YYYY-MM-DD` date part, the first ten characters of the ISO string |
| JsRandom.MathRound | sierra/generate-api-paths.js:70-71 | `Math.round` gives an integer within half of x, halves rounded up |
| JsRandom.RoundScaled | sierra/generate-api-paths.js:78 | rounding r·d for r in [0, 1) stays between 0 and d |
| JsRandom.RandomOffset | sierra/generate-api-paths.js:77-79 | `randomOffset(min, max)` lies in [min, max] (in [max, min] when reversed) |
| JsRandom.DrawInstant | sierra/generate-api-paths.js:67-72 | each drawn instant lies within the two `dateRange` bounds |
| JsRandom.RandomWindow | sierra/generate-api-paths.js:69-73 | after the sort the window is ordered and inside the bounds, and it holds exactly the two draws |
| JsRandom.RandomDateRange | sierra/generate-api-paths.js:66-75 | `randomDateRange()` returns the `toISOString()` of the start, then of the end, of the ordered in-bounds window; each is 24 characters |
| JsRandom.Tagged | sierra/generate-api-paths.js:83 | `map(value => ({ value, sort }))` tags every value, keeping the length |
| JsRandom.InsertByKey | sierra/generate-api-paths.js:84 | inserting one tagged value lengthens the sorted list by one |
| JsRandom.InsertByKeyValues | sierra/generate-api-paths.js:84 | stable insertion adds exactly the inserted value |
| JsRandom.InsertByKeySorted | sierra/generate-api-paths.js:84 | insertion keeps keys in order |
| JsRandom.SortByKeyValues | sierra/generate-api-paths.js:84 | the comparator sort keeps exactly the values it was given |
| JsRandom.SortByKeySorted | sierra/generate-api-paths.js:84 | the comparator sort leaves the keys non-decreasing |
| JsRandom.SortByKey | sierra/generate-api-paths.js:84 | the comparator sort keeps the length of the tagged array |
| JsRandom.Values | sierra/generate-api-paths.js:85 | `map(({ value }) => value)` keeps the length |
| JsRandom.RandomSort | sierra/generate-api-paths.js:81-86 | `randomSort(arr)` is a permutation of arr: same length, same multiset |
| JsRandom.RandomSortOrdersKeys | sierra/generate-api-paths.js:82-85 | the result is the values of the key-tagged array in key order |
| JsRandom.SlicePrefix | sierra/generate-api-paths.js:90 | `slice(0, end)` is a prefix of length min(end, len), with negative ends counted from the back |
| JsRandom.RandomSelection | sierra/generate-api-paths.js:88-91 | `randomSelection(arr, n)` has min(n, len) elements and is a sub-multiset of arr |
| PercentEncoding.Utf8 | sierra/generate-api-paths.js:100 | the UTF-8 encoding of a character is 1 to 4 bytes, and one byte exactly for ASCII |
| PercentEncoding.HexDigit | sierra/generate-api-paths.js:100 | a digit `0-9` or an upper-case `A-F` whose value is d |
| PercentEncoding.PercentBytes | sierra/generate-api-paths.js:100 | each byte becomes three characters `%XY` |
| PercentEncoding.PercentBytesSafe | sierra/generate-api-paths.js:100 | a percent-encoded byte string holds only query-safe characters |
| PercentEncoding.EncodeUriComponent | sierra/generate-api-paths.js:100 | `encodeURIComponent` never shortens its input and leaves a string of unreserved characters unchanged |
| PercentEncoding.CgiEscape | discovery-front-end/generate-paths.rb:64 | `CGI.escape` never shortens its input and leaves a string of unreserved characters unchanged |
| PercentEncoding.EncodeUriComponentSafe | sierra/generate-api-paths.js:100 | an `encodeURIComponent` value holds none of `& = ? # / ,` or space, so it cannot break the query string |
| PercentEncoding.CgiEscapeSafe | discovery-front-end/generate-paths.rb:64 | the same for a `CGI.escape` value |
| PercentEncoding.DecodePercentBytes | sierra/generate-api-paths.js:100 | decoding `%XY` triples gives back their bytes |
| PercentEncoding.EncodeUriComponentRoundTrip | sierra/generate-api-paths.js:100 | percent-decoding an `encodeURIComponent` value gives the UTF-8 bytes of the original |
| PercentEncoding.CgiEscapeRoundTrip | discovery-api/generate-api-paths.rb:64 | form-decoding a `CGI.escape` value ('+' as space) gives the UTF-8 bytes of the original |
| Pools.RoundsLength | discovery-front-end/generate-paths.rb:62 | k reshuffles of the seed hold k·len(seed) values |
| Pools.RoundsPrefix | discovery-front-end/generate-paths.rb:62 | fewer reshuffles yield a prefix of more |
| Pools.RoundsSegment | discovery-front-end/generate-paths.rb:62-63 | pass p of the draws is exactly the p-th shuffle |
| Pools.PoolDraws | discovery-front-end/generate-paths.rb:62-63 | the first q values a non-empty pool yields: q of them |
| Pools.PassOfPoolDraws | discovery-api/generate-api-paths.rb:62-63 | between two reshuffles the pool yields a prefix of one shuffle of the seed |
| Pools.CompletePassIsPermutation | discovery-front-end/generate-paths.rb:62-63 | a complete pass yields every seed value exactly as often as the seed holds it |
| Pools.PassHasNoRepeats | discovery-api/generate-api-paths.rb:62-63 | within one pass a seed without duplicates never yields a value twice |
| Pools.DistinctPermutation | discovery-api/generate-api-paths.rb:62 | a shuffle of a duplicate-free seed has no duplicates |
| Pools.PoolDrawsFromSeed | discovery-front-end/generate-paths.rb:71-72 | every value a pool yields is a seed value |
| Pools.RoundsFromSeed | discovery-front-end/generate-paths.rb:71 | every value of the reshuffles is a seed value |
| Pools.EmptySeedRounds | discovery-front-end/generate-paths.rb:71-72 | an empty seed only ever refills to an empty pool |
| Pools.Pool.constructor | discovery-front-end/generate-paths.rb:60 | `keyword_pool = []`: an empty pool, nothing drawn |
| Pools.Pool.Take | discovery-front-end/generate-paths.rb:62-63 | refill with the next shuffle when empty, then shift. The result is nil exactly when the seed is empty. What has been drawn is always the pool's first draws |
| Pools.Pool.DrawnArePoolDraws | discovery-api/generate-api-paths.rb:62-63 | the values drawn so far are the first draws of the pool |
| Discovery.FilterKeywords | discovery-front-end/generate-paths.rb:25-28 | every keyword outside the six excluded titles keeps its multiplicity; the excluded ones are gone |
| Discovery.FilterRemovesExcluded | discovery-api/generate-api-paths.rb:28-31 | no excluded title survives the filter, and every survivor was a CSV keyword |
| Discovery.FilterKeywordsAppend | discovery-front-end/generate-paths.rb:28 | the filter keeps the keyword order |
| Discovery.EnoughSeedsExact | discovery-front-end/generate-paths.rb:30-31 | the seed check `raise ... if size < (p * N).to_i` passes exactly when (size + 1) · 100 > N · pct, i.e. size >= floor(p · N) for a non-negative share |
| Discovery.StripRes | discovery-front-end/generate-paths.rb:46 | `id.sub /res:/, ''` never lengthens an id |
| Discovery.StripResOfPrefixed | discovery-api/generate-api-paths.rb:44 | `res:<bnum>` becomes `<bnum>` |
| Discovery.Sample | discovery-front-end/generate-paths.rb:44-47 | one search contributes as many bnums as `sample(20)` picked |
| Discovery.Collected | discovery-front-end/generate-paths.rb:38-53 | the bnums of the first k searches: at most 20 per search |
| Discovery.CollectedFromPages | discovery-front-end/generate-paths.rb:38-53 | after k searches at most 20·k bnums, each a `res:`-stripped id of one of those pages |
| Discovery.CollectBnums | discovery-api/generate-api-paths.rb:36-53 | the bnum loop runs at least the first search when there are keywords, and stops right after the first search that brings the total over N·p, or when the keywords run out; at most 20 bnums per search |
| Discovery.BibPath | discovery-front-end/generate-paths.rb:73 | a bib path is the base followed by the bnum, or the bare base for a nil bnum |
| Discovery.BibPaths | discovery-api/generate-api-paths.rb:74 | one bib path per bnum drawn |
| Discovery.BibPathsSnoc | discovery-front-end/generate-paths.rb:72-73 | drawing one more bnum appends its bib path |
| Discovery.NilBibPaths | discovery-api/generate-api-paths.rb:73-74 | k iterations without bnums give k paths |
| Discovery.NilBibPathsSnoc | discovery-front-end/generate-paths.rb:72-73 | with no bnums, each iteration appends the bare base path |
| Discovery.BibSpec | discovery-front-end/generate-paths.rb:68-75 | the bib loop gives exactly ceil(p · N) paths |
| Discovery.BibPathsUseCollectedBnums | discovery-api/generate-api-paths.rb:69-76 | every bib path names one of the collected bnums, or is the bare base when none was collected |
| Discovery.BibLoop | discovery-front-end/generate-paths.rb:68-75 | the loop `while count < N * p` always builds exactly ceil(p · N) bib paths, the pool's draws in order, the counter moving on even for a nil bnum |
| FrontEndPaths.SearchPaths | discovery-front-end/generate-paths.rb:64 | one search path per keyword drawn |
| FrontEndPaths.SearchPathsSnoc | discovery-front-end/generate-paths.rb:63-64 | drawing one more keyword appends its search path |
| FrontEndPaths.SearchPath | discovery-front-end/generate-paths.rb:64 | a catalog search path: the `search?q=` prefix, then an escaped keyword holding only query-safe characters |
| FrontEndPaths.RunWithout | discovery-front-end/generate-paths.rb:88 | `[^\?]+` and `.+` take the longest run without '?' or a newline |
| FrontEndPaths.MatchFromSkips | discovery-front-end/generate-paths.rb:88 | the leftmost match cannot start where `subject_headings/` does not occur |
| FrontEndPaths.MatchAt | discovery-front-end/generate-paths.rb:88 | a match at i needs `subject_headings/` at i, and captures a non-empty uuid without '?' and a non-empty label without a newline |
| FrontEndPaths.MatchFrom | discovery-front-end/generate-paths.rb:88 | a match found from i has captures of that form |
| FrontEndPaths.MatchFromLeftmost | discovery-front-end/generate-paths.rb:88 | the match found from i is the one at the first position j >= i where the pattern matches; with no match, it matches nowhere after i |
| FrontEndPaths.ParseSubjectHeading | discovery-front-end/generate-paths.rb:88 | a URL the regex matches yields a uuid without '?' and a label without a newline, both non-empty |
| FrontEndPaths.MatchAtWellFormed | discovery-front-end/generate-paths.rb:88 | at `subject_headings/<uuid>?label=<caption>` the pattern captures uuid and caption |
| FrontEndPaths.MatchFromWellFormed | discovery-front-end/generate-paths.rb:88 | the leftmost match in a URL with that tail captures its uuid and caption |
| FrontEndPaths.ParseWellFormed | discovery-front-end/generate-paths.rb:88 | a well-formed subject-heading URL yields its uuid and caption |
| FrontEndPaths.SubjectHeadingTriple | discovery-front-end/generate-paths.rb:88-91 | each navigation is three paths |
| FrontEndPaths.TripleOfParsed | discovery-front-end/generate-paths.rb:88-91 | the three paths are the heading page with its label, then its `context` and `related` API calls, all for the captured uuid |
| FrontEndPaths.SubjectHeadingNavigation | discovery-front-end/generate-paths.rb:87-91 | a well-formed URL is navigated with its own uuid and caption |
| FrontEndPaths.SubjectHeadingPaths | discovery-front-end/generate-paths.rb:85-95 | three paths per URL drawn |
| FrontEndPaths.SubjectHeadingPathsAt | discovery-front-end/generate-paths.rb:89-91 | paths 3i to 3i+2 are the navigation of the i-th URL drawn |
| FrontEndPaths.SubjectHeadingPathsSnoc | discovery-front-end/generate-paths.rb:86-91 | drawing one more URL appends its three paths |
| FrontEndPaths.SearchSpec | discovery-front-end/generate-paths.rb:59-66 | ceil(0.36 · N) search paths when there are keywords; none when there are none |
| FrontEndPaths.HomepageSpec | discovery-front-end/generate-paths.rb:77-81 | ceil(0.13 · N) paths, every one the catalog home path |
| FrontEndPaths.SubjectHeadingSpec | discovery-front-end/generate-paths.rb:83-95 | 3 · ceil(0.01 · N) paths when there are URLs; none when there are none |
| FrontEndPaths.SearchLoop | discovery-front-end/generate-paths.rb:59-66 | exactly ceil(0.36·N) search paths, one per keyword the pool yields. It fails (CGI.escape of nil) exactly when there are no keywords and the quota is positive |
| FrontEndPaths.HomepageLoop | discovery-front-end/generate-paths.rb:77-81 | exactly ceil(0.13·N) copies of the catalog home path |
| FrontEndPaths.SubjectHeadingLoop | discovery-front-end/generate-paths.rb:83-95 | three paths and one count per URL drawn: 3·ceil(0.01·N) paths. It fails (`nil.first`) exactly when there are no URLs and the quota is positive |
| FrontEndPaths.BuiltCountShares | discovery-front-end/generate-paths.rb:12-18 | the paths built cover the search, bib, home-page and three-fold subject-heading shares of N, and exceed them by less than six |
| FrontEndPaths.RunLoops | discovery-front-end/generate-paths.rb:57-95 | the four loops append search, bib, home-page and subject-heading paths in that order; the error is the first loop's that fails |
| FrontEndPaths.Build | discovery-front-end/generate-paths.rb:38-98 | the run collects bnums, builds search + bib + home page + 3·subject headings paths, and `shuffle!` makes them a permutation of what was built; nothing is trimmed |
| FrontEndPaths.Generate | discovery-front-end/generate-paths.rb:25-98 | raises when the filtered keywords are fewer than floor(0.36·N), then when the URLs are fewer than floor(0.01·N). Past both checks it fails with `NilKeyword` when there are no keywords and the search quota is positive, and otherwise with `NilSubjectHeading` (`nil.first`) when there are no URLs and that quota is positive. Otherwise as `Build` |
| ApiPaths.SearchPair | discovery-api/generate-api-paths.rb:64-65 | each search iteration appends two paths |
| ApiPaths.SearchPaths | discovery-api/generate-api-paths.rb:61-67 | two paths per keyword drawn |
| ApiPaths.SearchPathsSnoc | discovery-api/generate-api-paths.rb:63-65 | drawing one more keyword appends its pair |
| ApiPaths.SearchPathsAt | discovery-api/generate-api-paths.rb:64-65 | paths 2i and 2i+1 are `resources?q=` then `resources/aggregations?q=` for the same keyword |
| ApiPaths.SearchSpec | discovery-api/generate-api-paths.rb:59-67 | 2 · ceil(0.61 · N) search paths when there are keywords; none when there are none |
| ApiPaths.SearchLoop | discovery-api/generate-api-paths.rb:59-67 | exactly 2·ceil(0.61·N) search paths, a pair per keyword the pool yields; fails exactly when there are no keywords and the quota is positive |
| ApiPaths.BuiltCountExceedsTotal | discovery-api/generate-api-paths.rb:18-21 | for N > 0 the run builds more than N paths, at least 2·0.61·N + 0.39·N |
| ApiPaths.Build | discovery-api/generate-api-paths.rb:36-78 | the run collects bnums, builds 2·search + bib paths, and `shuffle!` makes them a permutation of what was built |
| ApiPaths.Generate | discovery-api/generate-api-paths.rb:28-78 | raises when the filtered keywords are fewer than floor(0.61·N); otherwise as `Build` |
| SierraPaths.BracketedDates | sierra/generate-api-paths.js:99 | in `[a,b]` for two ISO strings, the dates sit at positions 1..11 and 26..36 |
| SierraPaths.BracketedNoT | sierra/generate-api-paths.js:105 | bracketing two date-only values adds three characters and no 'T' |
| SierraPaths.DeletedRangeIsDates | sierra/generate-api-paths.js:105 | the deletedDate value is `[<start date>,<end date>]`: 23 characters, no 'T' left |
| SierraPaths.DeletedRangeIsDatesOfUpdated | sierra/generate-api-paths.js:99-105 | those dates are the first ten characters of each timestamp in the updatedDate value |
| SierraPaths.DrawnDeletedRange | sierra/generate-api-paths.js:96-105 | the deletedDate value drawn in an iteration is `[<start date>,<end date>]` of that iteration's window, with no 'T' left |
| SierraPaths.QueryCount | sierra/generate-api-paths.js:131 | `Math.ceil(count * makeup * share)`: the least integer c with c · 10000 >= count · makeup% · share% |
| SierraPaths.RecordCount | sierra/generate-api-paths.js:184 | `Math.ceil(count * makeup)`: the least integer c with c · 100 >= count · makeup% |
| SierraPaths.QueryPath | sierra/generate-api-paths.js:100-106 | a date query path starts `/iii/sierra-api/v6/<recordType>?fields=` and ends `&limit=200` |
| SierraPaths.DatePath | sierra/generate-api-paths.js:97-107 | the updatedDate or deletedDate path of an iteration starts with the record type's `?fields=` prefix and ends `&limit=200` |
| SierraPaths.LookupPath | sierra/generate-api-paths.js:116 | an id lookup starts `/iii/sierra-api/v6/<recordType>?id=<id>`; a holds lookup starts `/iii/sierra-api/v6/patrons/<id>` and ends `/holds?expand=record` (lines 201 and 226 likewise) |
| SierraPaths.Rendered | sierra/generate-api-paths.js:95-102 | k iterations give k paths |
| SierraPaths.RenderedAt | sierra/generate-api-paths.js:95-102 | path i is the one iteration i built |
| SierraPaths.DatePaths | sierra/generate-api-paths.js:95-107 | k date iterations give k paths |
| SierraPaths.DatePathsAt | sierra/generate-api-paths.js:96-107 | date path i is built from iteration i's own draws |
| SierraPaths.LookupPaths | sierra/generate-api-paths.js:115-117 | one lookup path per id |
| SierraPaths.LookupPathsAppend | sierra/generate-api-paths.js:115 | `paths.concat` of more ids appends their paths |
| SierraPaths.SelectedIds | sierra/generate-api-paths.js:113 | `randomSelection(ids, 10)` keeps min(10, page size) of the page's ids |
| SierraPaths.SelectionsOfPages | sierra/generate-api-paths.js:198 | each selection from a non-empty page has 1 to 10 ids |
| SierraPaths.SelectionFromPage | sierra/generate-api-paths.js:113 | each selected id is an entry of that iteration's page |
| SierraPaths.LookupIdsFromSelections | sierra/generate-api-paths.js:200-202 | after k iterations at most 10·k ids, each from one of those selections |
| SierraPaths.LookupIdsGrow | sierra/generate-api-paths.js:200 | each iteration adds at least one id |
| SierraPaths.LookupIterationsStop | sierra/generate-api-paths.js:189 | the loop stops at the first iteration that reaches `count` |
| SierraPaths.LookupStep | sierra/generate-api-paths.js:189-202 | an iteration below `count` appends the paths of its selection |
| SierraPaths.LookupSpecBounds | sierra/generate-api-paths.js:108-118 | an identity, patron or holds loop ends with between count and count + 9 paths, and with none for count <= 0 |
| SierraPaths.LookupSpecFromPages | sierra/generate-api-paths.js:196-202 | every lookup path is built from an id that the query of one of the iterations the loop ran returned |
| SierraPaths.LookupSpec | sierra/generate-api-paths.js:189-203 | the lookup loop ends with at least `count` paths |
| SierraPaths.DateQueryLoop | sierra/generate-api-paths.js:95-107 | a date loop builds exactly max(count, 0) paths, path k from iteration k |
| SierraPaths.BuildRecordPaths | sierra/generate-api-paths.js:93-123 | `buildBibItemHoldingsPaths` returns the date paths or the identity lookups of its query type |
| SierraPaths.LookupLoop | sierra/generate-api-paths.js:189-203 | the patrons and holds loop builds the lookups of the ids selected until `count` is reached |
| SierraPaths.SelectionLoop | sierra/generate-api-paths.js:215-228 | the same loop over its selections stops at the first iteration that reaches `count` |
| SierraPaths.QueryTypePathsCover | sierra/generate-api-paths.js:95 | a query type's builder returns at least `count` paths |
| SierraPaths.QueryTypesCover | sierra/generate-api-paths.js:34-38 | the 60 + 10 + 30 percent query shares, each rounded up, cover the record type's share |
| SierraPaths.RecordTypePathsCover | sierra/generate-api-paths.js:129-140 | bibs, items or holdings get at least their makeup share of `count` |
| SierraPaths.SharesCover | sierra/generate-api-paths.js:27-33 | the five makeup shares add up to the whole count |
| SierraPaths.LookupCover | sierra/generate-api-paths.js:184-203 | patrons or holds get at least their makeup share |
| SierraPaths.Merged | sierra/generate-api-paths.js:234-241 | the merged list of all five record types never falls short of `count` |
| SierraPaths.Output | sierra/generate-api-paths.js:243-248 | for count >= 0, `run` writes min(merged size, count) lines, a sub-multiset of the merged list |
| SierraPaths.OutputIsShuffledPrefix | sierra/generate-api-paths.js:243-248 | the lines written are a reordering of a prefix of the shuffled merged list |
| SierraPaths.RunWritesCount | sierra/generate-api-paths.js:243-250 | a run for count >= 0 writes exactly `count` lines, since the merged list never falls short of `count` |
| SierraPaths.RunWritesCountFrom | sierra/generate-api-paths.js:243-250 | the lines written, computed from an empty `allPaths`, number exactly `count` |
| SierraPaths.SierraRun.constructor | sierra/generate-api-paths.js:64 | `allPaths` starts empty |
| SierraPaths.SierraRun.BuildRecordTypePaths | sierra/generate-api-paths.js:125-180 | `allPaths` grows by the updatedDate, deletedDate and identity paths of the record type |
| SierraPaths.SierraRun.BuildPatronsPaths | sierra/generate-api-paths.js:182-207 | `allPaths` grows by the patron lookups |
| SierraPaths.SierraRun.BuildHoldsPaths | sierra/generate-api-paths.js:209-232 | `allPaths` grows by the holds lookups |
| SierraPaths.SierraRun.Run | sierra/generate-api-paths.js:234-251 | `allPaths` ends as the shuffled merged list trimmed to `count`, and the lines written are a shuffle of it; starting from an empty `allPaths`, exactly `count` lines for count >= 0 |

## Left out

- HTTP and authentication are not modelled: `sierraClient`, `client.get`, `HTTParty.get` and `JSON.parse`. Each response is an input, the list of ids on its page. `BASE_URL` appears only in the HTTP request, so it has no counterpart.
- Argument and environment loading is not modelled: minimist, dotenv, `ENV[...]`, `PAGES_COUNT` and `PATHS_COUNT`. The total is a parameter.
- `CSV.read`, `fs.writeFileSync`, `File.open`, `console.log` and `puts` are not modelled. The keyword and subject-heading CSVs are given as the first cell of each row, so a row without cells (where `.first` is nil) is not represented. For the keywords (discovery-front-end/generate-paths.rb:26, discovery-api/generate-api-paths.rb:29) such a nil passes the filter, and `CGI.escape` of it would raise in the bnum or search loop; `FilterKeywords` takes only strings.
- `Promise.all` is modelled sequentially: the three query types of a record type are built one after another, in `QUERY_TYPES` order. This is also the order in which the JavaScript appends them to `allPaths`. The updatedDate and deletedDate builders never wait on I/O, so their continuations run before the identity builder's, which waits on the HTTP client. The event-loop scheduling itself is not modelled.
- Floating point is not modelled. Each share is an exact fraction. The float product in `Math.ceil(argv.count * a * b)` and the float comparison `count < N * p` may differ from the exact ceiling for some totals.
- `Date.parse` of the two `dateRange` constants is not modelled. They are the literal millisecond values `DateRangeStart` and `DateRangeEnd`.
- Randomness quality is not modelled. `Math.random`, `Array#shuffle`, `sample` and the random-key sort are inputs constrained only by their contracts; uniformity is not claimed.
- The `Array.prototype.sort` algorithm is modelled as a stable insertion sort under the same comparator. With duplicate keys another engine may order equal keys differently.
- The identity, patron and holds loops add nothing in an iteration whose query returns no entries, and run again. They hang only when every page from some iteration on is empty. The model requires every page to be non-empty (`PagesNonEmpty`), so it also leaves out runs with an occasional empty page, which the script completes.
- The query-type branch inside the loop of `buildBibItemHoldingsPaths` is taken once, outside the loop, because the query type does not change between iterations.
- The identity branch's updatedDate query path (`${recordType}?offset=0&…`) is not rendered. It only goes to `client.get`, whose page is an input. The patron and holds query paths, which also go only to the HTTP client, are left out for the same reason.
- The front end's `hold` share (0.26) has no loop in the script, so no hold paths are built. The model has the constant and no loop.
- `page_counts` is kept as one counter per loop. The summary line printed from it is output only.
- The `subject_headings` regex is modelled on the characters of the URL. Captures are checked only for well-formed `…subject_headings/<uuid>?label=<caption>` URLs. A URL the pattern does not match gives empty uuid and label, as the nil captures interpolate.
- `Date.prototype.toISOString` is modelled for instants from 1970 up to year 10000. The `dateRange` bounds lie well inside that range.
- The `fields` strings are passed to the path builders as a parameter. In the script each builder defines its own constant, and `Fields` holds those constants.
