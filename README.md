# Media tracker core, modelled in Dafny

This project models the logic layer of a Next.js media-tracker application. The application keeps books, films, shows and games in a library, with favourites, a watchlist and reviews. The model covers:

- the pure helpers of `lib/utils/index.ts`: duration text, slugs, truncation, reading time, star ratings, e-mail and year checks, the generic key sort and the lookup tables;
- the search endpoint (`app/api/search/route.ts`): parameter defaults, the `where` predicate, the single-key ordering, the offset/limit window, `total` and `totalPages`;
- the client side of a search: the parameter list `search` builds in `lib/hooks/index.ts`, and the filter, sort and "any filter active" helpers of `app/search/page.tsx`;
- the favourites set of the client hook (`toggleFavorite`, `fetchFavorites`);
- the statistics endpoint (`app/api/stats/route.ts`): the time range, the per-type tally, genre counting, the top-10 ranking, the 12 monthly slots and the twelve achievements;
- the watchlist page's filter, ordering and per-priority counts (`app/watchlist/page.tsx`);
- the keyed-store handlers for favourites, the watchlist, reviews and media creation, each as a class whose methods are proved against reply and next-state functions.

A store (Prisma) is a sequence or a map of records. The storage layer refuses some requests: a NaN id, a text field given a value of another JSON type, a name outside an enumeration, a media id with no media row, a missing key on `delete`/`update`. Each such refusal is the handler's 500 reply. When a handler reports the thrown value, that value is a parameter. Instants (`createdAt`, "now", the stats cut-offs) are integers given as parameters.

JavaScript semantics are modelled explicitly (modules `JsText`, `JsValue`):

- truthiness;
- `Number()` as `<` and `>` use it, with `None` for NaN;
- `parseInt`, `parseFloat`, `trim`, `split`, `join` and `toLowerCase` on ASCII;
- `%` with the sign of the dividend;
- stable `Array.prototype.sort` (module `Sorting`). With the store's order settling ties, the same function also stands for `orderBy`.

Two pieces of behaviour in the source stand out:

- The add-review handler's range check can be bypassed (see Findings).
- The search page offers the type values "SHOW" and "GAME", which are not names of the `MediaType` enumeration (`types/index.ts:97-107`). Selecting either makes every search fail (`SearchPage.PageShowOrGameFails`). This cuts across two files, and the page's intended names are not evident, so the model only states it.

## Model

| member | source | states |
|---|---|---|
| Types.ParseMediaType | types/index.ts:97-107 | a stored name denotes the enumeration member with exactly that name, and no other name denotes one |
| Types.ParseMediaStatus | types/index.ts:109-114 | the same for the four media statuses |
| Types.ParsePriority | types/index.ts:116-121 | the same for the four priorities |
| Utils.JsRem | lib/utils/index.ts:28 | JavaScript `%`: the remainder is smaller than the divisor in magnitude and has the sign of the dividend |
| Utils.JsRemTruncates | lib/utils/index.ts:28 | the remainder completes the quotient rounded toward zero: a = b·trunc(a/b) + r, for a dividend of either sign |
| Utils.NegativeDuration | lib/utils/index.ts:26-33 | a negative count keeps its sign in both parts: -30 minutes is "-1h -30m" |
| Utils.DurationRoundTrip | lib/utils/index.ts:26-33 | for every minute count ≥ 0, reading the "Mm" / "Hh" / "Hh Mm" text back gives the count |
| Utils.DurationInjective | lib/utils/index.ts:26-33 | two different minute counts never get the same text |
| Utils.DurationForms | lib/utils/index.ts:26-33 | "Mm" under an hour (0 gives "0m"), "Hh" on a whole non-zero hour, else "Hh Mm" with H = minutes div 60 and M = minutes mod 60 |
| Utils.KeepSlugChars | lib/utils/index.ts:78 | after removing `[^\w\s-]`, only word characters, white space and "-" remain |
| Utils.SlugShape | lib/utils/index.ts:75-81 | every slug uses only `[a-z0-9-]`, has no leading or trailing "-" and no two adjacent "-" |
| Utils.SlugFixed | lib/utils/index.ts:75-81 | a text that is already a slug is its own slug |
| Utils.SlugIdempotent | lib/utils/index.ts:75-81 | slugging a slug changes nothing |
| Utils.SlugKeepsContent | lib/utils/index.ts:75-81 | the slug keeps every lower-case letter and digit of the lower-cased text, in order, and adds none |
| Utils.CollapseShape | lib/utils/index.ts:79 | collapsing `[\s_-]+` to "-" leaves slug characters with no double "-" |
| Utils.DropLastWord | lib/utils/index.ts:85 | `/\s+\S*$/` removal: the result is a prefix that ends where the last white-space run starts, or the whole text when there is none |
| Utils.TruncateText | lib/utils/index.ts:83-86 | identity when the text fits; otherwise the first maxLength characters, with the last space-and-word removed, followed by "..." |
| Utils.SplitOnSpace | lib/utils/index.ts:101 | splitting on `\s+` always gives at least one piece, and for a non-empty text with no white space at either end the number of pieces is the number of words |
| Utils.TrimKeepsWords | lib/utils/index.ts:101 | trimming the text before splitting keeps its number of words |
| Utils.ReadingTimeCountsWords | lib/utils/index.ts:99-103 | the reading time is 1 for an empty or all-space text, else ceil(words / 200); it is always ≥ 1 |
| Utils.RepeatChar | lib/utils/index.ts:105-111 | `repeat(n)` gives n copies of the glyph |
| Utils.StarRatingShape | lib/utils/index.ts:105-111 | the repeat counts are valid exactly for ratings in [0, 11); then there are 5 glyphs, `floor(rating/2)` "★" followed by "☆" |
| Utils.ValidateEmailMatches | lib/utils/index.ts:113-116 | the regular expression accepts exactly: one "@", no white space, a non-empty local part, and a domain with a "." that has a character on each side |
| Utils.ValidIsShape | lib/utils/index.ts:113-116 | an accepted address has the described shape |
| Utils.ShapeIsValid | lib/utils/index.ts:113-116 | an address of the described shape is accepted |
| Utils.ValidateYearWindow | lib/utils/index.ts:118-121 | as the current year advances a valid year stays valid; 1800 and current year + 10 are the inclusive ends of the window, 1799 and current year + 11 fall outside it |
| Utils.SortByCorrect | lib/utils/index.ts:123-136 | on keys of one kind (numbers and null, or strings), `sortBy` returns a permutation of its input in which no later element is JavaScript-`<` an earlier one (`>` for "desc"), null counting as 0, with equal keys in their input order |
| Utils.JsLessIsBefore | lib/utils/index.ts:132-133 | on two keys of one kind, the comparator's `<` test and its `>` test are the model's ascending and descending order |
| Utils.LookupsUseTables | lib/utils/index.ts:35-73 | each lookup gives the table value for a listed key and the default otherwise |
| Utils.UnlistedMediaTypes | lib/utils/index.ts:35-63 | "TV_SHOW" and "VIDEO_GAME" are not table keys, so they get the default icon and colour; every other type name is listed |
| Sorting.SortPermutes | lib/utils/index.ts:125 | the stable sort returns a permutation of its input |
| Sorting.SortOrders | lib/utils/index.ts:125-135 | no element of the result is followed by one that should come before it |
| Sorting.SortStable | lib/utils/index.ts:125-135 | elements with equal keys keep their relative order |
| JsText.SplitJoin | components/media/MediaCard.tsx:183 | for a non-empty list and a separator of one character, or of two different characters (such as ", "), splitting the joined list on the separator gives the list back when no element contains the separator |
| SearchRoute.QueryDefaults | app/api/search/route.ts:10-27 | with none of the read names present: q = "", page 1, limit 20, no filters, sortBy "title", sortDir "desc" |
| SearchRoute.ParseTypes | app/api/search/route.ts:16-40 | the type list is accepted iff every name is an enumeration name, and then each entry is the member with that name |
| SearchRoute.Filter | app/api/search/route.ts:62-72 | the matching items are exactly the store's items that satisfy the `where` predicate |
| SearchRoute.WhereMeansSatisfies | app/api/search/route.ts:30-52 | the built `where` holds of an item iff its title contains q ignoring case, its type is listed, its genre equals a listed genre, and its year lies within each given bound |
| SearchRoute.TypeMatch | app/api/search/route.ts:38-40 | a type is in the parsed list iff its name is in the requested list |
| SearchRoute.FilterCounts | app/api/search/route.ts:62-74 | the number of matching items equals the count of items satisfying the query |
| SearchRoute.Window | app/api/search/route.ts:62-72 | for a non-negative take, skip/take gives the slice [offset, offset+limit) clipped to the sequence, so at most `limit` items; a negative take gives at most `-take` items |
| SearchRoute.WindowFromEnd | app/api/search/route.ts:62-72 | a negative take gives the last `-take` items before the `skip` last ones, or nothing when `skip` passes the end |
| SearchRoute.WindowBackwards | app/api/search/route.ts:62-72 | a negative take is the positive window of the reversed sequence, reversed back |
| SearchRoute.WindowIsSlice | app/api/search/route.ts:62-72 | every window is a contiguous slice of its sequence |
| SearchRoute.TotalPages | app/api/search/route.ts:81 | `Math.ceil(total/limit)` is null (not finite) exactly when the limit is 0 |
| SearchRoute.TotalPagesCeil | app/api/search/route.ts:81 | with limit > 0, total ≤ totalPages·limit < total + limit, and at least one page for a non-empty result |
| SearchRoute.OrderedWindow | app/api/search/route.ts:57-72 | a window of an ordered sequence is ordered and holds only its elements |
| SearchRoute.ResultsSound | app/api/search/route.ts:57-82 | a result page's items are ordered by the sort key and all match; `total` counts all matches, independent of page and limit |
| SearchRoute.RunSound | app/api/search/route.ts:30-82 | every returned item satisfies every present filter; |items| ≤ total and |items| ≤ limit |
| SearchRoute.ResultsWindow | app/api/search/route.ts:57-72 | for every limit, the items are the window at `offset` of the ordered matches (`IsWindow`): [offset, offset+limit) for a non-negative limit, the last `-limit` before the `offset` last ones for a negative one |
| SearchRoute.RunWindow | app/api/search/route.ts:57-72 | for an accepted query and any limit, the offset (page−1)·limit is non-negative, a negative limit comes with page ≤ 1, and the items are the window at that offset of the ordered matches |
| SearchRoute.SearchFails | app/api/search/route.ts:10-88 | on the parameters as sent, the 500 reply occurs exactly when page or limit reads as NaN, a type name is unknown, a year bound reads as NaN, the sort column or direction is unknown, or (page − 1)·limit is negative |
| SearchRoute.SearchIsRun | app/api/search/route.ts:8-82 | the handler is the query it reads, run against the store |
| SearchRoute.GetFindsFirst | app/api/search/route.ts:10-27 | `searchParams.get` returns the value of the first pair with that name, or null |
| SearchRoute.SameReadsSameQuery | app/api/search/route.ts:10-27 | two parameter lists that agree on the read names give the same query |
| SearchRoute.UnreadParamsIgnored | app/api/search/route.ts:10-27 | a parameter the handler does not read never changes the reply |
| SearchRoute.ClientOnlyParamsIgnored | app/api/search/route.ts:54 | ratingMin, ratingMax, status and tags never change the reply |
| SearchRoute.AllSatisfy | app/api/search/route.ts:30-52 | with no restricting filter, every item counts |
| SearchRoute.NoFilterCountsAll | app/api/search/route.ts:33-52 | with no q, type, genre or year parameter, `total` is the size of the store |
| SearchRoute.GenreMatchIsWhole | app/api/search/route.ts:43-45 | a stored genre string matches only when some requested genre equals the whole string |
| Hooks.Append | lib/hooks/index.ts:61-83 | one conditional `params.append`: the pair is added at the end iff the condition holds |
| Hooks.AppendSearched | lib/hooks/index.ts:62-69 | the first four conditional appends of the filter block give the type, genre and year entries |
| Hooks.AppendOther | lib/hooks/index.ts:70-77 | the last four conditional appends give the rating, status and tags entries |
| Hooks.BuildSearchParams | lib/hooks/index.ts:55-83 | the list built by successive appends is the specified parameter list |
| Hooks.SearchParamsStart | lib/hooks/index.ts:55-59 | the list begins with q, page and limit, in that order |
| Hooks.DefaultsSent | lib/hooks/index.ts:48-49 | page and limit default to "1" and "20" |
| Hooks.SearchParamsSend | lib/hooks/index.ts:55-83 | each name carries what `search` promises: type, genre, status and tags comma-joined and only when non-empty; a bound only when truthy (0 is omitted); sortBy and sortDir iff a sort is given |
| Hooks.GetWithSort | lib/hooks/index.ts:80-83 | after the sort pair is appended every earlier entry still wins, and sortBy/sortDir are found only with a sort |
| Hooks.NoFilterSendsNothing | lib/hooks/index.ts:61 | without filters no filter parameter is sent |
| Hooks.SentToServer | lib/hooks/index.ts:55-83 | the values the list carries under each name the server reads |
| Hooks.ReadListBack | app/api/search/route.ts:16-17 | splitting the sent type or genre value on "," gives back the list when no element contains "," |
| Hooks.ReadBoundBack | app/api/search/route.ts:18-23 | the server reads back a sent year bound, and reads no bound when none was sent |
| Hooks.ServerReadsSearch | lib/hooks/index.ts:55-83 | the query the server reads is the one the client meant, with the server's own sort defaults for a missing or empty field |
| Hooks.Flip | lib/hooks/index.ts:136-144 | the id's membership is flipped and every other id keeps its membership |
| Hooks.FlipTwice | lib/hooks/index.ts:136-144 | two flips of the same id restore the set |
| Hooks.IdsOf | lib/hooks/index.ts:115-118 | the fetched set holds exactly the fetched ids |
| Hooks.FavoritesState.Toggle | lib/hooks/index.ts:125-153 | DELETE is sent for a member and POST otherwise; on success the set is flipped, otherwise unchanged; the result is the new membership |
| Hooks.FavoritesState.Fetch | lib/hooks/index.ts:111-123 | a successful response replaces the set by the fetched ids; a failure leaves it unchanged |
| Hooks.ToggleTwice | lib/hooks/index.ts:125-153 | two successful toggles of the same id send different verbs and restore the set |
| SearchPage.Without | app/search/page.tsx:74 | `filter(x => x !== t)` removes every occurrence of t and keeps every other element |
| SearchPage.ToggleTypeFlips | app/search/page.tsx:71-78 | a present type is removed, an absent one appended at the end; every other filter field is untouched |
| SearchPage.ToggleTypeTwice | app/search/page.tsx:74-76 | toggling an absent type twice restores the filter |
| SearchPage.SortRoundTrip | app/search/page.tsx:80-86 | splitting `${field}-${direction}` on "-" gives the field and direction back when neither contains "-" |
| SearchPage.SortOptionsRoundTrip | app/search/page.tsx:25-33 | every option of the sort select reads back to a sort that encodes to that option |
| SearchPage.ClearAllFilters | app/search/page.tsx:100-112 | clearing restores the initial filters and the sort createdAt/desc, after which no search is sent and the clear button's test reports no active filter |
| SearchPage.ActiveTestsAgree | app/search/page.tsx:57-119 | the "active filters" test and the search trigger agree: a non-empty query, a non-empty list, or a range with a key |
| SearchPage.ClearedYearStillSearches | app/search/page.tsx:207-211 | clearing "Year From" leaves a key whose value is undefined: the page still searches, yet no year bound is sent |
| SearchPage.PageTypeNames | app/search/page.tsx:13-23 | of the page's type values, exactly "SHOW" and "GAME" are not enumeration names |
| SearchPage.UnknownTypeRefused | app/api/search/route.ts:38-40 | a type list holding an unknown name is refused |
| SearchPage.PageShowOrGameFails | app/search/page.tsx:13-23 | a search whose type filter includes "SHOW" or "GAME" gets the 500 reply |
| StatsRoute.TimeRangeFilter | app/api/stats/route.ts:8-28 | a date bound applies iff the range is "6months" or "1year", with the matching cut-off; anything else, including absence, gives no bound |
| StatsRoute.FilterMedia | app/api/stats/route.ts:31-37 | the media read are exactly those the date filter admits |
| StatsRoute.NoBoundKeepsAll | app/api/stats/route.ts:14-37 | with no bound every media item is read, in store order |
| StatsRoute.CountRowsBounded | app/api/stats/route.ts:41-71 | a filtered count never exceeds the number of rows |
| StatsRoute.TallyByType | app/api/stats/route.ts:74-88 | the record starts with all nine types at 0; after the loop each type maps to the number of items of that type |
| StatsRoute.ByTypeKeysAreAllTypes | app/api/stats/route.ts:74-84 | the nine keys are distinct and cover every media type |
| StatsRoute.ByTypeSumsToTotal | app/api/stats/route.ts:74-88 | the nine counts sum to totalMedia |
| StatsRoute.Bump | app/api/stats/route.ts:119 | one increment adds a key at most |
| StatsRoute.CountNames | app/api/stats/route.ts:118-120 | the inner loop counts each name of one genre array in turn |
| StatsRoute.CountGenres | app/api/stats/route.ts:115-122 | the nested loop builds the tally of the genre names of the array genres, in order |
| StatsRoute.GenresOfStep | app/api/stats/route.ts:117 | an array genre adds its names to the counted names; any other genre adds nothing |
| StatsRoute.BumpKeys | app/api/stats/route.ts:119 | a new genre becomes the last key; a known one leaves the keys alone |
| StatsRoute.BumpCounts | app/api/stats/route.ts:119 | an increment raises only that genre's count, by one |
| StatsRoute.TallyKeys | app/api/stats/route.ts:115-122 | the keys are distinct and are exactly the names that occur |
| StatsRoute.TallyCounts | app/api/stats/route.ts:115-122 | each genre's count is its number of occurrences |
| StatsRoute.GenresOfAppend | app/api/stats/route.ts:116-122 | the counted names of two item lists are the concatenation of each list's names |
| StatsRoute.TextGenresCountNothing | app/api/stats/route.ts:117 | items whose genre is not an array contribute no genre |
| StatsRoute.CountOrder | app/api/stats/route.ts:126 | the comparator `b.count - a.count` puts a before b exactly when a's count is at least b's |
| StatsRoute.TopGenresRanked | app/api/stats/route.ts:124-127 | topGenres has min(10, genre count) entries, in non-increasing count order, each taken from genreCount; an entry left out counts no more than any kept entry |
| StatsRoute.Months | app/api/stats/route.ts:95-112 | 12 slots, oldest month first, the newest being the current month, each with the given count |
| StatsRoute.MonthlyActivity | app/api/stats/route.ts:95-112 | the loop's slots all carry the unfiltered media count |
| StatsRoute.Achievements | app/api/stats/route.ts:130-203 | twelve achievements in the source's order, each unlocked iff its threshold holds |
| StatsRoute.AchievementThresholds | app/api/stats/route.ts:130-203 | e.g. Getting Started iff totalMedia > 0, Bibliophile iff 10 books, Completionist iff 100 items, Genre Explorer iff 15 genres |
| StatsRoute.AchievementsMonotone | app/api/stats/route.ts:130-203 | raising any count never locks an unlocked achievement |
| StatsRoute.GetStats | app/api/stats/route.ts:5-220 | the handler's reply is the statistics function of the store and the selected filter |
| StatsRoute.StatsTotals | app/api/stats/route.ts:40-71 | the reply's counts are the filtered counts; totalMedia is the number of filtered media |
| StatsRoute.StatsMonthly | app/api/stats/route.ts:95-112 | the monthly slots do not depend on the time range |
| StatsRoute.FiveStarFanLocked | app/api/stats/route.ts:185-190 | byStatus and byRating are empty, so "Five Star Fan" is never unlocked |
| StatsRoute.TextGenresNoTopGenres | app/api/stats/route.ts:115-127 | when no genre is an array, topGenres is empty and "Genre Explorer" stays locked |
| StatsRoute.TallyFromMediaOnly | app/api/stats/route.ts:205-218 | totalMedia, byType, topGenres, the monthly slots and the media-based achievements depend on the media alone |
| WatchlistPage.PriorityRank | app/watchlist/page.tsx:20-25 | the ranks lie in 1..4 |
| WatchlistPage.RankOrder | app/watchlist/page.tsx:20-25 | URGENT > HIGH > MEDIUM > LOW, and different priorities have different ranks |
| WatchlistPage.Filtered | app/watchlist/page.tsx:52-55 | "ALL" gives the whole list; a priority gives exactly the items with that priority |
| WatchlistPage.FilteredAppend | app/watchlist/page.tsx:52-55 | the filter keeps relative order |
| WatchlistPage.FilteredMultiplicity | app/watchlist/page.tsx:52-55 | each item with the priority is kept as often as it occurs, and no other item is kept |
| WatchlistPage.FilteredLength | app/watchlist/page.tsx:52-55 | the filtered length is the priority count, never more than the total |
| WatchlistPage.WatchKeyOrder | app/watchlist/page.tsx:58-60 | the comparator puts a before b exactly when a's rank is higher, or equal with a createdAt no older |
| WatchlistPage.SortedWatchlistOrder | app/watchlist/page.tsx:57-61 | sortedWatchlist is a permutation of the filtered list, by rank and then newest first |
| WatchlistPage.SortedWatchlistStable | app/watchlist/page.tsx:57-61 | items that tie on both keys keep their relative order |
| WatchlistPage.WatchlistMedia | app/watchlist/page.tsx:63 | the media list has the sorted list's length and order |
| WatchlistPage.PriorityStatsSum | app/watchlist/page.tsx:65-70 | the four counts of the unfiltered list sum to its length |
| WatchlistPage.PriorityStatsMatchFilter | app/watchlist/page.tsx:65-70 | each count is the length of the list filtered by that priority |
| FavoritesRoute.PostReply | app/api/favorites/route.ts:31-75 | a falsy mediaId gives 400 "Media ID is required"; an existing (1, mediaId) row gives 400 "Already in favorites"; otherwise a row (next id, user 1, mediaId) is created, uniquely when the id parses and names a media item; every other reply of a truthy mediaId is 500 "Failed to add to favorites" |
| FavoritesRoute.RemoveFavorite | app/api/favorites/route.ts:88-93 | `deleteMany` keeps exactly the rows other than user 1's rows for the media id |
| FavoritesRoute.DeleteReply | app/api/favorites/route.ts:77-103 | falsy → 400 "Media ID is required"; success whenever the id parses, even with nothing to delete |
| FavoritesRoute.RowsOf | app/api/favorites/route.ts:9-12 | exactly the given user's rows |
| FavoritesRoute.FavoritesTable.constructor | app/api/favorites/route.ts:5 | an empty table satisfying the invariant |
| FavoritesRoute.FavoritesTable.Post | app/api/favorites/route.ts:31-75 | the reply and the new rows are those of the specification; the invariant (distinct ids, one row per user-1 media id) is kept |
| FavoritesRoute.FavoritesTable.Delete | app/api/favorites/route.ts:77-103 | the reply and the new rows are those of the specification; the invariant is kept |
| FavoritesRoute.FavoritesTable.Get | app/api/favorites/route.ts:7-29 | the reply lists user 1's rows sorted by id descending |
| FavoritesRoute.PostKeepsWellFormed | app/api/favorites/route.ts:43-65 | creating keeps at most one row per (1, mediaId) and distinct ids |
| FavoritesRoute.RemoveKeepsWellFormed | app/api/favorites/route.ts:88-93 | deleting keeps the invariant |
| FavoritesRoute.PostTwice | app/api/favorites/route.ts:43-67 | two successive POSTs of a media id give 201 and then 400 "Already in favorites" |
| FavoritesRoute.RemoveAbsent | app/api/favorites/route.ts:88-93 | deleting a media id that is no favourite changes nothing |
| FavoritesRoute.RemoveLeavesNone | app/api/favorites/route.ts:88-93 | after deleting, no row for (1, mediaId) remains |
| FavoritesRoute.DeleteIdempotent | app/api/favorites/route.ts:88-95 | deleting twice is deleting once |
| FavoritesRoute.RemoveAppend | app/api/favorites/route.ts:88-93 | deleting distributes over a row appended at the end |
| FavoritesRoute.PostThenDelete | app/api/favorites/route.ts:31-103 | a created favourite deleted again restores the rows |
| FavoritesRoute.ListingOrder | app/api/favorites/route.ts:9-19 | GET lists exactly user 1's rows, each once, in strictly decreasing id order |
| FavoritesRoute.RowsOfWellFormed | app/api/favorites/route.ts:9-12 | user 1's rows have distinct ids |
| WatchlistRoute.PriorityValue | app/api/watchlist/route.ts:70 | a priority is stored iff it is a text naming a priority |
| WatchlistRoute.NotesValue | app/api/watchlist/route.ts:71 | notes are stored as text, or as null for null; other JSON types are refused |
| WatchlistRoute.PostReply | app/api/watchlist/route.ts:35-86 | falsy → 400 "Media ID is required"; an existing (1, mediaId) key → 400 "Already in watchlist"; otherwise an entry with priority defaulting to "MEDIUM" and notes to "" is created (201), and every other reply of a truthy mediaId is 500 "Failed to add to watchlist" |
| WatchlistRoute.DeleteReply | app/api/watchlist/route.ts:88-117 | falsy → 400; success iff the key exists; otherwise 500 "Failed to remove from watchlist" |
| WatchlistRoute.AfterDelete | app/api/watchlist/route.ts:100-107 | a successful delete removes exactly the keyed entry; a failed one changes nothing |
| WatchlistRoute.Patched | app/api/watchlist/route.ts:130-132 | only the supplied fields change; the id and createdAt stay |
| WatchlistRoute.PatchReply | app/api/watchlist/route.ts:119-156 | falsy → 400; updated iff the key exists and the supplied values are acceptable, the updated entry carrying each supplied priority and notes value; otherwise 500 "Failed to update watchlist item" |
| WatchlistRoute.UserEntries | app/api/watchlist/route.ts:11-14 | exactly user 1's entries, unchanged |
| WatchlistRoute.UpdateData | app/api/watchlist/route.ts:130-132 | the conditional assignments give each supplied field, or none when undefined, and flag an unacceptable value |
| WatchlistRoute.WatchlistTable.constructor | app/api/watchlist/route.ts:6 | an empty table satisfying the invariant |
| WatchlistRoute.WatchlistTable.Post | app/api/watchlist/route.ts:35-86 | the reply and the new map are those of the specification; the invariant (entry ids distinct and below the next id) is kept |
| WatchlistRoute.WatchlistTable.Delete | app/api/watchlist/route.ts:88-117 | the reply and the new map are those of the specification |
| WatchlistRoute.WatchlistTable.Patch | app/api/watchlist/route.ts:119-156 | the reply and the new map are those of the specification |
| WatchlistRoute.WatchlistTable.Get | app/api/watchlist/route.ts:8-33 | the reply holds user 1's entries |
| WatchlistRoute.PostTwice | app/api/watchlist/route.ts:48-78 | after a creation, a second POST of the same id gives 400 "Already in watchlist" |
| WatchlistRoute.PostDefaults | app/api/watchlist/route.ts:37-78 | without priority and notes, the entry is created with MEDIUM and "" |
| WatchlistRoute.PostKeepsWellFormed | app/api/watchlist/route.ts:50-78 | a creation keeps the invariant |
| WatchlistRoute.PostThenDelete | app/api/watchlist/route.ts:35-117 | deleting a fresh entry succeeds and restores the map |
| WatchlistRoute.DeleteTwice | app/api/watchlist/route.ts:100-115 | a second delete of the same key fails with 500 "Failed to remove from watchlist" |
| WatchlistRoute.PatchKeepsWellFormed | app/api/watchlist/route.ts:135-146 | replacing an entry by one with the same id keeps the invariant |
| WatchlistRoute.PatchChangesOnlySupplied | app/api/watchlist/route.ts:130-146 | an update changes only the supplied fields of that entry and nothing else in the store |
| WatchlistRoute.PatchIdempotent | app/api/watchlist/route.ts:130-146 | repeating the same update changes nothing more |
| AddReviewRoute.CommentValue | app/api/add-review/route.ts:32 | a falsy comment is stored as null; a non-empty text is stored as itself; any other truthy value is refused by the storage layer |
| AddReviewRoute.Insert | app/api/add-review/route.ts:28-79 | the review (next id, parseInt(mediaId), parseInt(rating), comment, public, user 1) is created when the values parse and name a media item; otherwise 500 "Failed to create review" with the details |
| AddReviewRoute.PostReplyAsWritten | app/api/add-review/route.ts:12-47 | the handler as written: falsy mediaId or rating → 400 "Media ID and rating are required"; `rating < 1 \|\| rating > 10` → 400 "Rating must be between 1 and 10"; else the insert |
| AddReviewRoute.PostReply | app/api/add-review/route.ts:12-47 | the corrected handler: the same checks, and also a parsed rating outside 1..10 is refused; every created review has a rating in 1..10, isPublic true and userId 1 |
| AddReviewRoute.CorrectionOnlyRefuses | app/api/add-review/route.ts:20-25 | the corrected handler agrees with the source except that it turns some creations into the range 400 |
| AddReviewRoute.ZeroRatingIsMissing | app/api/add-review/route.ts:12-17 | a rating of 0 hits the "required" check, not the range check |
| AddReviewRoute.NumericRatingStored | app/api/add-review/route.ts:20-31 | a numeric rating in [1, 10] is accepted and stored truncated, an integer in 1..10 |
| AddReviewRoute.RatingGuardBypassed | app/api/add-review/route.ts:20-31 | the rating "15abc" passes the range check as written and is stored as 15; the corrected handler refuses it with 400 |
| AddReviewRoute.ReviewsTable.constructor | app/api/add-review/route.ts:28 | an empty review table |
| AddReviewRoute.ReviewsTable.Post | app/api/add-review/route.ts:4-80 | the reply is the corrected handler's; a created review is appended and nothing else changes |
| AddReviewRoute.NoDuplicateCheck | app/api/add-review/route.ts:28-47 | the same request accepted again creates a second review, identical but for its id |
| MediaRoute.ThrownOnlyInDetails | app/api/media/route.ts:95-100 | what was caught changes only the 500 reply's details: the same body gives the same reply, or the same 500 error with each catch's own details, which differ for an `Error` and a non-`Error` value |
| MediaRoute.GenreValue | app/api/media/route.ts:61 | an array is joined with ", ", a text is kept, a falsy genre becomes "" |
| MediaRoute.IntField | app/api/media/route.ts:69-78 | a truthy value becomes its parseInt (refused when NaN); a falsy one becomes null |
| MediaRoute.RealField | app/api/media/route.ts:70 | a falsy rating becomes null |
| MediaRoute.TextField | app/api/media/route.ts:72-82 | a falsy optional text becomes null; a non-empty text is kept |
| MediaRoute.StatusValue | app/api/media/route.ts:71 | a missing or empty status becomes RELEASED |
| MediaRoute.PostReply | app/api/media/route.ts:26-124 | falsy title or type → 400 "Title and type are required"; otherwise 201 exactly when the body normalises, with the normalised item, else 500 "Failed to create media item" with the details |
| MediaRoute.MediaTable.constructor | app/api/media/route.ts:64 | an empty media table |
| MediaRoute.MediaTable.Post | app/api/media/route.ts:26-124 | the reply is the specification's; a created item is appended and nothing else changes |
| MediaRoute.MediaTable.Get | app/api/media/route.ts:5-24 | the reply lists the items sorted by id descending |
| MediaRoute.ListingOrder | app/api/media/route.ts:7-15 | the listing is a permutation of the items with non-increasing ids |
| MediaRoute.IdOrder | app/api/media/route.ts:12-14 | ordering by the id key descending puts a first exactly when its id is at least b's |
| MediaRoute.CreatedDefaults | app/api/media/route.ts:61-83 | a created item has the next id, the joined genre, a known status (RELEASED by default), null for each falsy optional field (rating, the seven text fields and the five integer fields), parseInt of each truthy integer field, and createdAt = updatedAt = now |
| MediaRoute.GenreRoundTrip | app/api/media/route.ts:61 | a stored genre list whose names contain no ", " is recovered by splitting on ", " |
| MediaRoute.JoinLonger | app/api/media/route.ts:61 | a joined list of two or more names is longer than each name |
| MediaRoute.JoinedGenresNotFoundByName | app/api/media/route.ts:61 | an item created with two or more genres is not found by searching for its own genre names |

## Left out

- Rendering, React state plumbing and every page other than the search and watchlist helpers.
- `debounce`, `useDebounce`, `useLocalStorage`, `formatDate`, `formatDateTime` and `cn` in lib/utils/index.ts and lib/hooks/index.ts: they need timers, browser storage, `Intl` or foreign libraries.
- `fetch` in the hooks: the response is a parameter (an `ok` flag, or the fetched ids).
- The percent-encoding of URLSearchParams (WHATWG URL Standard, section 5.2). Parameters are an ordered list of pairs.
- Date arithmetic: the stats cut-offs (`new Date(y, m-6, d)` and its month overflow) are parameters. The `toLocaleDateString` month labels are left out; a slot carries how many months ago it is.
- Floating point: a rating is a real; `parseFloat` is exact decimal arithmetic.
- Unicode: case mapping and `\w` are ASCII; `\s` is JavaScript's white-space set; a string is a sequence of code points, so `TruncateText`'s length and slice count code points where JavaScript counts UTF-16 units.
- `Number()` of "Infinity", "0b…" and "0o…" literals is not modelled (it is None, as for NaN). None of the handlers' guards depends on it except for such inputs.
- Prisma internals: the 32-bit Int range, `include` joins, cascades, and the SQL enum order of `orderBy priority`. `request.json()` failing on a malformed body is left out.
- The check-then-insert races of the favourites and watchlist POST handlers: calls are sequential.
- WatchlistRoute.WatchlistTable.Get: returns user 1's entries as a map, without the `orderBy [priority desc, createdAt desc]` order, which is the database's enum order.
- WatchlistRoute.PatchReply: `updatedAt` is not modelled, and a schema check beyond "text or null for notes, a priority name for priority" is not part of this model.
- StatsRoute.CountGenres: the key order of `Object.entries` puts integer-like keys first and treats inherited names such as "constructor" specially. The model keeps insertion order for every key.
- StatsRoute.GetStats: the 500 reply "Failed to fetch stats" is left out; the storage reads in the model cannot fail.
- StatsRoute.GetStats: `byType[media.type]++` on a type outside the nine keys would add a NaN key; stored types are always enum members here.
- SearchRoute.Run: `sortBy` may name any column of the item the storage layer knows; the model supports the item's fields and refuses other names, as the storage layer does.
- Utils.StarRatingShape: ratings are reals; the negative repeat count for a rating of 11 or more is a RangeError, and the model says only that no result exists then.
- JsValue.ParseIntOf: a number whose `String` form uses an exponent (a non-zero magnitude below 1e-6, or 1e21 and above) is read as its truncation, whereas `parseInt` reads only the mantissa's leading digits (5e-7 gives 5, 1e21 gives 1).
- Utils.SortBy: the omitted direction is `DefaultSortDirection`, "asc". The model requires keys of one kind; a comparator over numbers mixed with strings is inconsistent and the resulting order depends on the engine's sort. Strings compare by code point, where JavaScript compares UTF-16 units.
- The storage layer's order: ties of an `orderBy` keep store order (SearchRoute.ResultsWindow, SearchRoute.Results and the tables' Get methods), which SQL leaves unspecified; text columns compare by character code rather than the database's collation.
- Ids of refused inserts: in the favourites, watchlist and review tables a foreign-key refusal leaves `nextId` unchanged, whereas a database sequence would still advance.
- StatsRoute achievements: the `icon` string of each achievement is presentation only and is not modelled; titles, descriptions and the unlock tests are.
- Utils.LookupsUseTables: the tables are plain object literals, so a name inherited from `Object.prototype` ("constructor", "toString", "__proto__") finds a truthy non-string value, which the lookups return; the model gives such names the default.
- User 1: every handler writes `userId: 1` and the model takes that user to exist; a missing user row would be a foreign-key refusal like a missing media item.
- JsValue.Value: a JSON object, and an array holding anything but strings, are not modelled. The handlers accept them: `mediaId: {}` is truthy and `parseInt` reads it as NaN, so the reply is 500; `genre: [null, "Drama"]` is joined to ", Drama" and stored.
- The collection, dashboard and add-media routes, prisma/seed.ts and test-api.js are not part of this model.

## Findings

| source | as written | input that shows it | evidently intended | confidence | as-written member | corrected member |
|---|---|---|---|---|---|---|
| app/api/add-review/route.ts:20-31 | the range check compares the raw rating with `Number` semantics, but the stored value is `parseInt(rating)` | rating "15abc": `Number("15abc")` is NaN, so neither `< 1` nor `> 10` holds, and `parseInt` stores 15 | a stored rating always lies in 1..10 | not executed | AddReviewRoute.PostReplyAsWritten, AddReviewRoute.RatingGuardBypassed | AddReviewRoute.PostReply |
