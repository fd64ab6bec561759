/**
 * The statistics handler of app/api/stats/route.ts: the time range, the
 * per-type tally, the genre count and its top ten, the twelve monthly slots
 * and the achievements. The clock enters as the two cutoffs the handler
 * would compute from it; storage counts are counts over rows of the tables.
 */
module StatsRoute {
  import opened Wrappers
  import opened Sorting
  import opened Types

  /** A row of a table the handler counts: its owner and its creation instant. */
  datatype Row = Row(userId: int, createdAt: int)

  /** What the handler reads from storage. */
  datatype Database = Database(
    media: seq<MediaItem>,
    favorites: seq<Row>,
    watchlist: seq<Row>,
    collections: seq<Row>,
    reviews: seq<Row>,
    tags: nat)

  /** `dateFilter`: nothing, or `createdAt >= cutoff`. */
  datatype DateFilter = NoBound | Since(cutoff: int)

  /**
   * The filter for a `timeRange` parameter (missing or empty reads as "all"):
   * `sixMonthsAgo` and `oneYearAgo` are the instants the handler derives from
   * the current date.
   */
  function TimeRangeFilter(timeRange: Option<string>, sixMonthsAgo: int, oneYearAgo: int): (r: DateFilter)
    ensures r != NoBound <==> timeRange == Some("6months") || timeRange == Some("1year")
    ensures timeRange == Some("6months") ==> r == Since(sixMonthsAgo)
    ensures timeRange == Some("1year") ==> r == Since(oneYearAgo)
  {
    var range := if timeRange.Some? && timeRange.value != "" then timeRange.value else "all";
    if range == "6months" then Since(sixMonthsAgo)
    else if range == "1year" then Since(oneYearAgo)
    else NoBound
  }

  predicate Admits(f: DateFilter, createdAt: int) {
    f.NoBound? || createdAt >= f.cutoff
  }

  /** `findMany({ where: dateFilter })`, in store order. */
  function FilterMedia(media: seq<MediaItem>, f: DateFilter): (r: seq<MediaItem>)
    ensures |r| <= |media|
    ensures forall m :: m in r <==> m in media && Admits(f, m.createdAt)
  {
    if media == [] then []
    else
      var rest := FilterMedia(media[1..], f);
      assert forall m :: m in media <==> m == media[0] || m in media[1..];
      if Admits(f, media[0].createdAt) then [media[0]] + rest else rest
  }

  /** Without a bound every item is taken. */
  lemma {:induction false} NoBoundKeepsAll(media: seq<MediaItem>)
    ensures FilterMedia(media, NoBound) == media
  {
    if media != [] {
      NoBoundKeepsAll(media[1..]);
      assert media == [media[0]] + media[1..];
    }
  }

  /** `count({ where: { userId: 1, ...dateFilter } })`. */
  function CountRows(rows: seq<Row>, f: DateFilter): nat {
    if rows == [] then 0
    else (if rows[0].userId == 1 && Admits(f, rows[0].createdAt) then 1 else 0) + CountRows(rows[1..], f)
  }

  lemma {:induction false} CountRowsBounded(rows: seq<Row>, f: DateFilter)
    ensures CountRows(rows, f) <= |rows|
  {
    if rows != [] { CountRowsBounded(rows[1..], f); }
  }

  // ---------------------------------------------------------------- byType

  /** The keys of `byType`, in the order of its literal. */
  const ByTypeKeys: seq<MediaType> := [MOVIE, TV_SHOW, BOOK, PODCAST, VIDEO_GAME, AUDIOBOOK, DOCUMENTARY, ANIME, MANGA]

  /** The number of items of type `t`. */
  function CountType(items: seq<MediaItem>, t: MediaType): nat {
    if items == [] then 0
    else CountType(items[..|items| - 1], t) + (if items[|items| - 1].mediaType == t then 1 else 0)
  }

  /** `byType` after the `forEach`: one increment per item, on its own type. */
  method TallyByType(items: seq<MediaItem>) returns (byType: map<MediaType, nat>)
    ensures forall t :: t in byType && byType[t] == CountType(items, t)
  {
    ByTypeKeysAreAllTypes();
    byType := map t | t in ByTypeKeys :: 0;
    var i := 0;
    while i < |items|
      invariant 0 <= i <= |items|
      invariant forall t :: t in byType && byType[t] == CountType(items[..i], t)
    {
      assert items[..i + 1][..i] == items[..i];
      var t := items[i].mediaType;
      byType := byType[t := byType[t] + 1];
      i := i + 1;
    }
    assert items[..i] == items;
  }

  /** The counts of the keys of `keys`, added up. */
  function SumCounts(keys: seq<MediaType>, items: seq<MediaItem>): nat {
    if keys == [] then 0 else CountType(items, keys[0]) + SumCounts(keys[1..], items)
  }

  predicate Distinct<T(==)>(s: seq<T>) {
    forall i, j :: 0 <= i < j < |s| ==> s[i] != s[j]
  }

  lemma {:induction false} SumCountsEmpty(keys: seq<MediaType>)
    ensures SumCounts(keys, []) == 0
  {
    if keys != [] { SumCountsEmpty(keys[1..]); }
  }

  /** One more item adds one to the sum exactly when its type is one of `keys`. */
  lemma {:induction false} SumCountsStep(keys: seq<MediaType>, items: seq<MediaItem>)
    requires items != [] && Distinct(keys)
    ensures SumCounts(keys, items)
         == SumCounts(keys, items[..|items| - 1]) + (if items[|items| - 1].mediaType in keys then 1 else 0)
  {
    if keys != [] {
      assert Distinct(keys[1..]);
      SumCountsStep(keys[1..], items);
      assert keys == [keys[0]] + keys[1..];
      if items[|items| - 1].mediaType == keys[0] {
        assert keys[0] !in keys[1..];
      }
    }
  }

  /** The nine counts add up to the number of items, `totalMedia`. */
  lemma {:induction false} ByTypeSumsToTotal(items: seq<MediaItem>)
    ensures SumCounts(ByTypeKeys, items) == |items|
  {
    ByTypeKeysAreAllTypes();
    if items == [] {
      SumCountsEmpty(ByTypeKeys);
    } else {
      ByTypeSumsToTotal(items[..|items| - 1]);
      SumCountsStep(ByTypeKeys, items);
    }
  }

  /** `byType` has exactly the nine media types as keys. */
  lemma ByTypeKeysAreAllTypes()
    ensures forall t :: t in ByTypeKeys
    ensures |ByTypeKeys| == 9
    ensures Distinct(ByTypeKeys)
  {
    forall t ensures t in ByTypeKeys {
      match t
      case MOVIE => assert ByTypeKeys[0] == t;
      case TV_SHOW => assert ByTypeKeys[1] == t;
      case BOOK => assert ByTypeKeys[2] == t;
      case PODCAST => assert ByTypeKeys[3] == t;
      case VIDEO_GAME => assert ByTypeKeys[4] == t;
      case AUDIOBOOK => assert ByTypeKeys[5] == t;
      case DOCUMENTARY => assert ByTypeKeys[6] == t;
      case ANIME => assert ByTypeKeys[7] == t;
      case MANGA => assert ByTypeKeys[8] == t;
    }
  }

  // ---------------------------------------------------------------- genres

  /** An entry of `genreCount` (and of `topGenres`). */
  datatype GenreEntry = GenreEntry(genre: string, count: nat)

  /** The genre names an item contributes: only an array genre counts. */
  function NamesOf(m: MediaItem): seq<string> {
    if m.genre.GenreList? then m.genre.names else []
  }

  /** The genre names of all items, in the order the nested loops visit them. */
  function GenresOf(items: seq<MediaItem>): seq<string> {
    if items == [] then [] else GenresOf(items[..|items| - 1]) + NamesOf(items[|items| - 1])
  }

  function Keys(gc: seq<GenreEntry>): seq<string> {
    if gc == [] then [] else [gc[0].genre] + Keys(gc[1..])
  }

  /** `genreCount[genre] || 0`. */
  function CountOf(gc: seq<GenreEntry>, g: string): nat {
    if gc == [] then 0 else if gc[0].genre == g then gc[0].count else CountOf(gc[1..], g)
  }

  /** `genreCount[genre] = (genreCount[genre] || 0) + 1`; a new key goes last. */
  function Bump(gc: seq<GenreEntry>, g: string): (r: seq<GenreEntry>)
    ensures |r| == |gc| || |r| == |gc| + 1
  {
    if gc == [] then [GenreEntry(g, 1)]
    else if gc[0].genre == g then [GenreEntry(g, gc[0].count + 1)] + gc[1..]
    else [gc[0]] + Bump(gc[1..], g)
  }

  /** The record the loops leave after visiting `names` in order. */
  function Tally(names: seq<string>): seq<GenreEntry> {
    if names == [] then [] else Bump(Tally(names[..|names| - 1]), names[|names| - 1])
  }

  lemma GenresOfStep(items: seq<MediaItem>, i: nat)
    requires i < |items|
    ensures items[i].genre.GenreList? ==> GenresOf(items[..i + 1]) == GenresOf(items[..i]) + items[i].genre.names
    ensures !items[i].genre.GenreList? ==> GenresOf(items[..i + 1]) == GenresOf(items[..i])
  {
    assert items[..i + 1][..i] == items[..i];
    assert GenresOf(items[..i]) + [] == GenresOf(items[..i]);
  }

  lemma TallyStep(done: seq<string>, names: seq<string>, j: nat)
    requires j < |names|
    ensures Tally(done + names[..j + 1]) == Bump(Tally(done + names[..j]), names[j])
  {
    assert (done + names[..j + 1])[..|done| + j] == done + names[..j];
  }

  /** The inner `forEach`: the names of one item, counted on top of the record for `done`. */
  method CountNames(genreCount: seq<GenreEntry>, names: seq<string>, ghost done: seq<string>)
    returns (counted: seq<GenreEntry>)
    requires genreCount == Tally(done)
    ensures counted == Tally(done + names)
  {
    counted := genreCount;
    var j := 0;
    assert done + names[..0] == done;
    while j < |names|
      invariant 0 <= j <= |names|
      invariant counted == Tally(done + names[..j])
    {
      TallyStep(done, names, j);
      counted := Bump(counted, names[j]);
      j := j + 1;
    }
    assert names[..j] == names;
  }

  /** The nested `forEach`: every array genre of every item, counted in place. */
  method CountGenres(items: seq<MediaItem>) returns (genreCount: seq<GenreEntry>)
    ensures genreCount == Tally(GenresOf(items))
  {
    genreCount := [];
    var i := 0;
    while i < |items|
      invariant 0 <= i <= |items|
      invariant genreCount == Tally(GenresOf(items[..i]))
    {
      GenresOfStep(items, i);
      if items[i].genre.GenreList? {
        genreCount := CountNames(genreCount, items[i].genre.names, GenresOf(items[..i]));
      }
      i := i + 1;
    }
    assert items[..i] == items;
  }

  lemma {:induction false} BumpKeys(gc: seq<GenreEntry>, g: string)
    ensures g in Keys(gc) ==> Keys(Bump(gc, g)) == Keys(gc)
    ensures g !in Keys(gc) ==> Keys(Bump(gc, g)) == Keys(gc) + [g]
  {
    if gc != [] && gc[0].genre != g {
      BumpKeys(gc[1..], g);
    }
  }

  lemma {:induction false} BumpCounts(gc: seq<GenreEntry>, g: string, h: string)
    ensures CountOf(Bump(gc, g), h) == CountOf(gc, h) + (if g == h then 1 else 0)
  {
    if gc != [] && gc[0].genre != g {
      BumpCounts(gc[1..], g, h);
    }
  }

  /** The keys of the counted record are the distinct names, in order of first occurrence. */
  lemma {:induction false} TallyKeys(names: seq<string>)
    ensures Distinct(Keys(Tally(names)))
    ensures forall g :: g in Keys(Tally(names)) <==> g in names
  {
    if names != [] {
      var init, last := names[..|names| - 1], names[|names| - 1];
      TallyKeys(init);
      BumpKeys(Tally(init), last);
      assert names == init + [last];
    }
  }

  /** Each genre is counted once per occurrence; one never seen counts 0. */
  lemma {:induction false} TallyCounts(names: seq<string>, g: string)
    ensures CountOf(Tally(names), g) == multiset(names)[g]
  {
    if names != [] {
      var init, last := names[..|names| - 1], names[|names| - 1];
      TallyCounts(init, g);
      BumpCounts(Tally(init), last, g);
      assert names == init + [last];
    }
  }

  lemma {:induction false} GenresOfAppend(items: seq<MediaItem>, more: seq<MediaItem>)
    ensures GenresOf(items + more) == GenresOf(items) + GenresOf(more)
    decreases |more|
  {
    if more == [] {
      assert items + more == items;
    } else {
      var init, last := more[..|more| - 1], more[|more| - 1];
      SplitLast(items, more);
      GenresOfAppend(items, init);
      GenresOfSnoc(items + init, last);
      GenresOfSnoc(init, last);
      ConcatAssoc(GenresOf(items), GenresOf(init), NamesOf(last));
    }
  }

  lemma SplitLast(items: seq<MediaItem>, more: seq<MediaItem>)
    requires more != []
    ensures items + more == (items + more[..|more| - 1]) + [more[|more| - 1]]
    ensures more == more[..|more| - 1] + [more[|more| - 1]]
  {
  }

  lemma GenresOfSnoc(items: seq<MediaItem>, m: MediaItem)
    ensures GenresOf(items + [m]) == GenresOf(items) + NamesOf(m)
  {
    assert (items + [m])[..|items + [m]| - 1] == items;
  }

  lemma ConcatAssoc(a: seq<string>, b: seq<string>, c: seq<string>)
    ensures a + b + c == a + (b + c)
  {
  }

  /** An item whose genre is text (which is how the media handler stores it) adds no genre. */
  lemma {:induction false} TextGenresCountNothing(items: seq<MediaItem>)
    requires forall i :: 0 <= i < |items| ==> !items[i].genre.GenreList?
    ensures GenresOf(items) == [] && Tally(GenresOf(items)) == []
  {
    if items != [] {
      TextGenresCountNothing(items[..|items| - 1]);
    }
  }

  // ---------------------------------------------------------------- topGenres

  function CountKey(e: GenreEntry): Key {
    [Sorting.Num(e.count as real)]
  }

  /** `Object.entries(genreCount)…sort((a, b) => b.count - a.count).slice(0, 10)`. */
  function TopGenres(gc: seq<GenreEntry>): seq<GenreEntry> {
    var sorted := Sort(gc, CountKey, Desc);
    SortPermutes(gc, CountKey, Desc);
    sorted[..if |sorted| < 10 then |sorted| else 10]
  }

  lemma CountOrder(a: GenreEntry, b: GenreEntry)
    ensures !Before(Desc, CountKey(b), CountKey(a)) <==> a.count >= b.count
  {
    var ka, kb := CountKey(a), CountKey(b);
    assert ka[1..] == [] && kb[1..] == [];
    assert KeyLess(ka, kb) <==> AtomLess(ka[0], kb[0]);
    assert AtomLess(ka[0], kb[0]) <==> (a.count as real) < (b.count as real);
  }

  /**
   * At most ten entries, in non-increasing count order, each one an entry of
   * the record; and every entry left out counts no more than any kept one.
   */
  lemma TopGenresRanked(gc: seq<GenreEntry>)
    ensures |TopGenres(gc)| == if |gc| < 10 then |gc| else 10
    ensures forall i, j :: 0 <= i < j < |TopGenres(gc)| ==> TopGenres(gc)[i].count >= TopGenres(gc)[j].count
    ensures forall e :: e in TopGenres(gc) ==> e in gc
    ensures forall e, i :: e in gc && e !in TopGenres(gc) && 0 <= i < |TopGenres(gc)| ==> e.count <= TopGenres(gc)[i].count
  {
    var sorted := Sort(gc, CountKey, Desc);
    SortPermutes(gc, CountKey, Desc);
    SortOrders(gc, CountKey, Desc);
    var top := TopGenres(gc);
    assert top == sorted[..|top|];
    forall i, j | 0 <= i < j < |top| ensures top[i].count >= top[j].count {
      CountOrder(sorted[i], sorted[j]);
    }
    forall e | e in top ensures e in gc {
      assert e in multiset(sorted);
    }
    forall e, i | e in gc && e !in top && 0 <= i < |top| ensures e.count <= top[i].count {
      assert e in multiset(sorted);
      var j :| 0 <= j < |sorted| && sorted[j] == e;
      assert j >= |top|;
      CountOrder(sorted[i], sorted[j]);
    }
  }

  // ---------------------------------------------------------------- monthlyActivity

  /** One slot of `monthlyActivity`: how many months back it lies and its count (labels are left out). */
  datatype MonthSlot = MonthSlot(monthsAgo: nat, count: nat)

  /** Twelve slots, oldest month first, each holding `count`. */
  function Months(count: nat): (r: seq<MonthSlot>)
    ensures |r| == 12
    ensures forall k :: 0 <= k < 12 ==> r[k].count == count
    ensures forall k :: 0 <= k < 11 ==> r[k].monthsAgo == r[k + 1].monthsAgo + 1
    ensures r[11].monthsAgo == 0
  {
    seq(12, k requires 0 <= k < 12 => MonthSlot(11 - k, count))
  }

  /** The `for (i = 11; i >= 0; i--)` loop: one unfiltered media count per month. */
  method MonthlyActivity(db: Database) returns (monthly: seq<MonthSlot>)
    ensures monthly == Months(|db.media|)
  {
    monthly := [];
    var i := 11;
    while i >= 0
      invariant -1 <= i <= 11
      invariant |monthly| == 11 - i
      invariant forall k :: 0 <= k < |monthly| ==> monthly[k] == MonthSlot(11 - k, |db.media|)
    {
      var count := |db.media|;
      monthly := monthly + [MonthSlot(i, count)];
      i := i - 1;
    }
  }

  // ---------------------------------------------------------------- achievements

  datatype Achievement = Achievement(title: string, description: string, unlocked: bool)

  /** The counts the achievement thresholds read. */
  datatype Counts = Counts(
    totalMedia: nat,
    books: nat,
    movies: nat,
    tvShows: nat,
    videoGames: nat,
    collectionCount: nat,
    reviewCount: nat,
    tagCount: nat,
    fiveStars: nat,
    genreKinds: nat,
    watchlistCount: nat)

  /** The titles and descriptions of the handler's achievement literal, in order (icons are left out). */
  const AchievementTexts: seq<(string, string)> := [
    ("Getting Started", "Add your first media item"),
    ("Bibliophile", "Add 10 books to your library"),
    ("Movie Buff", "Add 25 movies to your library"),
    ("TV Addict", "Add 15 TV shows to your library"),
    ("Gamer", "Add 20 video games to your library"),
    ("Curator", "Create 5 collections"),
    ("Critic", "Write 10 reviews"),
    ("Organized", "Use 20 different tags"),
    ("Completionist", "Have 100 items in your library"),
    ("Five Star Fan", "Rate 5 items with 5 stars"),
    ("Genre Explorer", "Explore 15 different genres"),
    ("Wishlist Warrior", "Have 50 items in your watchlist")]

  /** The `unlocked` test of the `k`-th achievement. */
  predicate Unlocked(c: Counts, k: nat) {
    if k == 0 then c.totalMedia > 0
    else if k == 1 then c.books >= 10
    else if k == 2 then c.movies >= 25
    else if k == 3 then c.tvShows >= 15
    else if k == 4 then c.videoGames >= 20
    else if k == 5 then c.collectionCount >= 5
    else if k == 6 then c.reviewCount >= 10
    else if k == 7 then c.tagCount >= 20
    else if k == 8 then c.totalMedia >= 100
    else if k == 9 then c.fiveStars >= 5
    else if k == 10 then c.genreKinds >= 15
    else c.watchlistCount >= 50
  }

  /** The twelve achievements, in order. */
  function Achievements(c: Counts): (r: seq<Achievement>)
    ensures |r| == 12
    ensures forall k :: 0 <= k < 12 ==> r[k].title == AchievementTexts[k].0
    ensures forall k :: 0 <= k < 12 ==> (r[k].unlocked <==> Unlocked(c, k))
  {
    seq(12, k requires 0 <= k < 12 => Achievement(AchievementTexts[k].0, AchievementTexts[k].1, Unlocked(c, k)))
  }

  predicate AtMost(a: Counts, b: Counts) {
    && a.totalMedia <= b.totalMedia && a.books <= b.books && a.movies <= b.movies
    && a.tvShows <= b.tvShows && a.videoGames <= b.videoGames
    && a.collectionCount <= b.collectionCount && a.reviewCount <= b.reviewCount
    && a.tagCount <= b.tagCount && a.fiveStars <= b.fiveStars
    && a.genreKinds <= b.genreKinds && a.watchlistCount <= b.watchlistCount
  }

  /** Larger counts never lock an unlocked achievement. */
  lemma AchievementsMonotone(a: Counts, b: Counts)
    requires AtMost(a, b)
    ensures forall k :: 0 <= k < 12 && Achievements(a)[k].unlocked ==> Achievements(b)[k].unlocked
  {
  }

  /** Each threshold is the one its description names. */
  lemma AchievementThresholds(c: Counts)
    ensures Achievements(c)[0].unlocked <==> c.totalMedia > 0
    ensures Achievements(c)[1].unlocked <==> c.books >= 10
    ensures Achievements(c)[8].unlocked <==> c.totalMedia >= 100
    ensures Achievements(c)[10].unlocked <==> c.genreKinds >= 15
  {
  }

  /** The count of the key `k` of a `Record<number, number>`, `byRating[k] || 0`. */
  function RatingCount(byRating: map<int, nat>, k: int): nat {
    if k in byRating then byRating[k] else 0
  }

  // ---------------------------------------------------------------- the handler

  /** The response body of a successful GET. */
  datatype Stats = Stats(
    totalMedia: nat,
    favoriteCount: nat,
    watchlistCount: nat,
    collectionCount: nat,
    tagCount: nat,
    reviewCount: nat,
    byType: map<MediaType, nat>,
    byStatus: map<string, nat>,
    byRating: map<int, nat>,
    monthlyActivity: seq<MonthSlot>,
    topGenres: seq<GenreEntry>,
    achievements: seq<Achievement>)

  function ByTypeOf(items: seq<MediaItem>): map<MediaType, nat> {
    map t | t in ByTypeKeys :: CountType(items, t)
  }

  /** The counts the achievements of the GET handler read for date filter `f`. */
  function CountsOf(db: Database, f: DateFilter): Counts {
    var allMedia := FilterMedia(db.media, f);
    Counts(
      |allMedia|, CountType(allMedia, BOOK), CountType(allMedia, MOVIE), CountType(allMedia, TV_SHOW),
      CountType(allMedia, VIDEO_GAME), CountRows(db.collections, f), CountRows(db.reviews, f), db.tags,
      RatingCount(map[], 5), |Tally(GenresOf(allMedia))|, CountRows(db.watchlist, f))
  }

  /** What the GET handler answers for date filter `f`. */
  function StatsOf(db: Database, f: DateFilter): Stats {
    var allMedia := FilterMedia(db.media, f);
    Stats(
      |allMedia|, CountRows(db.favorites, f), CountRows(db.watchlist, f), CountRows(db.collections, f),
      db.tags, CountRows(db.reviews, f), ByTypeOf(allMedia), map[], map[], Months(|db.media|),
      TopGenres(Tally(GenresOf(allMedia))), Achievements(CountsOf(db, f)))
  }

  /** The GET handler; the two cutoffs stand for the dates it derives from the clock. */
  method GetStats(db: Database, timeRange: Option<string>, sixMonthsAgo: int, oneYearAgo: int)
    returns (stats: Stats)
    ensures stats == StatsOf(db, TimeRangeFilter(timeRange, sixMonthsAgo, oneYearAgo))
  {
    var f := TimeRangeFilter(timeRange, sixMonthsAgo, oneYearAgo);
    var allMedia := FilterMedia(db.media, f);
    var totalMedia := |allMedia|;
    var favoriteCount := CountRows(db.favorites, f);
    var watchlistCount := CountRows(db.watchlist, f);
    var collectionCount := CountRows(db.collections, f);
    var tagCount := db.tags;
    var reviewCount := CountRows(db.reviews, f);
    var byType := TallyByType(allMedia);
    ByTypeKeysAreAllTypes();
    assert byType == ByTypeOf(allMedia);
    var byStatus: map<string, nat> := map[];
    var byRating: map<int, nat> := map[];
    var monthlyActivity := MonthlyActivity(db);
    var genreCount := CountGenres(allMedia);
    var topGenres := TopGenres(genreCount);
    var counts := Counts(
      totalMedia, byType[BOOK], byType[MOVIE], byType[TV_SHOW], byType[VIDEO_GAME],
      collectionCount, reviewCount, tagCount, RatingCount(byRating, 5), |genreCount|, watchlistCount);
    var achievements := Achievements(counts);
    stats := Stats(
      totalMedia, favoriteCount, watchlistCount, collectionCount, tagCount, reviewCount,
      byType, byStatus, byRating, monthlyActivity, topGenres, achievements);
  }

  /** The byType counts add up to `totalMedia`, and no time range other than the two named ones filters. */
  lemma StatsTotals(db: Database, f: DateFilter)
    ensures var s := StatsOf(db, f);
      && (forall t :: t in s.byType && s.byType[t] == CountType(FilterMedia(db.media, f), t))
      && SumCounts(ByTypeKeys, FilterMedia(db.media, f)) == s.totalMedia
      && s.totalMedia <= |db.media|
      && (f == NoBound ==> s.totalMedia == |db.media|)
  {
    ByTypeKeysAreAllTypes();
    ByTypeSumsToTotal(FilterMedia(db.media, f));
    NoBoundKeepsAll(db.media);
  }

  /** The monthly slots ignore the time range: twelve slots of the unfiltered store size. */
  lemma StatsMonthly(db: Database, f: DateFilter, g: DateFilter)
    ensures StatsOf(db, f).monthlyActivity == StatsOf(db, g).monthlyActivity == Months(|db.media|)
  {
  }

  /** byStatus and byRating are always empty, so "Five Star Fan" is never unlocked. */
  lemma FiveStarFanLocked(db: Database, f: DateFilter)
    ensures StatsOf(db, f).byStatus == map[] && StatsOf(db, f).byRating == map[]
    ensures StatsOf(db, f).achievements[9].title == "Five Star Fan"
    ensures !StatsOf(db, f).achievements[9].unlocked
  {
  }

  /** With text genres only, there are no top genres and "Genre Explorer" stays locked. */
  lemma TextGenresNoTopGenres(db: Database, f: DateFilter)
    requires forall i :: 0 <= i < |db.media| ==> !db.media[i].genre.GenreList?
    ensures StatsOf(db, f).topGenres == []
    ensures !StatsOf(db, f).achievements[10].unlocked
  {
    var allMedia := FilterMedia(db.media, f);
    FilterKeepsTextGenres(db.media, f);
    TextGenresCountNothing(allMedia);
    TopGenresOfNothing();
    StatsGenreFields(db, f);
    GenreExplorerLocked(CountsOf(db, f));
  }

  lemma StatsGenreFields(db: Database, f: DateFilter)
    ensures StatsOf(db, f).topGenres == TopGenres(Tally(GenresOf(FilterMedia(db.media, f))))
    ensures StatsOf(db, f).achievements == Achievements(CountsOf(db, f))
    ensures CountsOf(db, f).genreKinds == |Tally(GenresOf(FilterMedia(db.media, f)))|
  {
  }

  lemma GenreExplorerLocked(c: Counts)
    requires c.genreKinds < 15
    ensures !Achievements(c)[10].unlocked
  {
  }

  lemma FilterKeepsTextGenres(media: seq<MediaItem>, f: DateFilter)
    requires forall i :: 0 <= i < |media| ==> !media[i].genre.GenreList?
    ensures var r := FilterMedia(media, f); forall i :: 0 <= i < |r| ==> !r[i].genre.GenreList?
  {
    var r := FilterMedia(media, f);
    forall i | 0 <= i < |r| ensures !r[i].genre.GenreList? {
      assert r[i] in media;
    }
  }

  lemma TopGenresOfNothing()
    ensures TopGenres([]) == []
  {
  }

  /**
   * The tallies come from the media alone: two stores with the same media agree
   * on byType, topGenres, the media achievements and monthlyActivity, whatever
   * their favourite, watchlist, collection, review and tag rows.
   */
  lemma TallyFromMediaOnly(db1: Database, db2: Database, f: DateFilter)
    requires db1.media == db2.media
    ensures StatsOf(db1, f).totalMedia == StatsOf(db2, f).totalMedia
    ensures StatsOf(db1, f).byType == StatsOf(db2, f).byType
    ensures StatsOf(db1, f).topGenres == StatsOf(db2, f).topGenres
    ensures StatsOf(db1, f).monthlyActivity == StatsOf(db2, f).monthlyActivity
    ensures forall k :: k in {0, 1, 2, 3, 4, 8, 9, 10} ==>
      StatsOf(db1, f).achievements[k] == StatsOf(db2, f).achievements[k]
  {
  }
}
