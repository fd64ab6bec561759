/**
 * The list logic of app/watchlist/page.tsx: the priority filter, the
 * ordering by priority rank and recency, the media list handed to the grid
 * and the per-priority counts. Instants are the integers `getTime` gives.
 */
module WatchlistPage {
  import opened Wrappers
  import opened Sorting
  import opened Types

  /** An entry of the fetched watchlist. */
  datatype WatchlistItem = WatchlistItem(
    id: int,
    mediaItem: MediaItem,
    priority: Priority,
    notes: Option<string>,
    createdAt: int)

  /** `filterPriority`: "ALL" or one priority. */
  datatype PriorityFilter = All | Only(p: Priority)

  /** `priorityOrder`. */
  function PriorityRank(p: Priority): (r: nat)
    ensures 1 <= r <= 4
  {
    match p
    case URGENT => 4
    case HIGH => 3
    case MEDIUM => 2
    case LOW => 1
  }

  /** The ranks put URGENT above HIGH above MEDIUM above LOW, and tell priorities apart. */
  lemma RankOrder()
    ensures PriorityRank(URGENT) > PriorityRank(HIGH) > PriorityRank(MEDIUM) > PriorityRank(LOW)
    ensures forall p, q :: PriorityRank(p) == PriorityRank(q) ==> p == q
  {
  }

  /** `filteredWatchlist`. */
  function Filtered(w: seq<WatchlistItem>, f: PriorityFilter): (r: seq<WatchlistItem>)
    ensures |r| <= |w|
    ensures f == All ==> r == w
    ensures f.Only? ==> forall x :: x in r <==> x in w && x.priority == f.p
  {
    if f == All then w
    else if w == [] then []
    else
      var rest := Filtered(w[1..], f);
      assert forall x :: x in w <==> x == w[0] || x in w[1..];
      if w[0].priority == f.p then [w[0]] + rest else rest
  }

  /** Filtering keeps the relative order: it distributes over concatenation. */
  lemma {:induction false} FilteredAppend(a: seq<WatchlistItem>, b: seq<WatchlistItem>, f: PriorityFilter)
    ensures Filtered(a + b, f) == Filtered(a, f) + Filtered(b, f)
  {
    if f.Only? {
      if a == [] {
        assert a + b == b;
      } else {
        assert (a + b)[1..] == a[1..] + b;
        FilteredAppend(a[1..], b, f);
      }
    }
  }

  /** Every item of priority `p` is kept as often as it occurs, and no other. */
  lemma {:induction false} FilteredMultiplicity(w: seq<WatchlistItem>, p: Priority, x: WatchlistItem)
    ensures multiset(Filtered(w, Only(p)))[x] == if x.priority == p then multiset(w)[x] else 0
  {
    if w != [] {
      FilteredMultiplicity(w[1..], p, x);
      assert w == [w[0]] + w[1..];
    }
  }

  /** The number of entries of priority `p`. */
  function CountPriority(w: seq<WatchlistItem>, p: Priority): nat {
    if w == [] then 0 else (if w[0].priority == p then 1 else 0) + CountPriority(w[1..], p)
  }

  /** "Showing n of m": the filtered length is the count of that priority, at most the total. */
  lemma {:induction false} FilteredLength(w: seq<WatchlistItem>, p: Priority)
    ensures |Filtered(w, Only(p))| == CountPriority(w, p) <= |w|
  {
    if w != [] { FilteredLength(w[1..], p); }
  }

  /** The comparator's key: rank first, then creation instant, compared in descending order. */
  function WatchKey(x: WatchlistItem): Key {
    [Sorting.Num(PriorityRank(x.priority) as real), Sorting.Num(x.createdAt as real)]
  }

  /** `sortedWatchlist`: a sorted copy of the filtered list. */
  function SortedWatchlist(w: seq<WatchlistItem>, f: PriorityFilter): seq<WatchlistItem> {
    Sort(Filtered(w, f), WatchKey, Desc)
  }

  /** `a` may stay ahead of `b`: higher rank, or equal rank and no older. */
  predicate RanksFirst(a: WatchlistItem, b: WatchlistItem) {
    PriorityRank(a.priority) > PriorityRank(b.priority)
    || (a.priority == b.priority && a.createdAt >= b.createdAt)
  }

  lemma WatchKeyOrder(a: WatchlistItem, b: WatchlistItem)
    ensures !Before(Desc, WatchKey(b), WatchKey(a)) <==> RanksFirst(a, b)
  {
    var ka, kb := WatchKey(a), WatchKey(b);
    assert ka[1..][1..] == [] && kb[1..][1..] == [];
    assert KeyLess(ka[1..], kb[1..]) <==> a.createdAt < b.createdAt;
    assert KeyLess(ka, kb) <==> AtomLess(ka[0], kb[0]) || (ka[0] == kb[0] && KeyLess(ka[1..], kb[1..]));
    RankOrder();
  }

  /**
   * The sorted list holds the filtered entries with their multiplicities, and
   * every entry ranks first against every later one: priority rank
   * descending, then newest first.
   */
  lemma SortedWatchlistOrder(w: seq<WatchlistItem>, f: PriorityFilter)
    ensures multiset(SortedWatchlist(w, f)) == multiset(Filtered(w, f))
    ensures forall i, j :: 0 <= i < j < |SortedWatchlist(w, f)| ==>
      RanksFirst(SortedWatchlist(w, f)[i], SortedWatchlist(w, f)[j])
  {
    var s := SortedWatchlist(w, f);
    SortPermutes(Filtered(w, f), WatchKey, Desc);
    SortOrders(Filtered(w, f), WatchKey, Desc);
    forall i, j | 0 <= i < j < |s| ensures RanksFirst(s[i], s[j]) {
      WatchKeyOrder(s[i], s[j]);
    }
  }

  /** Entries of the same priority and instant keep their fetched order. */
  lemma SortedWatchlistStable(w: seq<WatchlistItem>, f: PriorityFilter, k: Key)
    ensures WithKey(SortedWatchlist(w, f), WatchKey, k) == WithKey(Filtered(w, f), WatchKey, k)
  {
    SortStable(Filtered(w, f), WatchKey, Desc, k);
  }

  /** `watchlistMedia`: the media of the sorted entries, position by position. */
  function WatchlistMedia(sorted: seq<WatchlistItem>): (r: seq<MediaItem>)
    ensures |r| == |sorted|
    ensures forall i :: 0 <= i < |r| ==> r[i] == sorted[i].mediaItem
  {
    if sorted == [] then [] else [sorted[0].mediaItem] + WatchlistMedia(sorted[1..])
  }

  /** `priorityStats`, counted over the unfiltered list. */
  datatype PriorityStats = PriorityStats(urgent: nat, high: nat, medium: nat, low: nat)

  function PriorityStatsOf(w: seq<WatchlistItem>): PriorityStats {
    PriorityStats(CountPriority(w, URGENT), CountPriority(w, HIGH), CountPriority(w, MEDIUM), CountPriority(w, LOW))
  }

  /** The four counts add up to the length of the list, whatever filter is shown. */
  lemma {:induction false} PriorityStatsSum(w: seq<WatchlistItem>)
    ensures var s := PriorityStatsOf(w); s.urgent + s.high + s.medium + s.low == |w|
  {
    if w != [] { PriorityStatsSum(w[1..]); }
  }

  /** Each count is the length the corresponding filter shows. */
  lemma PriorityStatsMatchFilter(w: seq<WatchlistItem>)
    ensures PriorityStatsOf(w).urgent == |Filtered(w, Only(URGENT))|
    ensures PriorityStatsOf(w).high == |Filtered(w, Only(HIGH))|
    ensures PriorityStatsOf(w).medium == |Filtered(w, Only(MEDIUM))|
    ensures PriorityStatsOf(w).low == |Filtered(w, Only(LOW))|
  {
    FilteredLength(w, URGENT);
    FilteredLength(w, HIGH);
    FilteredLength(w, MEDIUM);
    FilteredLength(w, LOW);
  }
}
