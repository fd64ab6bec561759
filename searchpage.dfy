/**
 * The state helpers of app/search/page.tsx: toggling a type in the filter,
 * reading the sort select's value, clearing everything, and the test that
 * decides whether a search is sent at all.
 */
module SearchPage {
  import opened Wrappers
  import opened JsText
  import opened Types
  import opened SearchRoute
  import opened Hooks

  /** The type values the page offers, in its order. */
  const PageTypeValues: seq<string> :=
    ["MOVIE", "SHOW", "BOOK", "DOCUMENTARY", "GAME", "ANIME", "MANGA", "PODCAST", "AUDIOBOOK"]

  /** The values of the sort select's options. */
  const SortOptions: seq<string> :=
    ["createdAt-desc", "title-asc", "title-desc", "year-desc", "year-asc", "rating-desc", "rating-asc"]

  const EmptyRange := Range(Absent, Absent)

  /** The filter the page starts from and returns to: every list empty, every range `{}`. */
  const InitialFilters := MediaFilter(Some([]), Some([]), Some(EmptyRange), Some(EmptyRange), Some([]), Some([]))

  const InitialSort := MediaSort("createdAt", "desc")

  /** The page's query text, filter and sort. */
  datatype PageState = PageState(query: string, filters: MediaFilter, sort: MediaSort)

  /** `xs.filter(x => x !== t)`. */
  function Without(xs: seq<string>, t: string): (r: seq<string>)
    ensures t !in r
    ensures forall x :: x != t ==> (x in r <==> x in xs)
    ensures |r| <= |xs|
  {
    if xs == [] then []
    else (if xs[0] == t then [] else [xs[0]]) + Without(xs[1..], t)
  }

  lemma {:induction false} WithoutAbsent(xs: seq<string>, t: string)
    requires t !in xs
    ensures Without(xs, t) == xs
  {
    if xs != [] {
      WithoutAbsent(xs[1..], t);
      assert xs == [xs[0]] + xs[1..];
    }
  }

  lemma {:induction false} WithoutAppend(xs: seq<string>, ys: seq<string>, t: string)
    ensures Without(xs + ys, t) == Without(xs, t) + Without(ys, t)
  {
    if xs == [] {
      assert xs + ys == ys;
    } else {
      assert (xs + ys)[0] == xs[0];
      assert (xs + ys)[1..] == xs[1..] + ys;
      WithoutAppend(xs[1..], ys, t);
    }
  }

  /** `handleTypeFilter(t)`: a listed type is removed wherever it occurs, another is appended. */
  function ToggleType(f: MediaFilter, t: string): MediaFilter {
    var types := f.types.GetOr([]);
    f.(types := Some(if t in types then Without(types, t) else types + [t]))
  }

  /**
   * After a toggle the type is listed exactly when it was not; every other
   * type keeps its membership, and the other fields of the filter are
   * unchanged. An appended type goes to the end.
   */
  lemma ToggleTypeFlips(f: MediaFilter, t: string)
    ensures ToggleType(f, t).types.Some?
    ensures t in ToggleType(f, t).types.value <==> t !in f.types.GetOr([])
    ensures forall x :: x != t ==> (x in ToggleType(f, t).types.value <==> x in f.types.GetOr([]))
    ensures t !in f.types.GetOr([]) ==> ToggleType(f, t).types.value == f.types.GetOr([]) + [t]
    ensures ToggleType(f, t).(types := f.types) == f
  {
    var types := f.types.GetOr([]);
    var r := ToggleType(f, t);
    assert r.genres == f.genres && r.year == f.year && r.rating == f.rating && r.status == f.status && r.tags == f.tags;
    assert r.(types := f.types) == MediaFilter(f.types, f.genres, f.year, f.rating, f.status, f.tags);
    assert f == MediaFilter(f.types, f.genres, f.year, f.rating, f.status, f.tags);
    if t !in types {
      assert (types + [t])[|types|] == t;
      assert forall x :: x in types + [t] <==> x in types || x == t;
    }
  }

  /** Toggling an unlisted type twice restores the type list. */
  lemma ToggleTypeTwice(f: MediaFilter, t: string)
    requires f.types.Some? && t !in f.types.value
    ensures ToggleType(ToggleType(f, t), t) == f
  {
    var xs := f.types.value;
    var once := ToggleType(f, t);
    assert once == f.(types := Some(xs + [t]));
    assert (xs + [t])[|xs|] == t;
    WithoutAppend(xs, [t], t);
    WithoutAbsent(xs, t);
    assert Without([t], t) == [];
    assert Without(xs + [t], t) == xs;
    assert ToggleType(once, t) == once.(types := Some(xs));
  }

  /**
   * `handleSortChange(value)`: the two parts of `value.split("-")`. The select
   * only offers the values in `SortOptions`, each with one "-"; a value
   * without "-" (which the page cannot produce) gives no sort here, where the
   * page would set an undefined direction.
   */
  function SortChange(value: string): Option<MediaSort> {
    var parts := Split(value, "-");
    if |parts| >= 2 then Some(MediaSort(parts[0], parts[1])) else None
  }

  /** The select's value for a sort, `${field}-${direction}`. */
  function SortValue(s: MediaSort): string {
    s.field + "-" + s.direction
  }

  /** Reading the select's value back gives the sort, when neither part contains "-". */
  lemma SortRoundTrip(s: MediaSort)
    requires !Contains(s.field, "-") && !Contains(s.direction, "-")
    ensures SortChange(SortValue(s)) == Some(s)
  {
    var parts := [s.field, s.direction];
    assert Join(parts, "-") == SortValue(s) by {
      assert parts[1..] == [s.direction];
    }
    SplitJoin(parts, "-");
  }

  lemma NoDash(x: string)
    requires forall i :: 0 <= i < |x| ==> x[i] != '-'
    ensures !Contains(x, "-")
  {
    forall i | 0 <= i < |x| ensures !OccursAt(x, "-", i) {
      assert x[i..i + 1][0] == x[i];
    }
  }

  /** Every option of the select is read as a sort whose select value is that option. */
  lemma SortOptionsRoundTrip()
    ensures forall k :: 0 <= k < |SortOptions| ==>
      SortChange(SortOptions[k]).Some? && SortValue(SortChange(SortOptions[k]).value) == SortOptions[k]
  {
    var fields := ["createdAt", "title", "title", "year", "year", "rating", "rating"];
    var dirs := ["desc", "asc", "desc", "desc", "asc", "desc", "asc"];
    forall k | 0 <= k < |SortOptions|
      ensures SortChange(SortOptions[k]).Some? && SortValue(SortChange(SortOptions[k]).value) == SortOptions[k]
    {
      var s := MediaSort(fields[k], dirs[k]);
      assert SortValue(s) == SortOptions[k];
      NoDash(s.field);
      NoDash(s.direction);
      SortRoundTrip(s);
    }
  }

  /** `clearAllFilters`: back to the initial filters and sort, with no query; such a page sends no search. */
  function ClearAllFilters(p: PageState): (r: PageState)
    ensures r.filters == InitialFilters && r.sort == InitialSort
    ensures !ShouldSearch(r.query, r.filters)
    ensures !HasActiveFilters(r.query, r.filters)
  {
    PageState("", InitialFilters, InitialSort)
  }

  /** How many keys `Object.keys` lists for a range object. */
  function KeyCount(r: Range): nat {
    (if r.min.Absent? then 0 else 1) + (if r.max.Absent? then 0 else 1)
  }

  /** Whether one value of the filter object counts: a non-empty list, or a range with some key. */
  predicate ListActive(xs: Option<seq<string>>) { xs.Some? && |xs.value| > 0 }

  predicate RangeActive(r: Option<Range>) { r.Some? && KeyCount(r.value) > 0 }

  /** `Object.values(filters).some(...)`; a missing property is no value. */
  predicate AnyFilterActive(f: MediaFilter) {
    ListActive(f.types) || ListActive(f.genres) || RangeActive(f.year) || RangeActive(f.rating)
    || ListActive(f.status) || ListActive(f.tags)
  }

  /** The effect's test: a search is sent, rather than the results cleared. */
  predicate ShouldSearch(debouncedQuery: string, f: MediaFilter) {
    debouncedQuery != "" || AnyFilterActive(f)
  }

  /** `hasActiveFilters`, which the clear button uses. */
  predicate HasActiveFilters(query: string, f: MediaFilter) {
    query != "" || (f.types.Some? && |f.types.value| > 0) || AnyFilterActive(f)
  }

  /** The extra type test adds nothing: both tests agree on the same query text. */
  lemma ActiveTestsAgree(query: string, f: MediaFilter)
    ensures HasActiveFilters(query, f) <==> ShouldSearch(query, f)
  {
  }

  /** The year inputs' handler: a number, or `undefined` for an empty input; NaN also becomes a falsy key. */
  function SetYearMin(f: MediaFilter, text: string): MediaFilter {
    var prev := f.year.GetOr(EmptyRange);
    var min := if text == "" then Undef else match ParseInt(text) case Some(n) => Set(n) case None => Undef;
    f.(year := Some(prev.(min := min)))
  }

  /**
   * Clearing the "Year From" input keeps a `min` key whose value is
   * `undefined`: the page still counts a filter as active and searches, yet
   * the request carries no year bound at all.
   */
  lemma ClearedYearStillSearches(f: MediaFilter, query: string, sort: MediaSort)
    ensures var g := SetYearMin(f, "");
      && ShouldSearch("", g)
      && Get(SearchParams(query, Some(g), Some(sort), DefaultPage, DefaultLimit), "yearMin") == None
  {
    var g := SetYearMin(f, "");
    SearchParamsSend(query, Some(g), Some(sort), DefaultPage, DefaultLimit, "yearMin");
  }

  /** The page's "SHOW" and "GAME" are no media type names; the seven others are. */
  lemma PageTypeNames()
    ensures forall k :: 0 <= k < |PageTypeValues| ==>
      (ParseMediaType(PageTypeValues[k]).None? <==> PageTypeValues[k] == "SHOW" || PageTypeValues[k] == "GAME")
  {
  }

  /** A list holding a name that is no media type name is refused by the storage layer. */
  lemma UnknownTypeRefused(names: seq<string>, k: nat)
    requires k < |names| && ParseMediaType(names[k]).None?
    ensures ParseTypes(names).None?
  {
    forall t ensures MediaTypeName(t) != names[k] {
    }
  }

  /**
   * Selecting "TV Shows" or "Games" on the page makes every search fail:
   * the type list reaches the server unchanged, and the storage layer
   * refuses a name that is no member of the enumeration.
   */
  lemma PageShowOrGameFails(store: seq<MediaItem>, query: string, f: MediaFilter, sort: MediaSort, k: nat)
    requires f.types.Some? && k < |f.types.value| && (f.types.value[k] == "SHOW" || f.types.value[k] == "GAME")
    requires NoComma(f.types) && NoComma(f.genres)
    ensures Search(store, SearchParams(query, Some(f), Some(sort), DefaultPage, DefaultLimit)) == Failed
  {
    var params := SearchParams(query, Some(f), Some(sort), DefaultPage, DefaultLimit);
    TypesReachServer(query, f, sort);
    ShowOrGameUnknown(f.types.value[k]);
    UnknownTypeRefused(f.types.value, k);
    RefusedTypesFail(store, ReadQuery(params));
  }

  /** The type list the page sends is the one the server reads. */
  lemma TypesReachServer(query: string, f: MediaFilter, sort: MediaSort)
    requires ListGiven(f.types)
    requires NoComma(f.types) && NoComma(f.genres)
    ensures ReadQuery(SearchParams(query, Some(f), Some(sort), DefaultPage, DefaultLimit)).types == f.types
  {
    ServerReadsSearch(query, Some(f), Some(sort), DefaultPage, DefaultLimit);
  }

  lemma ShowOrGameUnknown(name: string)
    requires name == "SHOW" || name == "GAME"
    ensures ParseMediaType(name).None?
  {
  }

  /** A query whose type list the storage layer refuses fails. */
  lemma RefusedTypesFail(store: seq<MediaItem>, q: Query)
    requires q.types.Some? && |q.types.value| > 0 && ParseTypes(q.types.value).None?
    ensures Run(store, q) == Failed
  {
    assert BuildWhere(q).None?;
    RunFails(store, q);
  }
}
