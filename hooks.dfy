/**
 * The client side of lib/hooks/index.ts: the `search` callback's parameter
 * list, and the favourites set that `toggleFavorite` and `fetchFavorites`
 * keep. The parameters are the decoded pairs in order, not the
 * percent-encoded query string; what `fetch` answers is an input.
 */
module Hooks {
  import opened Wrappers
  import opened JsText
  import opened Types
  import opened SearchRoute

  /** `if (present) params.append(name, value)`. */
  function AppendIf(params: Params, present: bool, name: string, value: string): Params {
    if present then params + [(name, value)] else params
  }

  /** `list?.length` is truthy: the list is given and not empty. */
  predicate ListGiven(xs: Option<seq<string>>) {
    xs.Some? && |xs.value| > 0
  }

  function Joined(xs: Option<seq<string>>): string {
    if xs.Some? then Join(xs.value, ",") else ""
  }

  function MinSlot(r: Option<Range>): Slot { if r.Some? then r.value.min else Absent }

  function MaxSlot(r: Option<Range>): Slot { if r.Some? then r.value.max else Absent }

  /** `range?.min` is truthy: set, and not 0. */
  predicate SlotGiven(s: Slot) {
    s.Set? && s.n != 0
  }

  function SlotText(s: Slot): string {
    if s.Set? then IntToString(s.n) else ""
  }

  /** The first four appends of the `if (filters)` block: the filters the server reads. */
  function WithSearchedFilters(params: Params, f: MediaFilter): Params {
    var p1 := AppendIf(params, ListGiven(f.types), "type", Joined(f.types));
    var p2 := AppendIf(p1, ListGiven(f.genres), "genre", Joined(f.genres));
    var p3 := AppendIf(p2, SlotGiven(MinSlot(f.year)), "yearMin", SlotText(MinSlot(f.year)));
    AppendIf(p3, SlotGiven(MaxSlot(f.year)), "yearMax", SlotText(MaxSlot(f.year)))
  }

  /** The last four appends: rating bounds, statuses and tags. */
  function WithOtherFilters(params: Params, f: MediaFilter): Params {
    var p1 := AppendIf(params, SlotGiven(MinSlot(f.rating)), "ratingMin", SlotText(MinSlot(f.rating)));
    var p2 := AppendIf(p1, SlotGiven(MaxSlot(f.rating)), "ratingMax", SlotText(MaxSlot(f.rating)));
    var p3 := AppendIf(p2, ListGiven(f.status), "status", Joined(f.status));
    AppendIf(p3, ListGiven(f.tags), "tags", Joined(f.tags))
  }

  function WithFilter(params: Params, f: MediaFilter): Params {
    WithOtherFilters(WithSearchedFilters(params, f), f)
  }

  function WithSort(params: Params, sort: Option<MediaSort>): Params {
    if sort.None? then params else params + [("sortBy", sort.value.field)] + [("sortDir", sort.value.direction)]
  }

  /** `new URLSearchParams({ q, page, limit })`. */
  function Initial(query: string, page: int, limit: int): Params {
    [("q", query), ("page", IntToString(page)), ("limit", IntToString(limit))]
  }

  /** The parameter list `search` sends: the three initial entries, then the filter's, then the sort's. */
  function SearchParams(query: string, filters: Option<MediaFilter>, sort: Option<MediaSort>, page: int, limit: int): Params {
    var init := Initial(query, page, limit);
    WithSort(if filters.Some? then WithFilter(init, filters.value) else init, sort)
  }

  /** The defaults of `search`'s last two arguments. */
  const DefaultPage := 1
  const DefaultLimit := 20

  /** `if (present) params.append(name, value)`. */
  method Append(params: Params, present: bool, name: string, value: string) returns (r: Params)
    ensures r == AppendIf(params, present, name, value)
  {
    r := params;
    if present {
      r := r + [(name, value)];
    }
  }

  /** The first four appends of the `if (filters)` block. */
  method AppendSearched(params: Params, f: MediaFilter) returns (r: Params)
    ensures r == WithSearchedFilters(params, f)
  {
    r := Append(params, ListGiven(f.types), "type", Joined(f.types));
    r := Append(r, ListGiven(f.genres), "genre", Joined(f.genres));
    r := Append(r, SlotGiven(MinSlot(f.year)), "yearMin", SlotText(MinSlot(f.year)));
    r := Append(r, SlotGiven(MaxSlot(f.year)), "yearMax", SlotText(MaxSlot(f.year)));
  }

  /** The last four appends of the `if (filters)` block. */
  method AppendOther(params: Params, f: MediaFilter) returns (r: Params)
    ensures r == WithOtherFilters(params, f)
  {
    r := Append(params, SlotGiven(MinSlot(f.rating)), "ratingMin", SlotText(MinSlot(f.rating)));
    r := Append(r, SlotGiven(MaxSlot(f.rating)), "ratingMax", SlotText(MaxSlot(f.rating)));
    r := Append(r, ListGiven(f.status), "status", Joined(f.status));
    r := Append(r, ListGiven(f.tags), "tags", Joined(f.tags));
  }

  /** `search`'s construction of its parameters, one append after another. */
  method BuildSearchParams(query: string, filters: Option<MediaFilter>, sort: Option<MediaSort>, page: int, limit: int)
    returns (params: Params)
    ensures params == SearchParams(query, filters, sort, page, limit)
  {
    params := [("q", query), ("page", IntToString(page)), ("limit", IntToString(limit))];
    if filters.Some? {
      params := AppendSearched(params, filters.value);
      params := AppendOther(params, filters.value);
    }
    if sort.Some? {
      params := params + [("sortBy", sort.value.field)];
      params := params + [("sortDir", sort.value.direction)];
    }
  }

  /** `get` after a conditional append: an earlier value wins, else the appended one. */
  lemma GetAppendIf(params: Params, present: bool, name: string, value: string, n: string)
    ensures Get(AppendIf(params, present, name, value), n)
      == if Get(params, n).Some? then Get(params, n) else if present && name == n then Some(value) else None
  {
    if present { GetConcat(params, [(name, value)], n); }
  }

  /** `long` begins with `short`. */
  predicate Extends(long: Params, short: Params) {
    |long| >= |short| && long[..|short|] == short
  }

  lemma ExtendsTransitive(a: Params, b: Params, c: Params)
    requires Extends(c, b) && Extends(b, a)
    ensures Extends(c, a)
  {
    assert c[..|a|] == c[..|b|][..|a|];
  }

  /** Appending never changes what is already there. */
  lemma AppendIfExtends(params: Params, present: bool, name: string, value: string)
    ensures Extends(AppendIf(params, present, name, value), params)
  {
  }

  lemma WithSearchedExtends(params: Params, f: MediaFilter)
    ensures Extends(WithSearchedFilters(params, f), params)
  {
    var p1 := AppendIf(params, ListGiven(f.types), "type", Joined(f.types));
    var p2 := AppendIf(p1, ListGiven(f.genres), "genre", Joined(f.genres));
    var p3 := AppendIf(p2, SlotGiven(MinSlot(f.year)), "yearMin", SlotText(MinSlot(f.year)));
    var p4 := AppendIf(p3, SlotGiven(MaxSlot(f.year)), "yearMax", SlotText(MaxSlot(f.year)));
    AppendIfExtends(params, ListGiven(f.types), "type", Joined(f.types));
    AppendIfExtends(p1, ListGiven(f.genres), "genre", Joined(f.genres));
    ExtendsTransitive(params, p1, p2);
    AppendIfExtends(p2, SlotGiven(MinSlot(f.year)), "yearMin", SlotText(MinSlot(f.year)));
    ExtendsTransitive(params, p2, p3);
    AppendIfExtends(p3, SlotGiven(MaxSlot(f.year)), "yearMax", SlotText(MaxSlot(f.year)));
    ExtendsTransitive(params, p3, p4);
  }

  lemma WithOtherExtends(params: Params, f: MediaFilter)
    ensures Extends(WithOtherFilters(params, f), params)
  {
    var p1 := AppendIf(params, SlotGiven(MinSlot(f.rating)), "ratingMin", SlotText(MinSlot(f.rating)));
    var p2 := AppendIf(p1, SlotGiven(MaxSlot(f.rating)), "ratingMax", SlotText(MaxSlot(f.rating)));
    var p3 := AppendIf(p2, ListGiven(f.status), "status", Joined(f.status));
    var p4 := AppendIf(p3, ListGiven(f.tags), "tags", Joined(f.tags));
    AppendIfExtends(params, SlotGiven(MinSlot(f.rating)), "ratingMin", SlotText(MinSlot(f.rating)));
    AppendIfExtends(p1, SlotGiven(MaxSlot(f.rating)), "ratingMax", SlotText(MaxSlot(f.rating)));
    ExtendsTransitive(params, p1, p2);
    AppendIfExtends(p2, ListGiven(f.status), "status", Joined(f.status));
    ExtendsTransitive(params, p2, p3);
    AppendIfExtends(p3, ListGiven(f.tags), "tags", Joined(f.tags));
    ExtendsTransitive(params, p3, p4);
  }

  /** The filter object of `search`, an absent one standing for no filter at all. */
  function FilterOf(filters: Option<MediaFilter>): MediaFilter {
    filters.GetOr(MediaFilter(None, None, None, None, None, None))
  }

  /** What a filter sends under the names the server reads. */
  function SearchedSent(f: MediaFilter, n: string): Option<string> {
    if n == "type" then (if ListGiven(f.types) then Some(Joined(f.types)) else None)
    else if n == "genre" then (if ListGiven(f.genres) then Some(Joined(f.genres)) else None)
    else if n == "yearMin" then (if SlotGiven(MinSlot(f.year)) then Some(SlotText(MinSlot(f.year))) else None)
    else if n == "yearMax" then (if SlotGiven(MaxSlot(f.year)) then Some(SlotText(MaxSlot(f.year))) else None)
    else None
  }

  /** What a filter sends under the other names. */
  function OtherSent(f: MediaFilter, n: string): Option<string> {
    if n == "ratingMin" then (if SlotGiven(MinSlot(f.rating)) then Some(SlotText(MinSlot(f.rating))) else None)
    else if n == "ratingMax" then (if SlotGiven(MaxSlot(f.rating)) then Some(SlotText(MaxSlot(f.rating))) else None)
    else if n == "status" then (if ListGiven(f.status) then Some(Joined(f.status)) else None)
    else if n == "tags" then (if ListGiven(f.tags) then Some(Joined(f.tags)) else None)
    else None
  }

  /** What the three initial entries send. */
  function InitialSent(query: string, page: int, limit: int, n: string): Option<string> {
    if n == "q" then Some(query)
    else if n == "page" then Some(IntToString(page))
    else if n == "limit" then Some(IntToString(limit))
    else None
  }

  /** What a sort sends. */
  function SortSent(sort: Option<MediaSort>, n: string): Option<string> {
    if n == "sortBy" then (if sort.Some? then Some(sort.value.field) else None)
    else if n == "sortDir" then (if sort.Some? then Some(sort.value.direction) else None)
    else None
  }

  /** What the sent list holds under each name: the value `searchParams.get(name)` reads on the server. */
  function Sent(query: string, filters: Option<MediaFilter>, sort: Option<MediaSort>, page: int, limit: int, n: string): Option<string> {
    if InitialSent(query, page, limit, n).Some? then InitialSent(query, page, limit, n)
    else if SortSent(sort, n).Some? then SortSent(sort, n)
    else if SearchedSent(FilterOf(filters), n).Some? then SearchedSent(FilterOf(filters), n)
    else OtherSent(FilterOf(filters), n)
  }

  lemma GetWithSearched(params: Params, f: MediaFilter, n: string)
    ensures Get(WithSearchedFilters(params, f), n)
      == if Get(params, n).Some? then Get(params, n) else SearchedSent(f, n)
  {
    var p1 := AppendIf(params, ListGiven(f.types), "type", Joined(f.types));
    var p2 := AppendIf(p1, ListGiven(f.genres), "genre", Joined(f.genres));
    var p3 := AppendIf(p2, SlotGiven(MinSlot(f.year)), "yearMin", SlotText(MinSlot(f.year)));
    GetAppendIf(params, ListGiven(f.types), "type", Joined(f.types), n);
    GetAppendIf(p1, ListGiven(f.genres), "genre", Joined(f.genres), n);
    GetAppendIf(p2, SlotGiven(MinSlot(f.year)), "yearMin", SlotText(MinSlot(f.year)), n);
    GetAppendIf(p3, SlotGiven(MaxSlot(f.year)), "yearMax", SlotText(MaxSlot(f.year)), n);
  }

  lemma GetWithOther(params: Params, f: MediaFilter, n: string)
    ensures Get(WithOtherFilters(params, f), n)
      == if Get(params, n).Some? then Get(params, n) else OtherSent(f, n)
  {
    var p1 := AppendIf(params, SlotGiven(MinSlot(f.rating)), "ratingMin", SlotText(MinSlot(f.rating)));
    var p2 := AppendIf(p1, SlotGiven(MaxSlot(f.rating)), "ratingMax", SlotText(MaxSlot(f.rating)));
    var p3 := AppendIf(p2, ListGiven(f.status), "status", Joined(f.status));
    GetAppendIf(params, SlotGiven(MinSlot(f.rating)), "ratingMin", SlotText(MinSlot(f.rating)), n);
    GetAppendIf(p1, SlotGiven(MaxSlot(f.rating)), "ratingMax", SlotText(MaxSlot(f.rating)), n);
    GetAppendIf(p2, ListGiven(f.status), "status", Joined(f.status), n);
    GetAppendIf(p3, ListGiven(f.tags), "tags", Joined(f.tags), n);
  }

  /** Without a filter object nothing is sent under a filter's names. */
  lemma NoFilterSendsNothing(n: string)
    ensures SearchedSent(FilterOf(None), n) == None && OtherSent(FilterOf(None), n) == None
  {
  }

  lemma GetInitial(query: string, page: int, limit: int, n: string)
    ensures Get(Initial(query, page, limit), n) == InitialSent(query, page, limit, n)
  {
    var init := Initial(query, page, limit);
    var tail1 := [("page", IntToString(page)), ("limit", IntToString(limit))];
    var tail2 := [("limit", IntToString(limit))];
    assert init[1..] == tail1 && tail1[1..] == tail2 && tail2[1..] == [];
    if n != "q" {
      assert Get(init, n) == Get(tail1, n);
      if n != "page" {
        assert Get(tail1, n) == Get(tail2, n);
      }
    }
  }

  /**
   * Each name occurs in the sent list exactly when its filter or sort is
   * given, with the value `Sent` states: list filters comma-joined and only
   * when not empty, bounds only when non-zero, `sortBy` and `sortDir`
   * together.
   */
  lemma SearchParamsSend(query: string, filters: Option<MediaFilter>, sort: Option<MediaSort>, page: int, limit: int, n: string)
    ensures Get(SearchParams(query, filters, sort, page, limit), n) == Sent(query, filters, sort, page, limit, n)
  {
    var init := Initial(query, page, limit);
    var before := if filters.Some? then WithFilter(init, filters.value) else init;
    GetFiltered(query, filters, page, limit, n);
    GetWithSort(before, sort, n);
    if SortSent(sort, n).Some? {
      SortNamesApart(query, FilterOf(filters), sort, page, limit, n);
    }
  }

  /** What the list holds before the sort is appended. */
  lemma GetFiltered(query: string, filters: Option<MediaFilter>, page: int, limit: int, n: string)
    ensures var init := Initial(query, page, limit);
      Get(if filters.Some? then WithFilter(init, filters.value) else init, n)
      == if InitialSent(query, page, limit, n).Some? then InitialSent(query, page, limit, n)
         else if SearchedSent(FilterOf(filters), n).Some? then SearchedSent(FilterOf(filters), n)
         else OtherSent(FilterOf(filters), n)
  {
    var init := Initial(query, page, limit);
    GetInitial(query, page, limit, n);
    if filters.Some? {
      GetWithSearched(init, filters.value, n);
      GetWithOther(WithSearchedFilters(init, filters.value), filters.value, n);
    } else {
      NoFilterSendsNothing(n);
    }
  }

  /** After the sort is appended an earlier value still wins. */
  lemma GetWithSort(params: Params, sort: Option<MediaSort>, n: string)
    ensures Get(WithSort(params, sort), n) == if Get(params, n).Some? then Get(params, n) else SortSent(sort, n)
  {
    if sort.Some? {
      var withBy := params + [("sortBy", sort.value.field)];
      GetConcat(params, [("sortBy", sort.value.field)], n);
      GetConcat(withBy, [("sortDir", sort.value.direction)], n);
    }
  }

  /** The sort's names are used by nothing else. */
  lemma SortNamesApart(query: string, f: MediaFilter, sort: Option<MediaSort>, page: int, limit: int, n: string)
    requires SortSent(sort, n).Some?
    ensures InitialSent(query, page, limit, n) == None
    ensures SearchedSent(f, n) == None && OtherSent(f, n) == None
  {
  }

  /** The list always starts with `q`, `page` and `limit`, in that order. */
  lemma SearchParamsStart(query: string, filters: Option<MediaFilter>, sort: Option<MediaSort>, page: int, limit: int)
    ensures var r := SearchParams(query, filters, sort, page, limit);
      |r| >= 3 && r[0] == ("q", query) && r[1] == ("page", IntToString(page)) && r[2] == ("limit", IntToString(limit))
  {
    var init := Initial(query, page, limit);
    var mid := if filters.Some? then WithFilter(init, filters.value) else init;
    if filters.Some? {
      WithSearchedExtends(init, filters.value);
      WithOtherExtends(WithSearchedFilters(init, filters.value), filters.value);
      ExtendsTransitive(init, WithSearchedFilters(init, filters.value), mid);
    }
    var r := SearchParams(query, filters, sort, page, limit);
    assert Extends(r, mid);
    ExtendsTransitive(init, mid, r);
    assert r[..3][0] == r[0] && r[..3][1] == r[1] && r[..3][2] == r[2];
  }

  /** The two defaults of `search` are sent as "1" and "20". */
  lemma DefaultsSent(query: string, filters: Option<MediaFilter>, sort: Option<MediaSort>)
    ensures var r := SearchParams(query, filters, sort, DefaultPage, DefaultLimit);
      |r| >= 3 && r[1] == ("page", "1") && r[2] == ("limit", "20")
  {
    SearchParamsStart(query, filters, sort, DefaultPage, DefaultLimit);
    assert IntToString(1) == NatToString(1) == [DigitChar(1)] == "1";
    assert IntToString(20) == NatToString(20) == NatToString(2) + [DigitChar(0)] == "20";
  }

  /** No element of the list contains the separator `,`. */
  predicate NoComma(xs: Option<seq<string>>) {
    xs.Some? ==> forall k :: 0 <= k < |xs.value| ==> !Contains(xs.value[k], ",")
  }

  /** How the server reads back a bound the client sent. */
  function BoundSent(s: Slot): Bound {
    if SlotGiven(s) then Bound(Some(s.n)) else Unbounded
  }

  lemma ReadListBack(params: Params, name: string, xs: Option<seq<string>>)
    requires Get(params, name) == if ListGiven(xs) then Some(Joined(xs)) else None
    requires NoComma(xs)
    ensures ListOf(params, name) == if ListGiven(xs) then xs else None
  {
    if ListGiven(xs) { SplitJoin(xs.value, ","); }
  }

  lemma ReadBoundBack(params: Params, name: string, s: Slot)
    requires Get(params, name) == if SlotGiven(s) then Some(SlotText(s)) else None
    ensures BoundOf(params, name) == BoundSent(s)
  {
    if SlotGiven(s) { ParseIntOfIntToString(s.n); }
  }

  lemma ReadNumberBack(params: Params, name: string, i: int, fallback: string)
    requires Get(params, name) == Some(IntToString(i))
    ensures ParseInt(GetOr(params, name, fallback)) == Some(i)
  {
    ParseIntOfIntToString(i);
  }

  /** The query the server reads from a list holding what `search` sends under each name it reads. */
  lemma ReadSent(p: Params, query: string, f: MediaFilter, sort: Option<MediaSort>, page: int, limit: int)
    requires Get(p, "q") == Some(query)
    requires Get(p, "page") == Some(IntToString(page)) && Get(p, "limit") == Some(IntToString(limit))
    requires Get(p, "type") == (if ListGiven(f.types) then Some(Joined(f.types)) else None)
    requires Get(p, "genre") == (if ListGiven(f.genres) then Some(Joined(f.genres)) else None)
    requires Get(p, "yearMin") == (if SlotGiven(MinSlot(f.year)) then Some(SlotText(MinSlot(f.year))) else None)
    requires Get(p, "yearMax") == (if SlotGiven(MaxSlot(f.year)) then Some(SlotText(MaxSlot(f.year))) else None)
    requires Get(p, "sortBy") == (if sort.Some? then Some(sort.value.field) else None)
    requires Get(p, "sortDir") == (if sort.Some? then Some(sort.value.direction) else None)
    requires NoComma(f.types) && NoComma(f.genres)
    ensures ReadQuery(p)
      == Query(query, Some(page), Some(limit),
               if ListGiven(f.types) then f.types else None,
               if ListGiven(f.genres) then f.genres else None,
               BoundSent(MinSlot(f.year)), BoundSent(MaxSlot(f.year)),
               if sort.Some? && sort.value.field != "" then sort.value.field else "title",
               if sort.Some? && sort.value.direction != "" then sort.value.direction else "desc")
  {
    ReadNumberBack(p, "page", page, "1");
    ReadNumberBack(p, "limit", limit, "20");
    ReadListBack(p, "type", f.types);
    ReadListBack(p, "genre", f.genres);
    ReadBoundBack(p, "yearMin", MinSlot(f.year));
    ReadBoundBack(p, "yearMax", MaxSlot(f.year));
  }

  /** What `search` sends under the names the server reads. */
  lemma SentToServer(query: string, filters: Option<MediaFilter>, sort: Option<MediaSort>, page: int, limit: int)
    ensures var p := SearchParams(query, filters, sort, page, limit); var f := FilterOf(filters);
      && Get(p, "q") == Some(query)
      && Get(p, "page") == Some(IntToString(page)) && Get(p, "limit") == Some(IntToString(limit))
      && Get(p, "type") == (if ListGiven(f.types) then Some(Joined(f.types)) else None)
      && Get(p, "genre") == (if ListGiven(f.genres) then Some(Joined(f.genres)) else None)
      && Get(p, "yearMin") == (if SlotGiven(MinSlot(f.year)) then Some(SlotText(MinSlot(f.year))) else None)
      && Get(p, "yearMax") == (if SlotGiven(MaxSlot(f.year)) then Some(SlotText(MaxSlot(f.year))) else None)
      && Get(p, "sortBy") == (if sort.Some? then Some(sort.value.field) else None)
      && Get(p, "sortDir") == (if sort.Some? then Some(sort.value.direction) else None)
  {
    SentInitialNames(query, filters, sort, page, limit);
    SentYearNames(query, filters, sort, page, limit);
    SentListNames(query, filters, sort, page, limit);
    SentSortNames(query, filters, sort, page, limit);
  }

  lemma SentInitialNames(query: string, filters: Option<MediaFilter>, sort: Option<MediaSort>, page: int, limit: int)
    ensures var p := SearchParams(query, filters, sort, page, limit);
      && Get(p, "q") == Some(query)
      && Get(p, "page") == Some(IntToString(page)) && Get(p, "limit") == Some(IntToString(limit))
  {
    SearchParamsSend(query, filters, sort, page, limit, "q");
    SearchParamsSend(query, filters, sort, page, limit, "page");
    SearchParamsSend(query, filters, sort, page, limit, "limit");
    SentInitialValues(query, filters, sort, page, limit);
  }

  lemma SentInitialValues(query: string, filters: Option<MediaFilter>, sort: Option<MediaSort>, page: int, limit: int)
    ensures && Sent(query, filters, sort, page, limit, "q") == Some(query)
      && Sent(query, filters, sort, page, limit, "page") == Some(IntToString(page))
      && Sent(query, filters, sort, page, limit, "limit") == Some(IntToString(limit))
  {
  }

  lemma SentListNames(query: string, filters: Option<MediaFilter>, sort: Option<MediaSort>, page: int, limit: int)
    ensures var p := SearchParams(query, filters, sort, page, limit); var f := FilterOf(filters);
      && Get(p, "type") == (if ListGiven(f.types) then Some(Joined(f.types)) else None)
      && Get(p, "genre") == (if ListGiven(f.genres) then Some(Joined(f.genres)) else None)
  {
    SearchParamsSend(query, filters, sort, page, limit, "type");
    SearchParamsSend(query, filters, sort, page, limit, "genre");
    SentListValues(query, filters, sort, page, limit);
  }

  lemma SentListValues(query: string, filters: Option<MediaFilter>, sort: Option<MediaSort>, page: int, limit: int)
    ensures var f := FilterOf(filters);
      && Sent(query, filters, sort, page, limit, "type") == (if ListGiven(f.types) then Some(Joined(f.types)) else None)
      && Sent(query, filters, sort, page, limit, "genre") == (if ListGiven(f.genres) then Some(Joined(f.genres)) else None)
  {
  }

  lemma SentYearNames(query: string, filters: Option<MediaFilter>, sort: Option<MediaSort>, page: int, limit: int)
    ensures var p := SearchParams(query, filters, sort, page, limit); var f := FilterOf(filters);
      && Get(p, "yearMin") == (if SlotGiven(MinSlot(f.year)) then Some(SlotText(MinSlot(f.year))) else None)
      && Get(p, "yearMax") == (if SlotGiven(MaxSlot(f.year)) then Some(SlotText(MaxSlot(f.year))) else None)
  {
    SearchParamsSend(query, filters, sort, page, limit, "yearMin");
    SearchParamsSend(query, filters, sort, page, limit, "yearMax");
    SentYearValues(query, filters, sort, page, limit);
  }

  lemma SentYearValues(query: string, filters: Option<MediaFilter>, sort: Option<MediaSort>, page: int, limit: int)
    ensures var f := FilterOf(filters);
      && Sent(query, filters, sort, page, limit, "yearMin") == (if SlotGiven(MinSlot(f.year)) then Some(SlotText(MinSlot(f.year))) else None)
      && Sent(query, filters, sort, page, limit, "yearMax") == (if SlotGiven(MaxSlot(f.year)) then Some(SlotText(MaxSlot(f.year))) else None)
  {
  }

  lemma SentSortNames(query: string, filters: Option<MediaFilter>, sort: Option<MediaSort>, page: int, limit: int)
    ensures var p := SearchParams(query, filters, sort, page, limit);
      && Get(p, "sortBy") == (if sort.Some? then Some(sort.value.field) else None)
      && Get(p, "sortDir") == (if sort.Some? then Some(sort.value.direction) else None)
  {
    SearchParamsSend(query, filters, sort, page, limit, "sortBy");
    SearchParamsSend(query, filters, sort, page, limit, "sortDir");
    SentSortValues(query, filters, sort, page, limit);
  }

  lemma SentSortValues(query: string, filters: Option<MediaFilter>, sort: Option<MediaSort>, page: int, limit: int)
    ensures && Sent(query, filters, sort, page, limit, "sortBy") == (if sort.Some? then Some(sort.value.field) else None)
      && Sent(query, filters, sort, page, limit, "sortDir") == (if sort.Some? then Some(sort.value.direction) else None)
  {
  }

  /**
   * The server reads back what `search` sent: the query text, the page and
   * the limit; the type and genre lists when given and not empty (provided no
   * name contains a comma); each year bound when non-zero; and the sort field
   * and direction, falling back to its own defaults when they are absent or
   * empty.
   */
  lemma ServerReadsSearch(query: string, filters: Option<MediaFilter>, sort: Option<MediaSort>, page: int, limit: int)
    requires NoComma(FilterOf(filters).types) && NoComma(FilterOf(filters).genres)
    ensures var f := FilterOf(filters);
      ReadQuery(SearchParams(query, filters, sort, page, limit))
      == Query(query, Some(page), Some(limit),
               if ListGiven(f.types) then f.types else None,
               if ListGiven(f.genres) then f.genres else None,
               BoundSent(MinSlot(f.year)), BoundSent(MaxSlot(f.year)),
               if sort.Some? && sort.value.field != "" then sort.value.field else "title",
               if sort.Some? && sort.value.direction != "" then sort.value.direction else "desc")
  {
    SentToServer(query, filters, sort, page, limit);
    ReadSent(SearchParams(query, filters, sort, page, limit), query, FilterOf(filters), sort, page, limit);
  }

  /** The request `toggleFavorite` sends. */
  datatype Verb = Post | Delete

  /** The set with the membership of `id` flipped. */
  function Flip(s: set<int>, id: int): (r: set<int>)
    ensures id in r <==> id !in s
    ensures forall x :: x != id ==> (x in r <==> x in s)
  {
    if id in s then s - {id} else s + {id}
  }

  /** Flipping the same id twice restores the set. */
  lemma FlipTwice(s: set<int>, id: int)
    ensures Flip(Flip(s, id), id) == s
  {
  }

  /** The ids of the fetched favourites rows, `new Set(data.map(fav => fav.mediaId))`. */
  function IdsOf(ids: seq<int>): (r: set<int>)
    ensures forall x :: x in r <==> x in ids
  {
    if ids == [] then {} else {ids[0]} + IdsOf(ids[1..])
  }

  /** The state `useFavorites` keeps. */
  class FavoritesState {
    var favorites: set<int>

    constructor()
      ensures favorites == {}
    {
      favorites := {};
    }

    /** DELETE for a favourite, POST otherwise. */
    function RequestFor(mediaId: int): Verb
      reads this
    {
      if mediaId in favorites then Delete else Post
    }

    /**
     * `toggleFavorite(mediaId)`, `ok` being whether the request returned a
     * success status (false also for a failed request). On success the
     * membership of `mediaId` flips and nothing else changes; otherwise the
     * set is unchanged. Either way the result is the membership afterwards.
     */
    method Toggle(mediaId: int, ok: bool) returns (sent: Verb, isFavorite: bool)
      modifies this
      ensures sent == (if mediaId in old(favorites) then Delete else Post)
      ensures favorites == if ok then Flip(old(favorites), mediaId) else old(favorites)
      ensures isFavorite == (mediaId in favorites)
    {
      var wasFavorite := mediaId in favorites;
      sent := if wasFavorite then Delete else Post;
      if ok {
        var newSet := favorites;
        if wasFavorite {
          newSet := newSet - {mediaId};
        } else {
          newSet := newSet + {mediaId};
        }
        favorites := newSet;
        return sent, !wasFavorite;
      }
      isFavorite := wasFavorite;
    }

    /** `fetchFavorites`: the media ids of a successful reply replace the set; otherwise it stays. */
    method Fetch(reply: Option<seq<int>>)
      modifies this
      ensures reply.Some? ==> forall x :: x in favorites <==> x in reply.value
      ensures reply.None? ==> favorites == old(favorites)
    {
      if reply.Some? {
        favorites := IdsOf(reply.value);
      }
    }
  }

  /** Two successful toggles of one id send POST then DELETE (or the reverse) and restore the set. */
  method ToggleTwice(state: FavoritesState, mediaId: int) returns (first: Verb, second: Verb)
    modifies state
    ensures state.favorites == old(state.favorites)
    ensures first != second
  {
    var a, b;
    first, a := state.Toggle(mediaId, true);
    second, b := state.Toggle(mediaId, true);
    FlipTwice(old(state.favorites), mediaId);
  }
}
