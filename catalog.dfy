/** The catalog record and the marketplace filter of `src/App.jsx`: the
    visible list is `items.filter(...)` where a non-empty search query takes
    priority over the category/tag filter. */
module Catalog {
  import opened Text

  /** One catalog record. Prices and the deposit are whole euros. */
  datatype Item = Item(
    id: int,
    title: string,
    category: string,
    size: string,
    condition: string,
    description: string,
    image: string,
    priceRent: nat,
    priceBuy: nat,
    deposit: nat,
    tags: seq<string>,
    seller: string,
    sellerRating: real,
    sellerYear: string)

  /** The filter value that shows every item. */
  const AllFilter := "all"

  /** The search branch: the lower-cased query is a substring of the
      lower-cased title, of some tag (tags are not lower-cased), or of the
      lower-cased category. */
  predicate MatchesQuery(item: Item, searchQuery: string)
    ensures Lower(searchQuery) == Lower(item.title) ==> MatchesQuery(item, searchQuery)
    ensures Lower(searchQuery) in item.tags ==> MatchesQuery(item, searchQuery)
  {
    var q := Lower(searchQuery);
    || Contains(Lower(item.title), q)
    || (exists t | t in item.tags :: Contains(t, q))
    || Contains(Lower(item.category), q)
  }

  /** The category branch: the filter is one of the tags, or equals the
      lower-cased category. */
  predicate MatchesFilter(item: Item, activeFilter: string) {
    activeFilter in item.tags || Lower(item.category) == activeFilter
  }

  /** The callback passed to `items.filter`. */
  predicate Keeps(item: Item, searchQuery: string, activeFilter: string) {
    if searchQuery != "" then MatchesQuery(item, searchQuery)
    else activeFilter == AllFilter || MatchesFilter(item, activeFilter)
  }

  /** The visible list: the items that `Keeps` accepts, in catalog order. */
  function FilteredItems(items: seq<Item>, searchQuery: string, activeFilter: string): (r: seq<Item>)
    ensures |r| <= |items|
    ensures forall x :: x in r <==> x in items && Keeps(x, searchQuery, activeFilter)
  {
    if items == [] then []
    else
      var rest := FilteredItems(items[1..], searchQuery, activeFilter);
      if Keeps(items[0], searchQuery, activeFilter) then [items[0]] + rest else rest
  }

  /** `r` can be obtained from `s` by deleting elements, keeping the order
      of the rest. */
  ghost predicate IsSubsequence<T>(r: seq<T>, s: seq<T>)
    decreases |s|
  {
    if r == [] then true
    else if s == [] then false
    else (r[0] == s[0] && IsSubsequence(r[1..], s[1..])) || IsSubsequence(r, s[1..])
  }

  /** Filtering keeps the catalog's order and never duplicates an entry. */
  lemma {:induction false} FilteredIsSubsequence(items: seq<Item>, searchQuery: string, activeFilter: string)
    ensures IsSubsequence(FilteredItems(items, searchQuery, activeFilter), items)
  {
    if items != [] {
      FilteredIsSubsequence(items[1..], searchQuery, activeFilter);
      var rest := FilteredItems(items[1..], searchQuery, activeFilter);
      if Keeps(items[0], searchQuery, activeFilter) {
        assert ([items[0]] + rest)[1..] == rest;
      }
    }
  }

  /** When every item passes, the visible list is the whole catalog. */
  lemma {:induction false} FilteredAllKept(items: seq<Item>, searchQuery: string, activeFilter: string)
    requires forall i :: 0 <= i < |items| ==> Keeps(items[i], searchQuery, activeFilter)
    ensures FilteredItems(items, searchQuery, activeFilter) == items
  {
    if items != [] {
      FilteredAllKept(items[1..], searchQuery, activeFilter);
    }
  }

  /** With an empty query and the filter "all", nothing is hidden. */
  lemma EmptyQueryAllFilterShowsEverything(items: seq<Item>)
    ensures FilteredItems(items, "", AllFilter) == items
  {
    FilteredAllKept(items, "", AllFilter);
  }

  /** A non-empty query decides alone: the category/tag filter is ignored. */
  lemma {:induction false} SearchIgnoresFilter(items: seq<Item>, searchQuery: string, f1: string, f2: string)
    requires searchQuery != ""
    ensures FilteredItems(items, searchQuery, f1) == FilteredItems(items, searchQuery, f2)
  {
    if items != [] {
      SearchIgnoresFilter(items[1..], searchQuery, f1, f2);
    }
  }

  /** Membership in the visible list under a non-empty query, spelled out. */
  lemma SearchMembership(items: seq<Item>, searchQuery: string, activeFilter: string, x: Item)
    requires searchQuery != ""
    ensures x in FilteredItems(items, searchQuery, activeFilter) <==>
              x in items &&
              (|| Contains(Lower(x.title), Lower(searchQuery))
               || (exists t | t in x.tags :: Contains(t, Lower(searchQuery)))
               || Contains(Lower(x.category), Lower(searchQuery)))
  {
  }

  /** Membership in the visible list under an empty query and a filter other
      than "all", spelled out. */
  lemma CategoryMembership(items: seq<Item>, activeFilter: string, x: Item)
    requires activeFilter != AllFilter
    ensures x in FilteredItems(items, "", activeFilter) <==>
              x in items && (activeFilter in x.tags || Lower(x.category) == activeFilter)
  {
  }

  /** Putting an item in front of the catalog changes the visible list only
      by that item, and only when it passes the filter. */
  lemma FilteredPrepend(x: Item, items: seq<Item>, searchQuery: string, activeFilter: string)
    ensures FilteredItems([x] + items, searchQuery, activeFilter) ==
              (if Keeps(x, searchQuery, activeFilter) then [x] else []) + FilteredItems(items, searchQuery, activeFilter)
  {
    assert ([x] + items)[1..] == items;
  }
}
