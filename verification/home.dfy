/** The list pipeline and handlers of `Home.jsx`: previews are sorted by the
    chosen criterion, then kept when their title contains the search query
    (ignoring case), then kept when they carry the chosen genre. */
module Home {
  import opened Prelude
  import opened Text
  import opened Seqs
  import opened StableSort
  import opened Catalog
  import opened Favorites

  // ---- Comparators ----
  // `collate(a, b)` stands for `a.localeCompare(b) <= 0`; it is any total preorder
  // on titles. A comparator `cmp` lets `a` come before `b` when `cmp(a, b) <= 0`.

  /** `'A-Z'`: `a.title.localeCompare(b.title)`. */
  function TitleAscending(collate: (string, string) -> bool): (ShowPreview, ShowPreview) -> bool
  {
    (a: ShowPreview, b: ShowPreview) => collate(a.title, b.title)
  }

  /** `'Z-A'`: `b.title.localeCompare(a.title)`. */
  function TitleDescending(collate: (string, string) -> bool): (ShowPreview, ShowPreview) -> bool
  {
    (a: ShowPreview, b: ShowPreview) => collate(b.title, a.title)
  }

  /** `'Newest'`: `new Date(b.updated) - new Date(a.updated)`. */
  function Newest(): (ShowPreview, ShowPreview) -> bool
  {
    (a: ShowPreview, b: ShowPreview) => b.updated <= a.updated
  }

  /** `'Oldest'`: `new Date(a.updated) - new Date(b.updated)`. */
  function Oldest(): (ShowPreview, ShowPreview) -> bool
  {
    (a: ShowPreview, b: ShowPreview) => a.updated <= b.updated
  }

  // ---- The three stages ----

  /** `sortData`: a sorted copy for the four known criteria, the input itself
      otherwise. Every criterion returns a permutation of the input; the input
      itself is a value and stays as it was. */
  function SortData(criteria: string, data: seq<ShowPreview>, collate: (string, string) -> bool): (r: seq<ShowPreview>)
    ensures multiset(r) == multiset(data)
  {
    if criteria == "A-Z" then SortPermutes(TitleAscending(collate), data); Sort(TitleAscending(collate), data)
    else if criteria == "Z-A" then SortPermutes(TitleDescending(collate), data); Sort(TitleDescending(collate), data)
    else if criteria == "Newest" then SortPermutes(Newest(), data); Sort(Newest(), data)
    else if criteria == "Oldest" then SortPermutes(Oldest(), data); Sort(Oldest(), data)
    else data
  }

  /** The search predicate: the lower-cased title contains the lower-cased query. */
  predicate MatchesQuery(p: ShowPreview, query: string)
  {
    Contains(ToLower(p.title), ToLower(query))
  }

  /** `filterData`: only input previews that match the query, never more of
      them than the input holds. */
  function FilterData(data: seq<ShowPreview>, query: string): (r: seq<ShowPreview>)
    ensures forall x :: x in r ==> x in data && MatchesQuery(x, query)
    ensures |r| <= |data|
  {
    FilterMembers((p: ShowPreview) => MatchesQuery(p, query), data);
    FilterShrinks((p: ShowPreview) => MatchesQuery(p, query), data);
    Filter((p: ShowPreview) => MatchesQuery(p, query), data)
  }

  /** `podcast.genres.includes(parseInt(genre))`; NaN is in no genre list. */
  predicate InGenre(p: ShowPreview, genre: string)
  {
    var n := ParseInt(genre);
    n.Some? && n.value in p.genres
  }

  /** `genreFilterData`: `'All'` bypasses the stage; otherwise only input
      previews in the parsed genre remain. */
  function GenreFilterData(data: seq<ShowPreview>, genre: string): (r: seq<ShowPreview>)
    ensures forall x :: x in r ==> x in data && (genre == "All" || InGenre(x, genre))
    ensures |r| <= |data|
  {
    if genre == "All" then data
    else
      FilterMembers((p: ShowPreview) => InGenre(p, genre), data);
      FilterShrinks((p: ShowPreview) => InGenre(p, genre), data);
      Filter((p: ShowPreview) => InGenre(p, genre), data)
  }

  /** The filter-and-sort effect: sort, then search, then genre. Every listed
      preview comes from the input and passes both filters. */
  function Pipeline(previews: seq<ShowPreview>, criteria: string, query: string, genre: string,
                    collate: (string, string) -> bool): (r: seq<ShowPreview>)
    ensures forall x :: x in r ==> x in previews && MatchesQuery(x, query) && (genre == "All" || InGenre(x, genre))
    ensures |r| <= |previews|
  {
    var sorted := SortData(criteria, previews, collate);
    assert forall x :: x in sorted ==> x in multiset(previews);
    assert |sorted| == |multiset(sorted)| == |multiset(previews)| == |previews|;
    GenreFilterData(FilterData(sorted, query), genre)
  }

  // ---- Sorting ----

  lemma TitleOrdersArePreorders(collate: (string, string) -> bool)
    requires TotalPreorder(collate)
    ensures TotalPreorder(TitleAscending(collate)) && TotalPreorder(TitleDescending(collate))
  {
    var up, down := TitleAscending(collate), TitleDescending(collate);
    forall a, b, c | up(a, b) && up(b, c) ensures up(a, c) {
      assert collate(a.title, b.title) && collate(b.title, c.title);
    }
    forall a, b, c | down(a, b) && down(b, c) ensures down(a, c) {
      assert collate(c.title, b.title) && collate(b.title, a.title);
    }
    forall a, b ensures up(a, b) || up(b, a) {
      assert collate(a.title, b.title) || collate(b.title, a.title);
    }
    forall a, b ensures down(a, b) || down(b, a) {
      assert collate(b.title, a.title) || collate(a.title, b.title);
    }
  }

  lemma DateOrdersArePreorders()
    ensures TotalPreorder(Newest()) && TotalPreorder(Oldest())
  {
  }

  /** `'A-Z'` is non-decreasing by title; previews whose titles tie keep their input order. */
  lemma SortAToZ(data: seq<ShowPreview>, collate: (string, string) -> bool)
    requires TotalPreorder(collate)
    ensures var r := SortData("A-Z", data, collate);
      && (forall i, j :: 0 <= i < j < |r| ==> collate(r[i].title, r[j].title))
      && StableWrt(TitleAscending(collate), r, data)
  {
    TitleOrdersArePreorders(collate);
    SortSorted(TitleAscending(collate), data);
    SortStable(TitleAscending(collate), data);
  }

  /** `'Z-A'` is non-increasing by title; previews whose titles tie keep their input order. */
  lemma SortZToA(data: seq<ShowPreview>, collate: (string, string) -> bool)
    requires TotalPreorder(collate)
    ensures var r := SortData("Z-A", data, collate);
      && (forall i, j :: 0 <= i < j < |r| ==> collate(r[j].title, r[i].title))
      && StableWrt(TitleDescending(collate), r, data)
  {
    TitleOrdersArePreorders(collate);
    SortSorted(TitleDescending(collate), data);
    SortStable(TitleDescending(collate), data);
  }

  /** `'Newest'` is non-increasing in `updated`; equal dates keep their input order. */
  lemma SortNewest(data: seq<ShowPreview>, collate: (string, string) -> bool)
    ensures var r := SortData("Newest", data, collate);
      && (forall i, j :: 0 <= i < j < |r| ==> r[j].updated <= r[i].updated)
      && StableWrt(Newest(), r, data)
  {
    DateOrdersArePreorders();
    SortSorted(Newest(), data);
    SortStable(Newest(), data);
  }

  /** `'Oldest'` is non-decreasing in `updated`; equal dates keep their input order. */
  lemma SortOldest(data: seq<ShowPreview>, collate: (string, string) -> bool)
    ensures var r := SortData("Oldest", data, collate);
      && (forall i, j :: 0 <= i < j < |r| ==> r[i].updated <= r[j].updated)
      && StableWrt(Oldest(), r, data)
  {
    DateOrdersArePreorders();
    SortSorted(Oldest(), data);
    SortStable(Oldest(), data);
  }

  /** Any other criterion, `'All'` included, keeps the catalog order. */
  lemma SortOther(criteria: string, data: seq<ShowPreview>, collate: (string, string) -> bool)
    requires criteria !in {"A-Z", "Z-A", "Newest", "Oldest"}
    ensures SortData(criteria, data, collate) == data
  {
  }

  // ---- Filtering ----

  /** `filterData` keeps exactly the previews whose title matches the query,
      as often as they occur, in input order; an empty query keeps them all. */
  lemma FilterDataSpec(data: seq<ShowPreview>, query: string)
    ensures var r := FilterData(data, query);
      && (forall x :: multiset(r)[x] == if MatchesQuery(x, query) then multiset(data)[x] else 0)
      && IsSubsequence(r, data)
      && (query == [] ==> r == data)
  {
    var p := (p: ShowPreview) => MatchesQuery(p, query);
    FilterCounts(p, data);
    FilterIsSubsequence(p, data);
    if query == [] {
      forall x | x in data ensures p(x) {
        ContainsEmpty(ToLower(x.title));
      }
      FilterKeepsAll(p, data);
    }
  }

  /** `genreFilterData` with `'All'` is the identity; otherwise it keeps
      exactly the previews in the parsed genre, in input order. */
  lemma GenreFilterDataSpec(data: seq<ShowPreview>, genre: string)
    ensures var r := GenreFilterData(data, genre);
      && (genre == "All" ==> r == data)
      && (genre != "All" ==> forall x :: multiset(r)[x] == if InGenre(x, genre) then multiset(data)[x] else 0)
      && IsSubsequence(r, data)
  {
    if genre != "All" {
      FilterCounts((p: ShowPreview) => InGenre(p, genre), data);
      FilterIsSubsequence((p: ShowPreview) => InGenre(p, genre), data);
    } else {
      FilterIsSubsequence((p: ShowPreview) => true, data);
      FilterKeepsAll((p: ShowPreview) => true, data);
    }
  }

  /** The genre dropdown's option values are the genre ids rendered in
      decimal; selecting one keeps exactly the previews listing that id. */
  lemma GenreOptionSelectsId(data: seq<ShowPreview>, id: nat)
    ensures var r := GenreFilterData(data, NatToDecimal(id));
      forall x :: multiset(r)[x] == if id in x.genres then multiset(data)[x] else 0
  {
    var g := NatToDecimal(id);
    assert IsDigit(g[0]);
    assert g != "All" by { assert !IsDigit('A'); }
    ParseIntDecimal(id);
    GenreFilterDataSpec(data, g);
  }

  // ---- The whole pipeline ----

  /** The pipeline holds only previews from the input, each matching the query
      and the genre; applying the same search and genre filters to its result
      changes nothing. */
  lemma PipelineSpec(previews: seq<ShowPreview>, criteria: string, query: string, genre: string,
                     collate: (string, string) -> bool)
    ensures var r := Pipeline(previews, criteria, query, genre, collate);
      && multiset(r) <= multiset(previews)
      && (forall x :: x in r ==> MatchesQuery(x, query) && (genre == "All" || InGenre(x, genre)))
      && GenreFilterData(FilterData(r, query), genre) == r
  {
    var sorted := SortData(criteria, previews, collate);
    var searched := FilterData(sorted, query);
    var r := Pipeline(previews, criteria, query, genre, collate);
    var q := (p: ShowPreview) => MatchesQuery(p, query);
    var g := (p: ShowPreview) => InGenre(p, genre);
    FilterShrinks(q, sorted);
    FilterMembers(q, sorted);
    if genre != "All" {
      FilterShrinks(g, searched);
      FilterMembers(g, searched);
    }
    assert forall x :: x in r ==> x in searched;
    FilterKeepsAll(q, r);
    if genre != "All" {
      FilterKeepsAll(g, r);
    }
  }

  /** The sort order `le` of a sorted list survives the search and genre filters. */
  lemma FiltersKeepOrder(le: (ShowPreview, ShowPreview) -> bool, sorted: seq<ShowPreview>, query: string, genre: string)
    requires Sorted(le, sorted)
    ensures Sorted(le, GenreFilterData(FilterData(sorted, query), genre))
  {
    FilterSorted(le, (p: ShowPreview) => MatchesQuery(p, query), sorted);
    if genre != "All" {
      FilterSorted(le, (p: ShowPreview) => InGenre(p, genre), FilterData(sorted, query));
    }
  }

  /** Filtering keeps the sort: under each of the four criteria the final
      list is still in that criterion's order. */
  lemma PipelineKeepsOrder(previews: seq<ShowPreview>, query: string, genre: string,
                           collate: (string, string) -> bool)
    requires TotalPreorder(collate)
    ensures var r := Pipeline(previews, "A-Z", query, genre, collate);
      forall i, j :: 0 <= i < j < |r| ==> collate(r[i].title, r[j].title)
    ensures var r := Pipeline(previews, "Z-A", query, genre, collate);
      forall i, j :: 0 <= i < j < |r| ==> collate(r[j].title, r[i].title)
    ensures var r := Pipeline(previews, "Newest", query, genre, collate);
      forall i, j :: 0 <= i < j < |r| ==> r[j].updated <= r[i].updated
    ensures var r := Pipeline(previews, "Oldest", query, genre, collate);
      forall i, j :: 0 <= i < j < |r| ==> r[i].updated <= r[j].updated
  {
    TitleOrdersArePreorders(collate);
    DateOrdersArePreorders();
    SortSorted(TitleAscending(collate), previews);
    SortSorted(TitleDescending(collate), previews);
    SortSorted(Newest(), previews);
    SortSorted(Oldest(), previews);
    FiltersKeepOrder(TitleAscending(collate), Sort(TitleAscending(collate), previews), query, genre);
    FiltersKeepOrder(TitleDescending(collate), Sort(TitleDescending(collate), previews), query, genre);
    FiltersKeepOrder(Newest(), Sort(Newest(), previews), query, genre);
    FiltersKeepOrder(Oldest(), Sort(Oldest(), previews), query, genre);
  }

  /** Sorting a list that is already in the criterion's order changes nothing. */
  lemma SortDataOfSorted(criteria: string, r: seq<ShowPreview>, le: (ShowPreview, ShowPreview) -> bool,
                         collate: (string, string) -> bool)
    requires TotalPreorder(le) && Sorted(le, r)
    requires le == (if criteria == "A-Z" then TitleAscending(collate)
                    else if criteria == "Z-A" then TitleDescending(collate)
                    else if criteria == "Newest" then Newest() else Oldest())
    ensures SortData(criteria, r, collate) == r
  {
    StableSortIsUnique(le, r, r);
  }

  /** Running the whole effect again on its own output, with the same
      criterion, query and genre, changes nothing. */
  lemma PipelineIdempotent(previews: seq<ShowPreview>, criteria: string, query: string, genre: string,
                           collate: (string, string) -> bool)
    requires TotalPreorder(collate)
    ensures var r := Pipeline(previews, criteria, query, genre, collate);
      Pipeline(r, criteria, query, genre, collate) == r
  {
    var r := Pipeline(previews, criteria, query, genre, collate);
    if criteria in ["A-Z", "Z-A", "Newest", "Oldest"] {
      var le := if criteria == "A-Z" then TitleAscending(collate)
                else if criteria == "Z-A" then TitleDescending(collate)
                else if criteria == "Newest" then Newest() else Oldest();
      TitleOrdersArePreorders(collate);
      DateOrdersArePreorders();
      SortSorted(le, previews);
      FiltersKeepOrder(le, Sort(le, previews), query, genre);
      SortDataOfSorted(criteria, r, le, collate);
    }
    PipelineSpec(previews, criteria, query, genre, collate);
  }

  function Alpha(): ShowPreview { ShowPreview("1", "Alpha", "", "", 1, [1], 20240101) }
  function Beta(): ShowPreview { ShowPreview("2", "Beta", "", "", 1, [2], 20240601) }

  /** "Alpha" updated 2024-01-01 and "Beta" updated 2024-06-01 (dates as
      yyyymmdd numbers): `'Newest'` with no query and all genres puts Beta first. */
  lemma NewestScenario(collate: (string, string) -> bool)
    ensures Pipeline([Alpha(), Beta()], "Newest", "", "All", collate) == [Beta(), Alpha()]
  {
    var s := [Alpha(), Beta()];
    assert s[..1] == [Alpha()] && [Alpha()][..0] == [];
    assert Sort(Newest(), [Alpha()]) == [Alpha()];
    assert Sort(Newest(), s) == Insert(Newest(), [Alpha()], Beta()) == [Beta(), Alpha()];
    FilterDataSpec([Beta(), Alpha()], "");
  }

  /** The query "al" keeps "Alpha" and drops "Beta", ignoring case. */
  lemma SearchScenario(collate: (string, string) -> bool)
    ensures Pipeline([Alpha(), Beta()], "All", "al", "All", collate) == [Alpha()]
  {
    assert MatchesQuery(Alpha(), "al") by {
      assert ToLower("Alpha") == "alpha" && ToLower("al") == "al";
      assert OccursAt("alpha", "al", 0);
    }
    assert !MatchesQuery(Beta(), "al") by {
      assert ToLower("Beta") == "beta" && ToLower("al") == "al";
      forall i | 0 <= i <= 2 ensures !OccursAt("beta", "al", i) {
        assert "beta"[i] != 'a';
      }
    }
    assert [Alpha(), Beta()][1..] == [Beta()] && [Beta()][1..] == [];
  }

  // ---- The component ----

  const FetchFailure := "Failed to fetch podcast previews."

  class HomeView {
    /** The title order `localeCompare` implements. */
    const collate: (string, string) -> bool
    var previews: seq<ShowPreview>
    var filteredPreviews: seq<ShowPreview>
    var loading: bool
    var error: Option<string>
    var sortCriteria: string
    var selectedGenre: string
    /** The `searchQuery` prop. */
    var searchQuery: string

    /** The filter-and-sort effect has run on the current inputs. */
    ghost predicate Valid()
      reads this
    {
      filteredPreviews == Pipeline(previews, sortCriteria, searchQuery, selectedGenre, collate)
    }

    constructor (searchQuery0: string, collate0: (string, string) -> bool)
      ensures Valid()
      ensures collate == collate0 && searchQuery == searchQuery0
      ensures previews == [] && filteredPreviews == [] && loading && error == None
      ensures sortCriteria == "All" && selectedGenre == "All"
    {
      collate := collate0;
      previews, filteredPreviews := [], [];
      loading, error := true, None;
      sortCriteria, selectedGenre := "All", "All";
      searchQuery := searchQuery0;
      new;
      Refresh();
    }

    /** The filter-and-sort effect. */
    method Refresh()
      modifies this`filteredPreviews
      ensures Valid()
    {
      filteredPreviews := Pipeline(previews, sortCriteria, searchQuery, selectedGenre, collate);
    }

    /** Completion of the mount-time `fetchPreviews`. */
    method PreviewsFetched(r: Result<seq<ShowPreview>>)
      requires Valid()
      modifies this
      ensures Valid() && !loading
      ensures r.Ok? ==> previews == r.value && error == old(error)
      ensures r.Err? ==> previews == old(previews) && error == Some(FetchFailure)
      ensures sortCriteria == old(sortCriteria) && selectedGenre == old(selectedGenre)
      ensures searchQuery == old(searchQuery)
    {
      if r.Ok? {
        previews := r.value;
        filteredPreviews := r.value;
        loading := false;
        Refresh();
      } else {
        error := Some(FetchFailure);
        loading := false;
      }
    }

    method HandleSortChange(criteria: string)
      modifies this
      ensures Valid() && sortCriteria == criteria
      ensures previews == old(previews) && selectedGenre == old(selectedGenre)
      ensures searchQuery == old(searchQuery) && loading == old(loading) && error == old(error)
    {
      sortCriteria := criteria;
      Refresh();
    }

    method HandleGenreChange(genre: string)
      modifies this
      ensures Valid() && selectedGenre == genre
      ensures previews == old(previews) && sortCriteria == old(sortCriteria)
      ensures searchQuery == old(searchQuery) && loading == old(loading) && error == old(error)
    {
      selectedGenre := genre;
      Refresh();
    }

    /** A new `searchQuery` prop from the header. */
    method SearchChanged(query: string)
      modifies this
      ensures Valid() && searchQuery == query
      ensures previews == old(previews) && sortCriteria == old(sortCriteria)
      ensures selectedGenre == old(selectedGenre) && loading == old(loading) && error == old(error)
    {
      searchQuery := query;
      Refresh();
    }

    /** `handleFavoriteToggle`: flips whether the preview's id is a favorite. */
    method HandleFavoriteToggle(store: FavoritesStore, podcast: ShowPreview)
      modifies store
      ensures store.Valid()
      ensures store.IsFavorite(StrId(podcast.id)) == !old(store.IsFavorite(StrId(podcast.id)))
      ensures store.favorites == Toggle(old(store.favorites), PreviewFavorite(podcast))
      ensures store.storage == Save(old(store.storage), store.favorites)
    {
      if store.IsFavorite(StrId(podcast.id)) {
        store.RemoveFavorite(StrId(podcast.id));
      } else {
        store.AddFavorite(PreviewFavorite(podcast));
      }
    }
  }
}
