# Podcast app core, modelled in Dafny

The app is a React podcast directory and player. It lists shows from a remote
catalog, sorts and filters that list, opens a show's seasons and episodes,
plays episode audio, and keeps favorites in browser storage. This project
models the parts of it that are logic rather than rendering:

- **Favorites store** (`favorites.dfy`, module `Favorites`). This is the context
  provider: a class holding the `favorites` map, keyed by the property key of a
  record's `id`, and the browser storage map. `AddFavorite`,
  `RemoveFavorite` and `ResetFavorites` update the map. After each of them the
  persist effect (`Persist`) writes the whole map back under `"favorites"`.
  `Step`, `Toggle` and `Replay` are the pure transitions that specify the
  methods. `Load` is the lazy initial state.
- **List pipeline** (`home.dfy`, module `Home`, with the generic `StableSort`,
  `Seqs` and `Text` modules). It holds `sortData`, `filterData` and
  `genreFilterData`, the pipeline `genre(search(sort(previews)))`, and the
  `HomeView` component state with its handlers.
- **Catalog client** (`catalog.dfy`, module `Catalog`). It holds the
  normalisation `fetchShow` applies to a show payload, with its round trip, and
  the ok/not-ok outcome of `fetchPreviews` and `fetchShow`.
- **Show page** (`show_page.dfy`). It covers the season dropdown, the single
  now-playing slot, and the favorite heart of each episode.
- **Podcast list entry** (`podcast_item.dfy`). It covers the selected episode,
  the playing flag and the audio source of one list entry.
- **Favorites page** (`your_fav.dfy`). It lists the stored records, plays at
  most one of them at a time, and wires the Remove and Reset All buttons.

Handlers are modelled as sequential state transitions. Each effect that a
state change triggers runs at the end of the handler that caused it. Fetch
results, the clock's ISO timestamp (`addedDate`) and the title collation are
parameters.

Three behaviours of the code that are easy to misread:

- Malformed stored favorites make `JSON.parse` throw at
  `podcast/src/contexts/FavoritesContext.jsx:8`. There is no fallback to an
  empty map. `Favorites.Load` returns `Err` and `Favorites.Mount` fails in
  that case.
- `resetFavorites` removes the storage key, but the persist effect then runs
  for the new `{}` state and writes `{}` back. After a reset the slot holds
  the serialised empty map, not nothing. A reload still yields the empty map.
- Genres are a list (`genres.includes(...)`), not a set. The genre value is
  parsed with `parseInt`.

How the modelled components are wired in the app:

- Two `FavoritesProvider`s are mounted: one in `podcast/src/main.jsx:8` around
  `App`, and one in `podcast/src/App.jsx:28` inside it. Every consumer reads the
  inner one. The outer one never changes its state, and its persist effect
  only writes back, at its own mount, the map it loaded. So one store models
  both.
- `handleFavoriteToggle` (`podcast/src/components/Home.jsx:114-120`) is not
  attached to any element. The action-buttons block at
  `podcast/src/components/Home.jsx:220-222` is empty. `Home.HomeView.HandleFavoriteToggle`
  models what the handler would do if it were called.
- No component cited here, and neither `App.jsx` nor `Header.jsx`, imports
  `PodcastItem`. Its state machine is modelled on its own.

## Model

| member | source | states |
|---|---|---|
| Favorites.Load | podcast/src/contexts/FavoritesContext.jsx:6-9 | A missing key gives the empty map. Malformed stored text is the only error. |
| Favorites.Save | podcast/src/contexts/FavoritesContext.jsx:11-13 | Reloading after a persist yields exactly the persisted map. Persisting leaves every other storage key and its value as it was. |
| Favorites.FavoritesStore.constructor | podcast/src/contexts/FavoritesContext.jsx:6-13 | Mounting starts from the stored map (the empty map when the key is absent) and the first effect run writes it back. |
| Favorites.Mount | podcast/src/contexts/FavoritesContext.jsx:6-9 | Mounting fails exactly when the stored text is malformed. Otherwise the store holds what storage held and is persisted, and every other storage key stays as it was. |
| Favorites.FavoritesStore.Persist | podcast/src/contexts/FavoritesContext.jsx:11-13 | Writes the whole map under `"favorites"`, so a reload yields the current map. |
| Favorites.FavoritesStore.AddFavorite | podcast/src/contexts/FavoritesContext.jsx:15-20 | The id becomes a favorite holding exactly the record. The map is `Step(old, Add(f))` and is persisted. Well-keyedness is kept. |
| Favorites.FavoritesStore.RemoveFavorite | podcast/src/contexts/FavoritesContext.jsx:22-25 | The id stops being a favorite. The map is `Step(old, Remove(id))` and is persisted. |
| Favorites.FavoritesStore.ResetFavorites | podcast/src/contexts/FavoritesContext.jsx:31-34 | The map is empty, the slot holds the empty map, and a reload yields the empty map. |
| Favorites.IsFavoriteIn | podcast/src/contexts/FavoritesContext.jsx:27-29 | In a well-keyed map, an id is a favorite exactly when some stored record has an id with the same property key. |
| Favorites.FavoritesStore.IsFavorite | podcast/src/contexts/FavoritesContext.jsx:27-29 | While every change is persisted, the answer equals what a reload from storage would give. |
| Favorites.Step | podcast/src/contexts/FavoritesContext.jsx:15-33 | Only an add creates or changes an entry, and only under its record's key. Only a remove of that key or a reset drops an entry. |
| Favorites.AddSpec | podcast/src/contexts/FavoritesContext.jsx:15-20 | After an add the record sits under its id and every other key is unchanged. Adding the same id twice keeps only the later record. |
| Favorites.RemoveSpec | podcast/src/contexts/FavoritesContext.jsx:22-25 | After a remove the id is absent and every other key is unchanged. Removing an absent id changes nothing. |
| Favorites.ResetSpec | podcast/src/contexts/FavoritesContext.jsx:31-33 | After a reset no id is a favorite. |
| Favorites.StepKeepsWellKeyed | podcast/src/contexts/FavoritesContext.jsx:15-33 | No operation files a record under a key other than its own id's. |
| Favorites.ReplayNetEffect | podcast/src/contexts/FavoritesContext.jsx:15-33 | After any sequence of adds, removes and resets, an id's status and record are those left by the last operation on its key. |
| Favorites.Toggle | podcast/src/components/Home.jsx:114-120 | A toggle changes no entry except the record's own key. If that key is present afterwards it holds the record. |
| Favorites.ToggleFlips | podcast/src/components/Home.jsx:114-120 | A favorite toggle flips the status of the record's key and of no other key. |
| Favorites.NumericKeysDistinct | podcast/src/contexts/FavoritesContext.jsx:18 | Two numeric ids coerce to the same property key only when they are equal. |
| Text.NatToDecimalInjective | podcast/src/contexts/FavoritesContext.jsx:18 | Decimal rendering of numbers (number-to-key coercion) is injective. |
| Text.ToLower | podcast/src/components/Home.jsx:83 | Lower-casing keeps the length, leaves no upper-case letter, and changes characters only by case. |
| Text.ToLowerIdempotent | podcast/src/components/Home.jsx:83 | Lower-casing twice equals lower-casing once. |
| Text.ContainsEmpty | podcast/src/components/Home.jsx:83 | Every title contains the empty query. |
| Text.ParseInt | podcast/src/components/Home.jsx:92 | The result is NaN exactly when the text does not start with a digit. Otherwise it is a non-negative value. |
| Text.ParseIntDecimal | podcast/src/components/Home.jsx:92 | `parseInt` recovers a genre id from its decimal option value. |
| Seqs.FilterCounts | podcast/src/components/Home.jsx:81-93 | `filter` keeps every occurrence that satisfies the predicate and no other. |
| Seqs.FilterIsSubsequence | podcast/src/components/Home.jsx:81-93 | `filter` never reorders: its result is a subsequence of the input. |
| Seqs.FilterKeepsAll | podcast/src/components/Home.jsx:81-93 | Filtering a list whose elements all pass returns it unchanged. |
| Seqs.FilterIdempotent | podcast/src/components/Home.jsx:81-93 | Filtering twice with the same predicate equals filtering once. |
| StableSort.SortPermutes | podcast/src/components/Home.jsx:59-78 | The sort returns a permutation of its input. |
| StableSort.SortSorted | podcast/src/components/Home.jsx:59-78 | Under any total preorder comparator the sort's output is ordered. |
| StableSort.SortStable | podcast/src/components/Home.jsx:59-78 | Elements the comparator ties keep their input order (stable sort). |
| StableSort.StableSortIsUnique | podcast/src/components/Home.jsx:59-78 | Any sorted, stable permutation equals the modelled sort. The model does not depend on the engine's sort algorithm. |
| StableSort.FilterSorted | podcast/src/components/Home.jsx:96-100 | Filtering a sorted list keeps it sorted. |
| Home.TitleOrdersArePreorders | podcast/src/components/Home.jsx:62-67 | The A-Z and Z-A comparators are total preorders whenever the title collation is. |
| Home.DateOrdersArePreorders | podcast/src/components/Home.jsx:68-73 | The Newest and Oldest comparators are total preorders. |
| Home.SortData | podcast/src/components/Home.jsx:59-78 | Every criterion yields a permutation of the previews. |
| Home.SortAToZ | podcast/src/components/Home.jsx:62-64 | `'A-Z'` output is non-decreasing by title. Tied titles keep their input order. |
| Home.SortZToA | podcast/src/components/Home.jsx:65-67 | `'Z-A'` output is non-increasing by title. Tied titles keep their input order. |
| Home.SortNewest | podcast/src/components/Home.jsx:68-70 | `'Newest'` output is non-increasing in `updated`. Equal dates keep their input order. |
| Home.SortOldest | podcast/src/components/Home.jsx:71-73 | `'Oldest'` output is non-decreasing in `updated`. Equal dates keep their input order. |
| Home.SortOther | podcast/src/components/Home.jsx:74-75 | Any other criterion, `'All'` included, returns the input unchanged. |
| Home.FilterData | podcast/src/components/Home.jsx:81-85 | Only input previews that match the query remain, and no more of them than the input holds. |
| Home.FilterDataSpec | podcast/src/components/Home.jsx:81-85 | Keeps exactly the previews whose lower-cased title contains the lower-cased query, in input order. An empty query keeps all. |
| Home.GenreFilterData | podcast/src/components/Home.jsx:88-93 | Only input previews remain, and each is in the parsed genre unless the genre is `'All'`. |
| Home.GenreFilterDataSpec | podcast/src/components/Home.jsx:88-93 | `'All'` is the identity. Otherwise the stage keeps exactly the previews in the parsed genre, in order. |
| Home.GenreOptionSelectsId | podcast/src/components/Home.jsx:92 | Choosing genre option `n` keeps exactly the previews whose `genres` list `n`. |
| Home.Pipeline | podcast/src/components/Home.jsx:96-100 | Every listed preview comes from the input and passes both the search and the genre filter. |
| Home.PipelineSpec | podcast/src/components/Home.jsx:96-100 | The result holds only input previews, each matching the query and the genre. Re-applying both filters changes nothing. |
| Home.FiltersKeepOrder | podcast/src/components/Home.jsx:96-100 | The search and genre filters keep any order a sorted list is in. |
| Home.PipelineKeepsOrder | podcast/src/components/Home.jsx:96-100 | After both filters the `'A-Z'`, `'Z-A'`, `'Newest'` and `'Oldest'` orders still hold. |
| Home.SortDataOfSorted | podcast/src/components/Home.jsx:59-78 | Sorting a list already in the criterion's order returns it unchanged. |
| Home.PipelineIdempotent | podcast/src/components/Home.jsx:57-101 | Running the whole sort-search-genre effect on its own output, with the same criterion, query and genre, changes nothing. This holds for every criterion. |
| Home.NewestScenario | podcast/src/components/Home.jsx:96-100 | With Alpha (January) and Beta (June), `'Newest'` lists Beta first. |
| Home.SearchScenario | podcast/src/components/Home.jsx:96-100 | The query "al" keeps Alpha and drops Beta. |
| Home.HomeView.constructor | podcast/src/components/Home.jsx:17-22 | Starts loading, with no previews and `'All'` for both criterion and genre. |
| Home.HomeView.Refresh | podcast/src/components/Home.jsx:57-101 | The effect sets the shown list to the pipeline over the current inputs. |
| Home.HomeView.PreviewsFetched | podcast/src/components/Home.jsx:39-54 | On success the previews are the payload and the list is recomputed. On failure the fixed error message is set. Loading ends either way. |
| Home.HomeView.HandleSortChange | podcast/src/components/Home.jsx:104-106 | The new criterion takes effect and the list is recomputed. Nothing else changes. |
| Home.HomeView.HandleGenreChange | podcast/src/components/Home.jsx:109-111 | The new genre takes effect and the list is recomputed. Nothing else changes. |
| Home.HomeView.SearchChanged | podcast/src/components/Home.jsx:57-101 | A new query prop takes effect and the list is recomputed. |
| Home.HomeView.HandleFavoriteToggle | podcast/src/components/Home.jsx:114-120 | Flips whether the preview's id is a favorite: it removes the id if present and adds the preview otherwise. The new map is persisted and every other storage key stays as it was. |
| Catalog.NormalizeAt | podcast/src/services/podcastService.js:27-44 | Season `i` has number `i+1`, and episode `j` has id `j+1` in every season. Counts and order are kept. Other fields are copied, with `audioSrc` taken from `file`. |
| Catalog.NormalizeShow | podcast/src/services/podcastService.js:27-44 | The normalised show has as many seasons as the payload, each with as many episodes, numbered by position. |
| Catalog.NormalizeKeepsPayload | podcast/src/services/podcastService.js:27-44 | Dropping the derived numbers gives back the exact payload, so normalisation loses nothing. |
| Catalog.NumberedIsNormalized | podcast/src/services/podcastService.js:27-44 | A numbered show is the normalisation of its own payload, so normalisation adds only the numbering. |
| Catalog.EpisodeIdsUniqueInSeason | podcast/src/services/podcastService.js:36-37 | Episode ids are distinct within a season. |
| Catalog.EpisodeIdsRepeatAcrossSeasons | podcast/src/services/podcastService.js:36-37 | Episodes at the same position in different seasons share an id. |
| Catalog.TwoSeasonScenario | podcast/src/services/podcastService.js:32-37 | Seasons of 3 and 2 episodes get numbers [1, 2] and ids [1, 2, 3] and [1, 2]. |
| Catalog.FetchPreviews | podcast/src/services/podcastService.js:4-16 | A not-ok response is an error with the fixed message. An ok response returns the body unchanged. |
| Catalog.FetchShow | podcast/src/services/podcastService.js:19-51 | A not-ok response is an error whose message names the show id. An ok response gives a numbered show carrying the whole payload. |
| ShowPage.ShownSeasons | podcast/src/components/Show.jsx:106 | Only seasons of the show whose number is the open one are rendered, in show order. |
| ShowPage.AtMostOneSeasonShown | podcast/src/components/Show.jsx:106 | At most one season's episodes are shown: season `n` when `n` is open, none when the dropdown is closed. |
| ShowPage.ToggleEpisodeHearts | podcast/src/components/Show.jsx:49-62 | Toggling an episode flips the heart of the episode at the same position in every season. Episodes at other positions keep theirs. |
| ShowPage.ShowView.constructor | podcast/src/components/Show.jsx:16-17 | No season is open and nothing is playing. |
| ShowPage.ShowView.HandleEpisodeDropdown | podcast/src/components/Show.jsx:35-38 | Closes season `n` if it is open and opens it otherwise. Always empties the player. |
| ShowPage.ShowView.PlayEpisode | podcast/src/components/Show.jsx:41-43 | The chosen episode, with its season's number and image, replaces whatever played. The player only ever holds an episode of the open season. |
| ShowPage.ShowView.PauseEpisode | podcast/src/components/Show.jsx:45-47 | The player is emptied. |
| ShowPage.ShowView.ToggleFavorite | podcast/src/components/Show.jsx:49-62 | Removes the episode id if favorited. Otherwise adds the episode with season number, show title, show id and date. The new map is persisted and every other storage key stays as it was. |
| PodcastItem.PodcastItemView.constructor | podcast/src/components/PodcastItem.jsx:28-30 | The index is 0, nothing plays, and the source is empty. |
| PodcastItem.PodcastItemView.FirstSeasonEpisodes | podcast/src/components/PodcastItem.jsx:114 | The first season's episodes once the show has one. There are none before the show arrives or when it has no season. |
| PodcastItem.PodcastItemView.ShowFetched | podcast/src/components/PodcastItem.jsx:32-55 | On success the first season's first episode, when present, supplies the source. Otherwise the source is unchanged. A failure sets the fixed error. |
| PodcastItem.PodcastItemView.HandlePlay | podcast/src/components/PodcastItem.jsx:57-64 | A valid index selects and plays that episode. Any other index changes nothing. |
| PodcastItem.PodcastItemView.HandlePause | podcast/src/components/PodcastItem.jsx:66-68 | Stops playing and keeps the source and the index. |
| PodcastItem.PodcastItemView.PlayerPlayed | podcast/src/components/PodcastItem.jsx:127 | The player's play button resumes the selected episode. |
| PodcastItem.PodcastItemView.ActiveButtons | podcast/src/components/PodcastItem.jsx:114-122 | Only the button at `currentEpisodeIndex` is active, so at most one is. |
| PodcastItem.PodcastItemView.Player | podcast/src/components/PodcastItem.jsx:123-132 | An empty source shows "No episodes available". Any player holds the selected episode's source. |
| YourFav.FavoriteEpisodes | podcast/src/components/YourFav.jsx:11 | The listed entries are exactly the values of the favorites map. |
| YourFav.NoEntriesIffEmpty | podcast/src/components/YourFav.jsx:21-23 | The list is empty exactly when the store is. |
| YourFav.Render | podcast/src/components/YourFav.jsx:21-30 | An empty store shows only the empty message. Otherwise every stored record is listed. |
| YourFav.IsPlaying | podcast/src/components/YourFav.jsx:40 | A playing entry is filed under the playing id's key. Because `===` does not coerce, a numeric episode id never makes a show preview entry play. |
| YourFav.AtMostOnePlaying | podcast/src/components/YourFav.jsx:40 | In a well-keyed store at most one listed entry reports playing. |
| YourFav.FavoritesPage.constructor | podcast/src/components/YourFav.jsx:9 | Nothing plays. |
| YourFav.FavoritesPage.PlayEpisode | podcast/src/components/YourFav.jsx:13-15 | Exactly the entries with that id report playing. |
| YourFav.FavoritesPage.PauseEpisode | podcast/src/components/YourFav.jsx:17-19 | No entry reports playing. |
| YourFav.FavoritesPage.RemoveEntry | podcast/src/components/YourFav.jsx:36 | Every key other than the entry's keeps its record. In a well-keyed store the entry leaves the list and the store stays well-keyed. The new map is persisted and every other storage key stays as it was. |
| YourFav.FavoritesPage.ResetAll | podcast/src/components/YourFav.jsx:28 | The store empties, so the page shows only the empty message. The empty map is persisted and every other storage key stays as it was. |

## Left out

- Network fetching, `response.json()` and async scheduling are not modelled: they are I/O. A `Response` value carries the status flag and the decoded body. A body that fails to decode, or lacks `seasons`, makes the source throw; that path is not modelled.
- `console.error` logging is left out: it is output only.
- `localStorage` is a map from key to stored text. `JSON.stringify`/`JSON.parse` of a map is the identity.
- Favorites.Load: the stored text `null` (or any JSON that is not an object) counts as `Malformed`, so the model's mount fails. In the source `JSON.parse("null")` succeeds and `favorites` becomes `null`. After that, `isFavorite`, `removeFavorite` and the favorites page's `Object.values` throw a TypeError, while `addFavorite` recovers by spreading `null` into a fresh object. That null-valued store is not modelled.
- Favorites.IsFavoriteIn: the lookup `favorites[episodeId]` also reads the object's prototype chain, so ids such as `"toString"`, `"constructor"` or `"__proto__"` count as favorites even in an empty map. For such an id the toggle handlers always remove and never add. The model looks up only the map's own keys, so `Favorites.Toggle`, `Favorites.ToggleFlips` and `Home.HomeView.HandleFavoriteToggle` promise a flip that the source does not deliver for those ids. Real ids are episode numbers and the catalog's numeric show-id strings, which never collide with prototype names.
- Text.ToLower: only ASCII letters are lower-cased. Full Unicode case mapping is out of scope.
- Text.ParseInt: models only a leading run of decimal digits. Leading whitespace, a sign and the `0x` prefix of `parseInt` are not modelled, because every genre option value is a plain decimal id.
- Home.SortAToZ: `localeCompare` is a locale-dependent library collation. The model takes any total preorder `collate` on titles in its place, and every sort theorem holds for each such order.
- Home.SortNewest: `updated` is an integer timestamp. Date parsing and invalid dates (NaN) are not modelled.
- Date formatting (`toLocaleDateString`), rendering, CSS, the carousel, icons and routing are not modelled: they are presentation only.
- YourFav.FavoriteEpisodes: the entries form a set. The order of `Object.values` (integer-like keys ascending, then insertion order) is not modelled.
- PodcastItem.PodcastItemView.ShowFetched: requires that no show has arrived yet. A mounted entry fetches once for its fixed `podcast.id`, and a refetch after an id change is not modelled.
- PodcastItem.PodcastItemView.HandlePlay: requires the show to be loaded. The episode buttons exist only then, and with no show the source would throw.
- ShowPage.ShowView.PlayEpisode: takes the positions of the season and the episode whose Play button was pressed. It requires that season to be the open one, since only the open season's buttons are rendered.
- The show page's loading and "Show not found" states are not modelled. `ShowView` starts once the fetched show has arrived.
- React's stale closure over `favorites` in `removeFavorite` is not modelled: handlers run one after another, so it cannot matter.
- `AudioPlayer.jsx`, `PersistentAudioPlayer.jsx` (DOM audio through refs), authentication, `Genre.jsx` and the static pages are not part of this model.
