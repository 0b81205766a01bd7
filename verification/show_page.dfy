/** The show page of `Show.jsx`: one season's episode list open at a time, a
    single "now playing" slot, and the favorite heart of each episode. */
module ShowPage {
  import opened Prelude
  import opened Seqs
  import opened Catalog
  import opened Favorites

  /** The `playingEpisode` object: the episode with its season's number and image. */
  datatype NowPlaying = NowPlaying(episode: Episode, seasonNumber: nat, seasonImage: string)

  /** The seasons whose episode list is rendered: those of the show, in
      order, whose number equals `openDropdown`. */
  function ShownSeasons(show: Show, openDropdown: Option<nat>): (shown: seq<Season>)
    ensures forall s :: s in shown ==> s in show.seasons && openDropdown == Some(s.number)
    ensures IsSubsequence(shown, show.seasons)
  {
    FilterMembers((s: Season) => openDropdown == Some(s.number), show.seasons);
    FilterIsSubsequence((s: Season) => openDropdown == Some(s.number), show.seasons);
    Filter((s: Season) => openDropdown == Some(s.number), show.seasons)
  }

  /** In a numbered show at most one season's episodes are shown: season `n`
      when `n` is open, none when the dropdown is closed. */
  lemma AtMostOneSeasonShown(show: Show, openDropdown: Option<nat>)
    requires Numbered(show)
    ensures |ShownSeasons(show, openDropdown)| <= 1
    ensures openDropdown.Some? && 1 <= openDropdown.value <= |show.seasons| ==>
      ShownSeasons(show, openDropdown) == [show.seasons[openDropdown.value - 1]]
    ensures openDropdown.None? ==> ShownSeasons(show, openDropdown) == []
  {
    var p := (s: Season) => openDropdown == Some(s.number);
    var k := if openDropdown.Some? then openDropdown.value - 1 else -1;
    forall i | 0 <= i < |show.seasons| && i != k ensures !p(show.seasons[i]) {
      assert SeasonNumbered(show.seasons[i], i);
    }
    if 0 <= k < |show.seasons| {
      assert SeasonNumbered(show.seasons[k], k);
    }
    FilterAtMostOne(p, show.seasons, k);
  }

  /** The record `toggleFavorite` adds for episode `j` of season `i`. */
  function EpisodeRecord(show: Show, showId: string, i: nat, j: nat, addedDate: string): Favorite
    requires i < |show.seasons| && j < |show.seasons[i].episodes|
  {
    EpisodeFavorite(show.seasons[i].episodes[j], show.seasons[i].number, show.title, showId, addedDate)
  }

  /** Favorite status follows `episode.id` alone: toggling episode `j` of one
      season flips the heart of the episode at the same position in every
      other season, and leaves the other episodes of its own season alone. */
  lemma ToggleEpisodeHearts(show: Show, showId: string, m: FavoriteMap, i: nat, j: nat, addedDate: string,
                            i2: nat, k: nat)
    requires Numbered(show) && i < |show.seasons| && j < |show.seasons[i].episodes|
    requires i2 < |show.seasons| && k < |show.seasons[i2].episodes|
    ensures var m' := Toggle(m, EpisodeRecord(show, showId, i, j, addedDate));
      var other := NumId(show.seasons[i2].episodes[k].id);
      && (k == j ==> IsFavoriteIn(m', other) == !IsFavoriteIn(m, other))
      && (k != j ==> IsFavoriteIn(m', other) == IsFavoriteIn(m, other))
  {
    var f := EpisodeRecord(show, showId, i, j, addedDate);
    var other := NumId(show.seasons[i2].episodes[k].id);
    assert SeasonNumbered(show.seasons[i], i) && SeasonNumbered(show.seasons[i2], i2);
    assert f.Id() == NumId(j + 1) && other == NumId(k + 1);
    if k != j && KeyOf(other) == f.Key() {
      NumericKeysDistinct(k + 1, j + 1);
    }
    ToggleFlips(m, f, other);
  }

  class ShowView {
    /** The route parameter. */
    const showId: string
    /** The fetched show. */
    const show: Show
    var openDropdown: Option<nat>
    var playingEpisode: Option<NowPlaying>

    /** The show is numbered by position, and whatever plays comes from the
        open season, with that season's number and image. */
    ghost predicate Valid()
      reads this
    {
      && Numbered(show)
      && (playingEpisode.Some? ==>
            var p := playingEpisode.value;
            && openDropdown == Some(p.seasonNumber)
            && 1 <= p.seasonNumber <= |show.seasons|
            && show.seasons[p.seasonNumber - 1].image == p.seasonImage
            && p.episode in show.seasons[p.seasonNumber - 1].episodes)
    }

    /** The page once `fetchShow` has delivered the show: all seasons closed,
        nothing playing. */
    constructor (showId0: string, show0: Show)
      requires Numbered(show0)
      ensures Valid() && showId == showId0 && show == show0
      ensures openDropdown == None && playingEpisode == None
    {
      showId, show := showId0, show0;
      openDropdown, playingEpisode := None, None;
    }

    /** `handleEpisodeDropdown`: closes season `n` when it is open, opens it
        otherwise, and always empties the player. */
    method HandleEpisodeDropdown(n: nat)
      requires Valid()
      modifies this
      ensures Valid()
      ensures openDropdown == if old(openDropdown) == Some(n) then None else Some(n)
      ensures playingEpisode == None
    {
      openDropdown := if openDropdown == Some(n) then None else Some(n);
      playingEpisode := None;
    }

    /** `playEpisode` from the Play button of episode `j` in the open season
        at position `i`: the episode replaces whatever was playing. */
    method PlayEpisode(i: nat, j: nat)
      requires Valid()
      requires i < |show.seasons| && j < |show.seasons[i].episodes|
      requires openDropdown == Some(show.seasons[i].number)
      modifies this
      ensures Valid() && openDropdown == old(openDropdown)
      ensures playingEpisode == Some(NowPlaying(show.seasons[i].episodes[j], show.seasons[i].number, show.seasons[i].image))
    {
      var season := show.seasons[i];
      assert SeasonNumbered(season, i);
      playingEpisode := Some(NowPlaying(season.episodes[j], season.number, season.image));
    }

    /** `pauseEpisode`: the player is emptied. */
    method PauseEpisode()
      requires Valid()
      modifies this
      ensures Valid() && openDropdown == old(openDropdown) && playingEpisode == None
    {
      playingEpisode := None;
    }

    /** `toggleFavorite` for episode `j` of the season at position `i`; the
        clock's ISO timestamp is a parameter. */
    method ToggleFavorite(store: FavoritesStore, i: nat, j: nat, addedDate: string)
      requires i < |show.seasons| && j < |show.seasons[i].episodes|
      modifies store
      ensures store.Valid()
      ensures store.favorites == Toggle(old(store.favorites), EpisodeRecord(show, showId, i, j, addedDate))
      ensures store.storage == Save(old(store.storage), store.favorites)
      ensures store.IsFavorite(NumId(show.seasons[i].episodes[j].id))
        == !old(store.IsFavorite(NumId(show.seasons[i].episodes[j].id)))
    {
      var episode := show.seasons[i].episodes[j];
      if store.IsFavorite(NumId(episode.id)) {
        store.RemoveFavorite(NumId(episode.id));
      } else {
        store.AddFavorite(EpisodeFavorite(episode, show.seasons[i].number, show.title, showId, addedDate));
      }
    }
  }
}
