/** The favorites page of `YourFav.jsx`: every stored record listed with its
    own player, of which at most one plays, plus Remove and Reset All. */
module YourFav {
  import opened Prelude
  import opened Favorites

  /** `Object.values(favorites)`, as the set of listed records. */
  function FavoriteEpisodes(m: FavoriteMap): (entries: set<Favorite>)
    ensures forall f :: f in entries <==> exists k :: k in m && m[k] == f
  {
    m.Values
  }

  /** The list is empty exactly when the store is. */
  lemma NoEntriesIffEmpty(m: FavoriteMap)
    ensures FavoriteEpisodes(m) == {} <==> m == map[]
  {
    if m != map[] {
      var k :| k in m;
      assert m[k] in FavoriteEpisodes(m);
    }
  }

  /** The page: only the empty message for an empty store, the list otherwise. */
  datatype Page = NoFavoritesYet | FavoritesList(entries: set<Favorite>)

  function Render(m: FavoriteMap): (page: Page)
    ensures page.NoFavoritesYet? <==> m == map[]
    ensures page.FavoritesList? ==> page.entries == FavoriteEpisodes(m)
  {
    NoEntriesIffEmpty(m);
    var entries := FavoriteEpisodes(m);
    if |entries| == 0 then NoFavoritesYet else FavoritesList(entries)
  }

  /** An entry's player is playing when its id is the playing id. The
      comparison is `===`: the playing entry is filed under the playing id's
      key, and a numeric id never matches a show preview's string id. */
  predicate IsPlaying(playingEpisode: Option<Id>, entry: Favorite): (r: bool)
    ensures r ==> playingEpisode.Some? && KeyOf(playingEpisode.value) == entry.Key()
    ensures playingEpisode.Some? && playingEpisode.value.NumId? && entry.PreviewFavorite? ==> !r
  {
    playingEpisode == Some(entry.Id())
  }

  /** Because ids determine keys, at most one listed entry plays. */
  lemma AtMostOnePlaying(m: FavoriteMap, playingEpisode: Option<Id>, a: Favorite, b: Favorite)
    requires WellKeyed(m)
    requires a in FavoriteEpisodes(m) && b in FavoriteEpisodes(m)
    requires IsPlaying(playingEpisode, a) && IsPlaying(playingEpisode, b)
    ensures a == b
  {
    var ka :| ka in m && m[ka] == a;
    var kb :| kb in m && m[kb] == b;
    assert ka == a.Key() == b.Key() == kb;
  }

  class FavoritesPage {
    var playingEpisode: Option<Id>

    constructor ()
      ensures playingEpisode == None
    {
      playingEpisode := None;
    }

    /** `playEpisode(id)`: that entry becomes the only one playing. */
    method PlayEpisode(id: Id)
      modifies this
      ensures playingEpisode == Some(id)
      ensures forall f :: IsPlaying(playingEpisode, f) <==> f.Id() == id
    {
      playingEpisode := Some(id);
    }

    /** `pauseEpisode`: no entry plays. */
    method PauseEpisode()
      modifies this
      ensures playingEpisode == None
      ensures forall f :: !IsPlaying(playingEpisode, f)
    {
      playingEpisode := None;
    }

    /** "Remove from Favorites" on a listed entry: the entry leaves the list
        and every other entry stays. */
    method RemoveEntry(store: FavoritesStore, entry: Favorite)
      modifies store
      ensures store.Valid()
      ensures store.favorites == Step(old(store.favorites), Remove(entry.Id()))
      ensures store.storage == Save(old(store.storage), store.favorites)
      ensures forall k :: k in old(store.favorites) && k != entry.Key() ==>
        k in store.favorites && store.favorites[k] == old(store.favorites)[k]
      ensures WellKeyed(old(store.favorites)) ==>
        WellKeyed(store.favorites) && entry !in FavoriteEpisodes(store.favorites)
      ensures WellKeyed(old(store.favorites)) ==>
        forall f :: f in FavoriteEpisodes(old(store.favorites)) && f.Key() != entry.Key() ==>
          f in FavoriteEpisodes(store.favorites)
    {
      store.RemoveFavorite(entry.Id());
      if WellKeyed(old(store.favorites)) {
        forall f | f in FavoriteEpisodes(old(store.favorites)) && f.Key() != entry.Key()
          ensures f in FavoriteEpisodes(store.favorites)
        {
          var k :| k in old(store.favorites) && old(store.favorites)[k] == f;
          assert k in store.favorites && store.favorites[k] == f;
        }
      }
    }

    /** "Reset All": the store empties and the page shows only the message. */
    method ResetAll(store: FavoritesStore)
      modifies store
      ensures store.Valid() && store.favorites == map[]
      ensures store.storage == Save(old(store.storage), store.favorites)
      ensures Render(store.favorites) == NoFavoritesYet
    {
      store.ResetFavorites();
    }
  }
}
