/** The favorites store of `FavoritesContext.jsx`: an object mapping the
    property key of an episode id to the favorite record, held in component
    state and written whole to the browser's storage slot `favorites` after
    every change. */
module Favorites {
  import opened Prelude
  import opened Text
  import opened Catalog

  /** The `id` of a record: episodes carry numbers, show previews strings. */
  datatype Id = NumId(n: nat) | StrId(s: string)

  /** The property key an id becomes when it indexes an object: a number is
      rendered in decimal, a string is used as is. */
  function KeyOf(id: Id): string
  {
    match id
    case NumId(n) => NatToDecimal(n)
    case StrId(s) => s
  }

  /** Two numeric ids share a key only when they are equal. */
  lemma NumericKeysDistinct(a: nat, b: nat)
    requires KeyOf(NumId(a)) == KeyOf(NumId(b))
    ensures a == b
  {
    NatToDecimalInjective(a, b);
  }

  /** A stored record: an episode as `Show.jsx` saves it, or a show preview as
      `Home.jsx` saves it. */
  datatype Favorite =
    | EpisodeFavorite(episode: Episode, seasonNumber: nat, showTitle: string, showId: string, addedDate: string)
    | PreviewFavorite(preview: ShowPreview)
  {
    function Id(): Id
    {
      match this
      case EpisodeFavorite(e, _, _, _, _) => NumId(e.id)
      case PreviewFavorite(p) => StrId(p.id)
    }

    function Key(): string
    {
      KeyOf(Id())
    }
  }

  type FavoriteMap = map<string, Favorite>

  /** Every record sits under the key of its own id. */
  predicate WellKeyed(m: FavoriteMap)
  {
    forall k :: k in m ==> m[k].Key() == k
  }

  /** `isFavorite`: the record under the id's key is present (records are
      objects, so a present one is truthy). In a well-keyed map that is the
      same as some stored record having an id with that key. */
  function IsFavoriteIn(m: FavoriteMap, id: Id): (r: bool)
    ensures WellKeyed(m) ==> (r <==> exists f :: f in m.Values && f.Key() == KeyOf(id))
  {
    if KeyOf(id) in m then
      assert m[KeyOf(id)] in m.Values;
      true
    else
      false
  }

  // ---- The storage slot ----

  const StorageKey := "favorites"
  const ParseFailure := "JSON.parse: malformed favorites"

  /** The text stored under a key: a serialised map, the empty string, or
      something `JSON.parse` rejects. */
  datatype Stored = Serialized(favorites: FavoriteMap) | EmptyText | Malformed(text: string)

  type Storage = map<string, Stored>

  /** The lazy initial state: a missing key or an empty string gives the
      empty map; a serialised map is read back; malformed text throws. */
  function Load(storage: Storage): (r: Result<FavoriteMap>)
    ensures StorageKey !in storage ==> r == Ok(map[])
    ensures r.Err? <==> StorageKey in storage && storage[StorageKey].Malformed?
  {
    if StorageKey !in storage then Ok(map[])
    else match storage[StorageKey]
      case EmptyText => Ok(map[])
      case Serialized(m) => Ok(m)
      case Malformed(_) => Err(ParseFailure)
  }

  /** The persist effect: the whole map overwrites the slot. Reloading
      afterwards yields exactly the saved map, and no other key changes. */
  function Save(storage: Storage, m: FavoriteMap): (r: Storage)
    ensures Load(r) == Ok(m)
    ensures forall k :: k != StorageKey ==> (k in r <==> k in storage) && (k in r ==> r[k] == storage[k])
  {
    storage[StorageKey := Serialized(m)]
  }

  // ---- The operations as transitions of the map ----

  datatype Op = Add(favorite: Favorite) | Remove(id: Id) | Reset

  /** What `addFavorite`, `removeFavorite` and `resetFavorites` do to the map.
      Only an add creates or changes an entry, and only under its record's
      key; only a remove of that key or a reset drops one. */
  function Step(m: FavoriteMap, op: Op): (r: FavoriteMap)
    ensures forall k :: k in r && (k !in m || r[k] != m[k]) ==> op.Add? && k == op.favorite.Key()
    ensures forall k :: k in m && k !in r ==> op.Reset? || (op.Remove? && k == KeyOf(op.id))
  {
    match op
    case Add(f) => m[f.Key() := f]
    case Remove(id) => m - {KeyOf(id)}
    case Reset => map[]
  }

  /** After an add the id is a favorite holding exactly that record, every
      other key keeps its record, and adding a record with the same id again
      leaves only the later one. */
  lemma AddSpec(m: FavoriteMap, f: Favorite, g: Favorite)
    requires g.Id() == f.Id()
    ensures IsFavoriteIn(Step(m, Add(f)), f.Id()) && Step(m, Add(f))[f.Key()] == f
    ensures forall k :: k != f.Key() ==>
      (k in Step(m, Add(f)) <==> k in m) && (k in m ==> Step(m, Add(f))[k] == m[k])
    ensures Step(Step(m, Add(f)), Add(g)) == Step(m, Add(g))
    ensures f.Key() in m ==> |Step(m, Add(f))| == |m|
  {
  }

  /** After a remove the id is not a favorite, every other key keeps its
      record, and removing an absent id changes nothing. */
  lemma RemoveSpec(m: FavoriteMap, id: Id)
    ensures !IsFavoriteIn(Step(m, Remove(id)), id)
    ensures forall k :: k != KeyOf(id) ==>
      (k in Step(m, Remove(id)) <==> k in m) && (k in m ==> Step(m, Remove(id))[k] == m[k])
    ensures !IsFavoriteIn(m, id) ==> Step(m, Remove(id)) == m
  {
  }

  /** After a reset no id is a favorite. */
  lemma ResetSpec(m: FavoriteMap, id: Id)
    ensures !IsFavoriteIn(Step(m, Reset), id) && |Step(m, Reset)| == 0
  {
  }

  /** No operation files a record under a key other than its own. */
  lemma StepKeepsWellKeyed(m: FavoriteMap, op: Op)
    requires WellKeyed(m)
    ensures WellKeyed(Step(m, op))
  {
  }

  /** The favorite-toggle handlers of the pages: remove the id when it is a
      favorite, otherwise add the record. */
  function Toggle(m: FavoriteMap, f: Favorite): (r: FavoriteMap)
    ensures forall k :: k != f.Key() ==> (k in r <==> k in m) && (k in r ==> r[k] == m[k])
    ensures f.Key() in r ==> r[f.Key()] == f
  {
    if IsFavoriteIn(m, f.Id()) then Step(m, Remove(f.Id())) else Step(m, Add(f))
  }

  /** A toggle flips the favorite status of the record's id and of nothing
      keyed differently. */
  lemma ToggleFlips(m: FavoriteMap, f: Favorite, other: Id)
    ensures IsFavoriteIn(Toggle(m, f), f.Id()) == !IsFavoriteIn(m, f.Id())
    ensures !IsFavoriteIn(m, f.Id()) ==> Toggle(m, f)[f.Key()] == f
    ensures KeyOf(other) == f.Key() ==> IsFavoriteIn(Toggle(m, f), other) == !IsFavoriteIn(m, other)
    ensures KeyOf(other) != f.Key() ==> IsFavoriteIn(Toggle(m, f), other) == IsFavoriteIn(m, other)
    ensures Toggle(Toggle(m, f), f) == m - {f.Key()} || Toggle(Toggle(m, f), f) == m[f.Key() := f]
  {
  }

  /** The map after a sequence of operations. */
  function Replay(m: FavoriteMap, ops: seq<Op>): FavoriteMap
  {
    if ops == [] then m else Step(Replay(m, ops[..|ops| - 1]), ops[|ops| - 1])
  }

  /** What the last operation touching `key` left there (or the initial
      entry when none did): the net effect of the sequence on that key. */
  function LastWrite(m: FavoriteMap, ops: seq<Op>, key: string): Option<Favorite>
  {
    if ops == [] then (if key in m then Some(m[key]) else None)
    else match ops[|ops| - 1]
      case Add(f) => if f.Key() == key then Some(f) else LastWrite(m, ops[..|ops| - 1], key)
      case Remove(id) => if KeyOf(id) == key then None else LastWrite(m, ops[..|ops| - 1], key)
      case Reset => None
  }

  /** For any sequence of adds, removes and resets, whether an id is a
      favorite, and which record it holds, is decided by the last operation
      that touched its key. */
  lemma {:induction false} ReplayNetEffect(m: FavoriteMap, ops: seq<Op>, id: Id)
    ensures IsFavoriteIn(Replay(m, ops), id) <==> LastWrite(m, ops, KeyOf(id)).Some?
    ensures IsFavoriteIn(Replay(m, ops), id) ==> Replay(m, ops)[KeyOf(id)] == LastWrite(m, ops, KeyOf(id)).value
  {
    if ops != [] {
      ReplayNetEffect(m, ops[..|ops| - 1], id);
    }
  }

  // ---- The context provider ----

  class FavoritesStore {
    var favorites: FavoriteMap
    var storage: Storage

    /** Every change has been written back: the slot holds the current map. */
    ghost predicate Valid()
      reads this
    {
      StorageKey in storage && storage[StorageKey] == Serialized(favorites)
    }

    /** Mounting the provider: the lazy initial state read from storage, then
        the persist effect's first run. */
    constructor (storage0: Storage)
      requires Load(storage0).Ok?
      ensures Valid()
      ensures favorites == Load(storage0).value
      ensures storage == Save(storage0, favorites)
    {
      favorites := Load(storage0).value;
      storage := storage0;
      new;
      Persist();
    }

    /** The persist effect: writes the whole map to the slot. */
    method Persist()
      modifies this
      ensures Valid()
      ensures favorites == old(favorites)
      ensures storage == Save(old(storage), favorites)
      ensures Load(storage) == Ok(favorites)
    {
      storage := Save(storage, favorites);
    }

    /** `isFavorite`: while every change is persisted, the answer is the one
        a reload from storage would give. */
    function IsFavorite(id: Id): (r: bool)
      reads this
      ensures Valid() ==> Load(storage).Ok? && (r <==> IsFavoriteIn(Load(storage).value, id))
    {
      IsFavoriteIn(favorites, id)
    }

    method AddFavorite(f: Favorite)
      modifies this
      ensures Valid()
      ensures favorites == Step(old(favorites), Add(f))
      ensures storage == Save(old(storage), favorites)
      ensures IsFavorite(f.Id()) && favorites[f.Key()] == f
      ensures WellKeyed(old(favorites)) ==> WellKeyed(favorites)
    {
      favorites := favorites[f.Key() := f];
      Persist();
    }

    method RemoveFavorite(id: Id)
      modifies this
      ensures Valid()
      ensures favorites == Step(old(favorites), Remove(id))
      ensures storage == Save(old(storage), favorites)
      ensures !IsFavorite(id)
      ensures WellKeyed(old(favorites)) ==> WellKeyed(favorites)
    {
      favorites := favorites - {KeyOf(id)};
      Persist();
    }

    /** Clears the map and removes the slot; the persist effect then writes
        the empty map back, so a reload yields the empty map. */
    method ResetFavorites()
      modifies this
      ensures Valid()
      ensures favorites == Step(old(favorites), Reset) == map[]
      ensures storage == Save(old(storage), map[])
      ensures Load(storage) == Ok(map[])
    {
      favorites := map[];
      storage := storage - {StorageKey};
      Persist();
    }
  }

  /** The provider's initialiser throws on malformed stored text; otherwise
      the mounted store holds what storage held. */
  method Mount(storage0: Storage) returns (r: Result<FavoritesStore>)
    ensures r.Err? <==> Load(storage0).Err?
    ensures r.Err? ==> r.message == ParseFailure
    ensures r.Ok? ==> fresh(r.value) && r.value.Valid() && r.value.favorites == Load(storage0).value
    ensures r.Ok? ==> r.value.storage == Save(storage0, r.value.favorites)
  {
    var loaded := Load(storage0);
    if loaded.Err? {
      r := Err(loaded.message);
    } else {
      var store := new FavoritesStore(storage0);
      r := Ok(store);
    }
  }
}
