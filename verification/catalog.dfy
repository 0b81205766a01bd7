/** The catalog client of `podcastService.js`: the shapes the remote API
    returns, the normalisation `fetchShow` applies to a show, and the
    ok/not-ok outcome of both fetches. The HTTP exchange itself is an
    input: a `Response` carries the status flag and the already decoded body. */
module Catalog {
  import opened Prelude
  import opened Text

  /** One entry of `GET /shows`. `updated` is the last-update date as a timestamp. */
  datatype ShowPreview = ShowPreview(
    id: string, title: string, description: string, image: string,
    seasons: nat, genres: seq<int>, updated: int)

  /** The fields of a `GET /id/{showId}` body that the client reads. */
  datatype RawEpisode = RawEpisode(title: string, description: string, duration: string, file: string)
  datatype RawSeason = RawSeason(title: string, image: string, episodes: seq<RawEpisode>)
  datatype RawShow = RawShow(id: string, title: string, description: string, image: string, seasons: seq<RawSeason>)

  /** The normalised show the rest of the application works with. */
  datatype Episode = Episode(id: nat, title: string, description: string, duration: string, audioSrc: string)
  datatype Season = Season(number: nat, title: string, image: string, episodes: seq<Episode>)
  datatype Show = Show(id: string, title: string, description: string, image: string, seasons: seq<Season>)

  /** A finished HTTP exchange: `response.ok` and the decoded JSON body. */
  datatype Response<T> = Response(ok: bool, body: T)

  function NormalizeEpisode(e: RawEpisode, index: nat): Episode
  {
    Episode(index + 1, e.title, e.description, e.duration, e.file)
  }

  function NormalizeSeason(s: RawSeason, index: nat): Season
  {
    Season(index + 1, s.title, s.image,
      seq(|s.episodes|, j requires 0 <= j < |s.episodes| => NormalizeEpisode(s.episodes[j], j)))
  }

  /** The `showDetails` object `fetchShow` builds from the response body:
      as many seasons as the payload, each with as many episodes, numbered by
      position. */
  function NormalizeShow(d: RawShow): (show: Show)
    ensures |show.seasons| == |d.seasons|
    ensures forall i :: 0 <= i < |d.seasons| ==> |show.seasons[i].episodes| == |d.seasons[i].episodes|
    ensures Numbered(show)
  {
    Show(d.id, d.title, d.description, d.image,
      seq(|d.seasons|, i requires 0 <= i < |d.seasons| => NormalizeSeason(d.seasons[i], i)))
  }

  /** Season at 0-based position `i` has number `i + 1`, and episode at
      0-based position `j` of every season has id `j + 1`. */
  predicate SeasonNumbered(s: Season, i: int)
  {
    s.number == i + 1 && forall j :: 0 <= j < |s.episodes| ==> s.episodes[j].id == j + 1
  }

  predicate Numbered(show: Show)
  {
    forall i :: 0 <= i < |show.seasons| ==> SeasonNumbered(show.seasons[i], i)
  }

  /** What the normalisation drops: the derived numbers and ids. The
      payload field names come back (`audioSrc` becomes `file` again). */
  function EpisodePayload(e: Episode): RawEpisode
  {
    RawEpisode(e.title, e.description, e.duration, e.audioSrc)
  }

  function SeasonPayload(s: Season): RawSeason
  {
    RawSeason(s.title, s.image, seq(|s.episodes|, j requires 0 <= j < |s.episodes| => EpisodePayload(s.episodes[j])))
  }

  function ShowPayload(show: Show): RawShow
  {
    RawShow(show.id, show.title, show.description, show.image,
      seq(|show.seasons|, i requires 0 <= i < |show.seasons| => SeasonPayload(show.seasons[i])))
  }

  /** Index-level description of the normalised show: one season per payload
      season, numbered by position, each with its episodes in order, ids
      restarting at 1, and every other field copied (`audioSrc` from `file`). */
  lemma NormalizeAt(d: RawShow, i: nat, j: nat)
    requires i < |d.seasons| && j < |d.seasons[i].episodes|
    ensures var show := NormalizeShow(d);
      && |show.seasons| == |d.seasons|
      && show.seasons[i].number == i + 1
      && show.seasons[i].title == d.seasons[i].title
      && show.seasons[i].image == d.seasons[i].image
      && |show.seasons[i].episodes| == |d.seasons[i].episodes|
      && show.seasons[i].episodes[j]
         == Episode(j + 1, d.seasons[i].episodes[j].title, d.seasons[i].episodes[j].description,
                    d.seasons[i].episodes[j].duration, d.seasons[i].episodes[j].file)
  {
  }

  /** Normalising loses nothing of the payload: dropping the derived numbers
      gives the payload back. */
  lemma NormalizeKeepsPayload(d: RawShow)
    ensures ShowPayload(NormalizeShow(d)) == d
  {
    var show := NormalizeShow(d);
    forall i | 0 <= i < |d.seasons| ensures SeasonPayload(show.seasons[i]) == d.seasons[i] {
      var s := show.seasons[i];
      assert s.episodes == NormalizeSeason(d.seasons[i], i).episodes;
      assert SeasonPayload(s).episodes == d.seasons[i].episodes;
    }
    assert ShowPayload(show).seasons == d.seasons;
  }

  /** Normalising adds nothing but the numbering: a numbered show is the
      normalisation of its own payload. */
  lemma NumberedIsNormalized(show: Show)
    requires Numbered(show)
    ensures NormalizeShow(ShowPayload(show)) == show
  {
    var d := ShowPayload(show);
    forall i | 0 <= i < |show.seasons| ensures NormalizeSeason(d.seasons[i], i) == show.seasons[i] {
      var s := show.seasons[i];
      assert SeasonNumbered(s, i);
      assert NormalizeSeason(d.seasons[i], i).episodes == s.episodes;
    }
    assert NormalizeShow(d).seasons == show.seasons;
  }

  /** Within one season of a numbered show, episode ids are distinct. */
  lemma EpisodeIdsUniqueInSeason(show: Show, i: nat, j: nat, k: nat)
    requires Numbered(show) && i < |show.seasons|
    requires j < |show.seasons[i].episodes| && k < |show.seasons[i].episodes|
    requires show.seasons[i].episodes[j].id == show.seasons[i].episodes[k].id
    ensures j == k
  {
    assert SeasonNumbered(show.seasons[i], i);
  }

  /** Across seasons, episode ids repeat: the episodes at the same position in
      two seasons carry the same id. */
  lemma EpisodeIdsRepeatAcrossSeasons(show: Show, i1: nat, i2: nat, k: nat)
    requires Numbered(show) && i1 < |show.seasons| && i2 < |show.seasons|
    requires k < |show.seasons[i1].episodes| && k < |show.seasons[i2].episodes|
    ensures show.seasons[i1].episodes[k].id == show.seasons[i2].episodes[k].id == k + 1
  {
    assert SeasonNumbered(show.seasons[i1], i1) && SeasonNumbered(show.seasons[i2], i2);
  }

  /** A show whose payload has two seasons of three and two episodes gets
      season numbers [1, 2] and episode ids [1, 2, 3] and [1, 2]. */
  lemma TwoSeasonScenario(e: RawEpisode)
    ensures var d := RawShow("s", "Show", "", "", [RawSeason("A", "", [e, e, e]), RawSeason("B", "", [e, e])]);
      var show := NormalizeShow(d);
      && |show.seasons| == 2
      && show.seasons[0].number == 1 && show.seasons[1].number == 2
      && |show.seasons[0].episodes| == 3 && |show.seasons[1].episodes| == 2
      && show.seasons[0].episodes[0].id == 1 && show.seasons[0].episodes[1].id == 2
      && show.seasons[0].episodes[2].id == 3
      && show.seasons[1].episodes[0].id == 1 && show.seasons[1].episodes[1].id == 2
  {
  }

  const PreviewsFailure := "Failed to fetch previews"

  /** `fetchPreviews`: a not-ok status throws; otherwise the body is returned as is. */
  function FetchPreviews(response: Response<seq<ShowPreview>>): (r: Result<seq<ShowPreview>>)
    ensures r.Ok? <==> response.ok
    ensures r.Ok? ==> r.value == response.body
    ensures r.Err? ==> r.message == PreviewsFailure
  {
    if !response.ok then Err(PreviewsFailure) else Ok(response.body)
  }

  function ShowFailure(showId: string): string
  {
    "Failed to fetch show with ID " + showId
  }

  /** `fetchShow`: a not-ok status throws an error whose message names the
      show id; otherwise the body is normalised, and the result is numbered
      by position and carries the whole payload. */
  function FetchShow(showId: string, response: Response<RawShow>): (r: Result<Show>)
    ensures r.Ok? <==> response.ok
    ensures r.Err? ==> Contains(r.message, showId)
    ensures r.Ok? ==> Numbered(r.value) && ShowPayload(r.value) == response.body
  {
    if !response.ok then
      var prefix := "Failed to fetch show with ID ";
      assert OccursAt(ShowFailure(showId), showId, |prefix|);
      Err(ShowFailure(showId))
    else
      NormalizeKeepsPayload(response.body);
      Ok(NormalizeShow(response.body))
  }
}
