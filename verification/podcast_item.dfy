/** One entry of a podcast list in `PodcastItem.jsx`: it fetches its show,
    offers one button per episode of the first season, and keeps a single
    audio source with a playing flag. */
module PodcastItem {
  import opened Prelude
  import opened Catalog

  const FetchFailure := "Failed to fetch show details."

  /** What the entry shows below its buttons. */
  datatype PlayerArea = AudioPlayer(src: string, isPlaying: bool) | NoEpisodesAvailable

  class PodcastItemView {
    var show: Option<Show>
    var error: Option<string>
    var currentEpisodeIndex: int
    var isPlaying: bool
    var audioSrc: string

    /** `show.seasons[0]?.episodes`, or nothing before the show arrives or
        when it has no season. */
    function FirstSeasonEpisodes(): (episodes: seq<Episode>)
      reads this
      ensures show.None? ==> episodes == []
      ensures show.Some? && |show.value.seasons| > 0 ==> episodes == show.value.seasons[0].episodes
      ensures show.Some? && |show.value.seasons| == 0 ==> episodes == []
    {
      if show.Some? && |show.value.seasons| > 0 then show.value.seasons[0].episodes else []
    }

    /** The source in the player is that of the episode at `currentEpisodeIndex`. */
    ghost predicate SourceIsCurrent()
      reads this
    {
      0 <= currentEpisodeIndex < |FirstSeasonEpisodes()|
      && audioSrc == FirstSeasonEpisodes()[currentEpisodeIndex].audioSrc
    }

    /** Before the show arrives nothing is selected; afterwards a non-empty
        source, and any playing, belong to the selected episode. */
    ghost predicate Valid()
      reads this
    {
      && (show.None? ==> currentEpisodeIndex == 0 && !isPlaying && audioSrc == "")
      && (isPlaying ==> SourceIsCurrent())
      && (audioSrc != "" ==> SourceIsCurrent())
    }

    constructor ()
      ensures Valid() && show == None && error == None
      ensures currentEpisodeIndex == 0 && !isPlaying && audioSrc == ""
    {
      show, error := None, None;
      currentEpisodeIndex, isPlaying, audioSrc := 0, false, "";
    }

    /** Completion of `fetchShow`, followed by the first-episode effect: when
        the first season has a first episode its source goes into the player. */
    method ShowFetched(r: Result<Show>)
      requires Valid() && show.None?
      modifies this
      ensures Valid()
      ensures r.Err? ==> show == None && error == Some(FetchFailure) && audioSrc == old(audioSrc)
      ensures r.Ok? ==> show == Some(r.value) && error == old(error)
      ensures r.Ok? && |FirstSeasonEpisodes()| > 0 ==> audioSrc == FirstSeasonEpisodes()[0].audioSrc
      ensures r.Ok? && |FirstSeasonEpisodes()| == 0 ==> audioSrc == old(audioSrc)
      ensures currentEpisodeIndex == old(currentEpisodeIndex) && isPlaying == old(isPlaying)
    {
      if r.Err? {
        error := Some(FetchFailure);
      } else {
        show := Some(r.value);
        var s := r.value;
        if |s.seasons| > 0 && |s.seasons[0].episodes| > 0 {
          audioSrc := s.seasons[0].episodes[0].audioSrc;
        }
      }
    }

    /** `handlePlay(i)` from the button of episode `i`: selects and plays it;
        an index with no episode changes nothing. */
    method HandlePlay(i: int)
      requires Valid() && show.Some?
      modifies this
      ensures Valid() && show == old(show) && error == old(error)
      ensures 0 <= i < |FirstSeasonEpisodes()| ==>
        audioSrc == FirstSeasonEpisodes()[i].audioSrc && isPlaying && currentEpisodeIndex == i
      ensures !(0 <= i < |FirstSeasonEpisodes()|) ==>
        audioSrc == old(audioSrc) && isPlaying == old(isPlaying) && currentEpisodeIndex == old(currentEpisodeIndex)
    {
      var episodes := FirstSeasonEpisodes();
      if 0 <= i < |episodes| {
        audioSrc := episodes[i].audioSrc;
        isPlaying := true;
        currentEpisodeIndex := i;
      }
    }

    /** `handlePause` and the player's pause callback: stop, keep the selection. */
    method HandlePause()
      requires Valid()
      modifies this
      ensures Valid() && !isPlaying
      ensures audioSrc == old(audioSrc) && currentEpisodeIndex == old(currentEpisodeIndex)
      ensures show == old(show) && error == old(error)
    {
      isPlaying := false;
    }

    /** The player's own play callback, available while a player is shown. */
    method PlayerPlayed()
      requires Valid() && audioSrc != ""
      modifies this
      ensures Valid() && isPlaying
      ensures audioSrc == old(audioSrc) && currentEpisodeIndex == old(currentEpisodeIndex)
      ensures show == old(show) && error == old(error)
    {
      isPlaying := true;
    }

    /** The `active` class of the episode buttons: set on the button at
        `currentEpisodeIndex` and on no other. */
    function ActiveButtons(): (active: seq<bool>)
      reads this
      ensures |active| == |FirstSeasonEpisodes()|
      ensures forall i, j :: 0 <= i < j < |active| ==> !(active[i] && active[j])
      ensures forall i :: 0 <= i < |active| ==> (active[i] <==> i == currentEpisodeIndex)
    {
      seq(|FirstSeasonEpisodes()|, i requires 0 <= i < |FirstSeasonEpisodes()| reads this => i == currentEpisodeIndex)
    }

    /** A player for a non-empty source, "No episodes available" otherwise;
        a player always holds the selected episode's source. */
    function Player(): (area: PlayerArea)
      reads this
      ensures area.NoEpisodesAvailable? <==> audioSrc == ""
      ensures area.AudioPlayer? ==> area.isPlaying == isPlaying
      ensures Valid() && area.AudioPlayer? ==>
        area.src == FirstSeasonEpisodes()[currentEpisodeIndex].audioSrc
    {
      if audioSrc != "" then AudioPlayer(audioSrc, isPlaying) else NoEpisodesAvailable
    }
  }
}
