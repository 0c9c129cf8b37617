/** The CMCD player-state code the event engine reports under `sta` when an
    event does not name one itself (`getPlayerState`). */
module PlayerState {
  import opened Wrappers

  /** What `getPlayerState` reads from the media element. */
  datatype Media = Media(
    seeking: bool,
    ended: bool,
    paused: bool,
    currentTime: real,
    playedRanges: nat,
    readyState: int)

  /** The player as `getPlayerState` sees it: its media element, if it has
      one, and whether it is buffering. */
  datatype PlayerView = PlayerView(media: Option<Media>, buffering: bool)

  /** The state code, or none when there is no media element. The checks are
      made in a fixed order, so each code is reported exactly when its own
      condition holds and the conditions of every earlier code do not:
      seeking (`k`), then rebuffering (`r`), ended (`e`), paused before any
      playback (`d`), paused (`a`), starting (`s`) and playing (`p`). */
  function PlayerStateCode(p: PlayerView): (r: Option<char>)
    ensures r.None? <==> p.media.None?
    ensures r == Some('k') <==> p.media.Some? && p.media.value.seeking
    ensures r == Some('r') <==> p.media.Some? && !p.media.value.seeking && p.buffering
    ensures r == Some('e') <==> p.media.Some? && !p.media.value.seeking && !p.buffering && p.media.value.ended
    ensures r == Some('d') <==>
      p.media.Some? && !p.media.value.seeking && !p.buffering && !p.media.value.ended
      && p.media.value.paused && p.media.value.currentTime == 0.0 && p.media.value.playedRanges == 0
    ensures r == Some('a') <==>
      p.media.Some? && !p.media.value.seeking && !p.buffering && !p.media.value.ended
      && p.media.value.paused && !(p.media.value.currentTime == 0.0 && p.media.value.playedRanges == 0)
    ensures r == Some('s') <==>
      p.media.Some? && !p.media.value.seeking && !p.buffering && !p.media.value.ended
      && !p.media.value.paused && p.media.value.readyState < 3
    ensures r == Some('p') <==>
      p.media.Some? && !p.media.value.seeking && !p.buffering && !p.media.value.ended
      && !p.media.value.paused && p.media.value.readyState >= 3
    ensures r.Some? ==> r.value in "kreadsp"
  {
    match p.media
    case None => None
    case Some(video) =>
      if video.seeking then Some('k')
      else if p.buffering then Some('r')
      else if video.ended then Some('e')
      else if video.paused then
        if video.currentTime == 0.0 && video.playedRanges == 0 then Some('d') else Some('a')
      else if video.readyState < 3 then Some('s')
      else Some('p')
  }
}
