/**
 * The now-playing progress bar of script.js: every frame, when the video
 * is playing and its length is known, the bar's width is set to the share
 * of the video played so far; otherwise the bar is left as it was.
 */
module Playback {
  datatype Option<T> = None | Some(value: T)

  /** video.duration: NaN until the length is known, then a number of seconds. */
  datatype Duration = Unknown | Seconds(seconds: real)

  /** What the progress update reads from the video element. */
  datatype Media = Media(paused: bool, ended: bool, duration: Duration, currentTime: real)

  /**
   * The width, in percent, that updateNowPlayingProgress gives the bar, or
   * None when its guard returns early: no video element, paused, ended, or a
   * falsy duration (NaN or 0).
   */
  function ProgressWidth(video: Option<Media>): (r: Option<real>)
    ensures video.None? ==> r.None?
    ensures video.Some? && (video.value.paused || video.value.ended) ==> r.None?
    ensures video.Some? && video.value.duration in {Unknown, Seconds(0.0)} ==> r.None?
    ensures video.Some? && !video.value.paused && !video.value.ended &&
            video.value.duration.Seconds? && video.value.duration.seconds != 0.0 ==>
              r.Some? && r.value * video.value.duration.seconds == 100.0 * video.value.currentTime
  {
    if video.None? then None
    else
      var v := video.value;
      if v.paused || v.ended then None
      else if v.duration.Unknown? || v.duration.seconds == 0.0 then None
      else Some(v.currentTime / v.duration.seconds * 100.0)
  }

  /** A playing video at its start shows 0%, and at its last instant 100%. */
  lemma ProgressEnds(duration: real)
    requires duration != 0.0
    ensures ProgressWidth(Some(Media(false, false, Seconds(duration), 0.0))) == Some(0.0)
    ensures ProgressWidth(Some(Media(false, false, Seconds(duration), duration))) == Some(100.0)
  {
    assert duration / duration == 1.0;
  }

  /** While the playback position lies within the video, the width lies within 0% to 100%. */
  lemma ProgressInRange(v: Media)
    requires !v.paused && !v.ended && v.duration.Seconds? && v.duration.seconds > 0.0
    requires 0.0 <= v.currentTime <= v.duration.seconds
    ensures ProgressWidth(Some(v)).Some?
    ensures 0.0 <= ProgressWidth(Some(v)).value <= 100.0
  {
    var d := v.duration.seconds;
    var w := ProgressWidth(Some(v)).value;
    assert w * d == 100.0 * v.currentTime <= 100.0 * d;
  }

  /** The progress bar element's inline width (None: still the stylesheet's). */
  class NowPlaying {
    var width: Option<real>

    constructor ()
      ensures width == None
    {
      width := None;
    }

    /** updateNowPlayingProgress: set the width, or leave it when the guard fails. */
    method UpdateNowPlayingProgress(video: Option<Media>)
      modifies this
      ensures width == if ProgressWidth(video).Some? then ProgressWidth(video) else old(width)
    {
      if video.None? || video.value.paused || video.value.ended
         || video.value.duration.Unknown? || video.value.duration.seconds == 0.0 {
        return;
      }
      var percent := video.value.currentTime / video.value.duration.seconds * 100.0;
      width := Some(percent);
    }
  }
}
