/** Tracks as the playback core sees them: an identity, a media type and a duration. */
module Tracks {
  import opened Wrappers

  /** A track's identity: its file path, or the episode reference of a podcast. */
  type TrackId = string

  datatype MediaType = Music | Podcast

  /**
   * A queued track. `mediaType` is absent for tracks the library did not
   * classify; `durationMillis` is the track's duration in milliseconds.
   */
  datatype Track = Track(id: TrackId, mediaType: Option<MediaType>, durationMillis: nat)
  {
    /** The duration in whole seconds, truncated as `Duration::as_secs` does. */
    function DurationSecs(): (secs: nat)
      ensures secs * 1000 <= durationMillis < (secs + 1) * 1000
    {
      durationMillis / 1000
    }
  }
}
