/**
 * The calls the playback core makes on its collaborators, and the one log all
 * collaborators record them in, so that their order across objects is visible.
 */
module Calls {
  import opened Tracks

  /** The two position stores: the music library database and the podcast database. */
  datatype StoreKind = MusicStore | PodcastStore

  /** The user-interface refreshes the core asks for; their effect on the screen is not modelled. */
  datatype Refresh = UpdatePhoto | ProgressTitle | LyricTitle | Lyric | PlaylistSync | PlayingSong

  datatype Call =
    // audio backend
    | StartPlay
    | Stop
    | Skip
    | Pause
    | Resume
    | SetVolume(level: int)
    | Seek(offset: int, atVolume: int)   // atVolume: the backend's volume when the seek is issued
    | SeekTo(secs: nat)
    | Progress(position: int, total: int) // a message sent on the backend's own channel
    // playlist
    | HandlePrevious
    // position stores
    | GetLastPosition(store: StoreKind, id: TrackId)
    | SetLastPosition(store: StoreKind, id: TrackId, secs: nat)
    // desktop integrations
    | MprisAddAndPlay(track: TrackId)
    | MprisResume
    | MprisPause
    | DiscordUpdate(track: TrackId)
    | DiscordResume(timePos: int)
    | DiscordPause
    // user interface
    | Ui(refresh: Refresh)

  class CallLog {
    var entries: seq<Call>

    constructor ()
      ensures entries == []
    {
      entries := [];
    }

    method Record(c: Call)
      modifies this
      ensures entries == old(entries) + [c]
    {
      entries := entries + [c];
    }
  }
}
