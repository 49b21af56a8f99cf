/**
 * The playlist and the audio backend, seen through the calls the playback core
 * makes on them. Their implementations are not part of this model: each method
 * records its call in the shared log and promises only what the core relies on.
 */
module Playback {
  import opened Wrappers
  import opened Tracks
  import opened Calls

  class Playlist {
    var tracks: seq<Track>
    /** The track being played; it is held apart from the queue in `tracks`. */
    var current: Option<Track>
    var stopped: bool
    const log: CallLog

    constructor (tracks: seq<Track>, current: Option<Track>, stopped: bool, log: CallLog)
      ensures this.tracks == tracks && this.current == current && this.stopped == stopped
      ensures this.log == log
    {
      this.tracks := tracks;
      this.current := current;
      this.stopped := stopped;
      this.log := log;
    }

    predicate IsEmpty()
      reads this
    {
      tracks == []
    }

    predicate IsStopped()
      reads this
    {
      stopped
    }

    /** Moves the cursor back; how it wraps is the playlist's own rule and is not modelled. */
    method HandlePrevious()
      modifies this, log
      ensures log.entries == old(log.entries) + [Call.HandlePrevious]
    {
      log.Record(Call.HandlePrevious);
    }
  }

  class Player {
    var paused: bool
    var volume: int
    /** False for the built-in backend, which cannot seek while paused. */
    const seeksWhilePaused: bool
    const playlist: Playlist
    const log: CallLog

    constructor (paused: bool, volume: int, seeksWhilePaused: bool, playlist: Playlist, log: CallLog)
      ensures this.paused == paused && this.volume == volume
      ensures this.seeksWhilePaused == seeksWhilePaused && this.playlist == playlist && this.log == log
    {
      this.paused := paused;
      this.volume := volume;
      this.seeksWhilePaused := seeksWhilePaused;
      this.playlist := playlist;
      this.log := log;
    }

    predicate IsPaused()
      reads this
    {
      paused
    }

    /** Starts the next track of the playlist; may change the playlist and the pause state. */
    method StartPlay()
      modifies this, playlist, log
      ensures log.entries == old(log.entries) + [Call.StartPlay]
    {
      log.Record(Call.StartPlay);
    }

    /** Halts playback; may change the playlist and the pause state. */
    method Stop()
      modifies this, playlist, log
      ensures log.entries == old(log.entries) + [Call.Stop]
    {
      log.Record(Call.Stop);
    }

    /** Skips to the playlist's current track; may change the playlist and the pause state. */
    method Skip()
      modifies this, playlist, log
      ensures log.entries == old(log.entries) + [Call.Skip]
    {
      log.Record(Call.Skip);
    }

    method Pause()
      modifies this, log
      ensures paused && volume == old(volume)
      ensures log.entries == old(log.entries) + [Call.Pause]
    {
      log.Record(Call.Pause);
      paused := true;
    }

    method Resume()
      modifies this, log
      ensures !paused && volume == old(volume)
      ensures log.entries == old(log.entries) + [Call.Resume]
    {
      log.Record(Call.Resume);
      paused := false;
    }

    method SetVolume(level: int)
      modifies this, log
      ensures volume == level && paused == old(paused)
      ensures log.entries == old(log.entries) + [Call.SetVolume(level)]
    {
      log.Record(Call.SetVolume(level));
      volume := level;
    }

    /**
     * Seeks by `offset` seconds. Whether the seek succeeded is returned and
     * ignored by the core; the pause state afterwards is not promised.
     */
    method Seek(offset: int) returns (ok: bool)
      modifies this, log
      ensures volume == old(volume)
      ensures log.entries == old(log.entries) + [Call.Seek(offset, old(volume))]
    {
      log.Record(Call.Seek(offset, volume));
      ok := true;
    }

    method SeekTo(secs: nat)
      modifies log
      ensures log.entries == old(log.entries) + [Call.SeekTo(secs)]
    {
      log.Record(Call.SeekTo(secs));
    }

    /** Sends a progress message on the backend's own channel; a failed send is ignored. */
    method SendProgress(position: int, total: int)
      modifies log
      ensures log.entries == old(log.entries) + [Call.Progress(position, total)]
    {
      log.Record(Call.Progress(position, total));
    }
  }
}
