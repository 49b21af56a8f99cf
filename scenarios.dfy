/** Callers of the model that combine operations, proved from the operations' contracts alone. */
module Scenarios {
  import opened Wrappers
  import opened Tracks
  import Config
  import opened Calls
  import opened Stores
  import opened Persistence
  import opened Session

  /** Two pause toggles in a row give back the original pause state and leave `time_pos` alone. */
  method TogglePauseTwice(m: Model)
    requires m.Valid()
    modifies m.player, m.log
    ensures m.player.paused == old(m.player.paused)
    ensures m.player.volume == old(m.player.volume)
    ensures m.timePos == old(m.timePos)
  {
    m.PlayerTogglePause();
    m.PlayerTogglePause();
  }

  /** Under Yes, saving 120 s of a 700 s music track and then stopping leaves 120 in the music store and `time_pos` at 0. */
  method SaveThenStop(m: Model, track: Track)
    requires m.Valid()
    requires m.config.rememberLastPlayedPosition == Config.Yes
    requires m.player.playlist.current == Some(track)
    requires track.mediaType == Some(Music) && track.durationMillis == 700_000
    requires m.timePos == 120
    modifies m, m.player, m.player.playlist, m.db, m.dbPodcast, m.log
    ensures track.id in m.db.positions && m.db.positions[track.id] == 120
    ensures m.dbPodcast.positions == old(m.dbPodcast.positions)
    ensures m.timePos == 0 && m.redraw
    ensures m.log.entries == old(m.log.entries) + [SetLastPosition(MusicStore, track.id, 120)] + StopCalls
  {
    m.PlayerSaveLastPosition();
    SaveDispatch(Config.Yes, Some(track), 120, old(m.db.positions), old(m.dbPodcast.positions));
    m.PlayerStop();
  }

  /**
   * Restoring a podcast episode seeks to its podcast record and writes the zero
   * into the music store; the podcast record keeps its value.
   */
  method RestorePodcastEpisode(m: Model, track: Track, secs: nat)
    requires m.Valid()
    requires m.config.rememberLastPlayedPosition == Config.Yes
    requires m.player.playlist.current == Some(track)
    requires track.mediaType == Some(Podcast)
    requires track.id in m.dbPodcast.positions && m.dbPodcast.positions[track.id] == secs
    modifies m.db, m.log
    ensures m.log.entries == old(m.log.entries)
      + [GetLastPosition(PodcastStore, track.id), SeekTo(secs), SetLastPosition(MusicStore, track.id, 0)]
    ensures m.db.positions == old(m.db.positions)[track.id := 0]
    ensures m.dbPodcast.positions[track.id] == secs
  {
    m.PlayerRestoreLastPosition();
    RestoreOutcome(Config.Yes, Some(track), old(m.db.positions), old(m.dbPodcast.positions));
  }

  /** A seek on a paused backend that cannot seek while paused is issued at volume 0 and ends paused at the configured volume. */
  method SeekWhilePaused(m: Model, offset: int)
    requires m.Valid()
    requires !m.player.seeksWhilePaused && m.player.paused
    modifies m, m.player, m.log
    ensures m.player.paused && m.player.volume == m.config.volume
    ensures |m.log.entries| == |old(m.log.entries)| + 4
    ensures m.log.entries[|old(m.log.entries)| + 1] == Seek(offset, 0)
  {
    m.PlayerSeek(offset);
  }
}
