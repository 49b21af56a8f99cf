/**
 * The playback-control surface of the application model: the `player_*`
 * operations and `run`, over the fields they update (`time_pos`, `redraw`) and
 * the collaborators they drive (backend, playlist, the two position stores).
 */
module Session {
  import opened Wrappers
  import opened Tracks
  import Config
  import opened Calls
  import opened Stores
  import opened Playback
  import opened Persistence

  /** The desktop notices sent when a new track starts. */
  function TrackChangeNotices(features: Config.Features, settings: Config.Settings, current: Option<Track>): seq<Call> {
    if current.None? then []
    else
      (if features.mpris then [MprisAddAndPlay(current.value.id)] else []) +
      (if features.discord && !settings.disableDiscordRpcFromCli then [DiscordUpdate(current.value.id)] else [])
  }

  /** The calls of `player_stop`, in order. */
  const StopCalls: seq<Call> :=
    [Call.Stop, Progress(0, 60), Ui(UpdatePhoto), Ui(ProgressTitle), Ui(LyricTitle), Ui(Lyric)]

  class Model {
    /** Seconds played of the current track. */
    var timePos: int
    var redraw: bool
    const config: Config.Settings
    const features: Config.Features
    const player: Player
    /** The music library database. */
    const db: PositionStore
    const dbPodcast: PositionStore
    const log: CallLog

    /** All collaborators record in the one log, and each store is the one its name says. */
    ghost predicate Valid() {
      && player.log == log
      && player.playlist.log == log
      && db.log == log
      && dbPodcast.log == log
      && db.kind == MusicStore
      && dbPodcast.kind == PodcastStore
    }

    constructor (config: Config.Settings, features: Config.Features, player: Player,
                 db: PositionStore, dbPodcast: PositionStore, log: CallLog)
      requires player.log == log && player.playlist.log == log && db.log == log && dbPodcast.log == log
      requires db.kind == MusicStore && dbPodcast.kind == PodcastStore
      ensures Valid() && timePos == 0 && redraw
      ensures this.config == config && this.features == features && this.player == player
      ensures this.db == db && this.dbPodcast == dbPodcast && this.log == log
    {
      this.config := config;
      this.features := features;
      this.player := player;
      this.db := db;
      this.dbPodcast := dbPodcast;
      this.log := log;
      timePos := 0;
      redraw := true;
    }

    method ForceRedraw()
      modifies this
      ensures redraw && timePos == old(timePos)
    {
      redraw := true;
    }

    method RequestRefresh(r: Calls.Refresh)
      modifies log
      ensures log.entries == old(log.entries) + [Ui(r)]
    {
      log.Record(Ui(r));
    }

    /** Starts play when the playlist reports stopped, then restores the remembered position. */
    method Run()
      requires Valid()
      modifies player, player.playlist, db, log
      ensures !old(player.playlist.IsStopped()) ==> unchanged(player, player.playlist, db, log)
      ensures old(player.playlist.IsStopped()) ==>
        var restore := RestoreCalls(config.rememberLastPlayedPosition, player.playlist.current,
                                    old(db.positions), old(dbPodcast.positions));
        && log.entries == old(log.entries) + [Call.StartPlay] + restore
        && db.positions == StoreAfter(old(db.positions), MusicStore, restore)
    {
      if player.playlist.IsStopped() {
        player.StartPlay();
        PlayerRestoreLastPosition();
      }
    }

    /** Stops playback and resets the progress display. */
    method PlayerStop()
      requires Valid()
      modifies this, player, player.playlist, log
      ensures timePos == 0 && redraw
      ensures log.entries == old(log.entries) + StopCalls
    {
      timePos := 0;
      player.Stop();
      player.SendProgress(0, 60);
      RequestRefresh(UpdatePhoto);
      RequestRefresh(ProgressTitle);
      RequestRefresh(LyricTitle);
      RequestRefresh(Lyric);
      ForceRedraw();
    }

    /** Bookkeeping after the backend moved to another track. */
    method PlayerUpdateCurrentTrackAfter()
      requires Valid()
      modifies this, log
      ensures timePos == 0 && redraw == old(redraw)
      ensures log.entries == old(log.entries)
        + TrackChangeNotices(features, config, player.playlist.current)
        + [Ui(PlaylistSync), Ui(UpdatePhoto), Ui(ProgressTitle), Ui(LyricTitle), Ui(PlayingSong)]
    {
      var song := player.playlist.current;
      if song.Some? {
        if features.mpris {
          log.Record(MprisAddAndPlay(song.value.id));
        }
        if features.discord && !config.disableDiscordRpcFromCli {
          log.Record(DiscordUpdate(song.value.id));
        }
      }
      timePos := 0;
      RequestRefresh(PlaylistSync);
      RequestRefresh(UpdatePhoto);
      RequestRefresh(ProgressTitle);
      RequestRefresh(LyricTitle);
      RequestRefresh(PlayingSong);
    }

    /**
     * Goes back one track. Refused under the Single and Queue loop modes; on an
     * empty playlist it stops; otherwise the playlist moves back and the backend
     * skips to the new current track.
     */
    method PlayerPrevious()
      requires Valid()
      modifies this, player, player.playlist, log
      ensures config.loopMode != Config.Playlist ==> unchanged(this, player, player.playlist, log)
      ensures config.loopMode == Config.Playlist && old(player.playlist.IsEmpty()) ==>
        timePos == 0 && redraw && log.entries == old(log.entries) + StopCalls
      ensures config.loopMode == Config.Playlist && !old(player.playlist.IsEmpty()) ==>
        && timePos == old(timePos) && redraw == old(redraw)
        && log.entries == old(log.entries) + [Call.HandlePrevious, Call.Skip]
    {
      if config.loopMode == Config.Single || config.loopMode == Config.Queue {
        return;
      }
      if player.playlist.IsEmpty() {
        PlayerStop();
        return;
      }
      player.playlist.HandlePrevious();
      player.Skip();
    }

    /** Pauses a playing backend and resumes a paused one; does nothing with no track at all. */
    method PlayerTogglePause()
      requires Valid()
      modifies player, log
      ensures player.playlist.IsEmpty() && player.playlist.current.None? ==> unchanged(player, log)
      ensures !(player.playlist.IsEmpty() && player.playlist.current.None?) ==>
        && player.paused == !old(player.paused)
        && log.entries == old(log.entries)
          + (if old(player.paused) then
               [Call.Resume]
               + (if features.mpris then [MprisResume] else [])
               + (if features.discord then [DiscordResume(timePos)] else [])
             else
               [Call.Pause]
               + (if features.mpris then [MprisPause] else [])
               + (if features.discord then [DiscordPause] else []))
          + [Ui(ProgressTitle)]
      ensures player.volume == old(player.volume)
    {
      if player.playlist.IsEmpty() && player.playlist.current.None? {
        return;
      }
      if player.IsPaused() {
        player.Resume();
        if features.mpris {
          log.Record(MprisResume);
        }
        if features.discord {
          log.Record(DiscordResume(timePos));
        }
      } else {
        player.Pause();
        if features.mpris {
          log.Record(MprisPause);
        }
        if features.discord {
          log.Record(DiscordPause);
        }
      }
      RequestRefresh(ProgressTitle);
    }

    /**
     * Seeks by `offset` seconds, ignoring a failed seek. A backend that cannot
     * seek while paused is muted, seeks, and is paused again at the configured
     * volume; the 50 ms wait in between is a no-op here.
     */
    method PlayerSeek(offset: int)
      requires Valid()
      modifies this, player, log
      ensures timePos == old(timePos)
      ensures player.seeksWhilePaused || !old(player.paused) ==>
        && redraw == old(redraw)
        && player.volume == old(player.volume)
        && log.entries == old(log.entries) + [Seek(offset, old(player.volume))]
      ensures !player.seeksWhilePaused && old(player.paused) ==>
        && redraw
        && player.paused
        && player.volume == config.volume
        && log.entries == old(log.entries) + [SetVolume(0), Seek(offset, 0), Call.Pause, SetVolume(config.volume)]
    {
      var paused := false;
      if !player.seeksWhilePaused {
        paused := player.IsPaused();
        if paused {
          player.SetVolume(0);
        }
      }
      var _ := player.Seek(offset);
      if !player.seeksWhilePaused && paused {
        ForceRedraw();
        player.Pause();
        player.SetVolume(config.volume);
      }
    }

    /** Remembers `timePos` for the current track in the store the policy and media type select. */
    method PlayerSaveLastPosition()
      requires Valid()
      requires timePos >= 0
      modifies db, dbPodcast, log
      ensures var save := SaveCalls(config.rememberLastPlayedPosition, player.playlist.current, timePos);
        && log.entries == old(log.entries) + save
        && db.positions == StoreAfter(old(db.positions), MusicStore, save)
        && dbPodcast.positions == StoreAfter(old(dbPodcast.positions), PodcastStore, save)
    {
      SaveEffect(config.rememberLastPlayedPosition, player.playlist.current, timePos, db.positions, MusicStore);
      SaveEffect(config.rememberLastPlayedPosition, player.playlist.current, timePos, dbPodcast.positions, PodcastStore);
      match config.rememberLastPlayedPosition
      case Yes =>
        var current := player.playlist.current;
        if current.Some? {
          SaveTo(current.value);
        }
      case No =>
      case Auto =>
        var current := player.playlist.current;
        if current.Some? && current.value.DurationSecs() >= AutoThresholdSecs {
          SaveTo(current.value);
        }
    }

    /** The media-type dispatch shared by both arms of the save policy. */
    method SaveTo(track: Track)
      requires Valid()
      requires timePos >= 0
      modifies db, dbPodcast, log
      ensures track.mediaType == Some(Music) ==>
        db.positions == old(db.positions)[track.id := timePos] && dbPodcast.positions == old(dbPodcast.positions)
        && log.entries == old(log.entries) + [SetLastPosition(MusicStore, track.id, timePos)]
      ensures track.mediaType == Some(Podcast) ==>
        db.positions == old(db.positions) && dbPodcast.positions == old(dbPodcast.positions)[track.id := timePos]
        && log.entries == old(log.entries) + [SetLastPosition(PodcastStore, track.id, timePos)]
      ensures track.mediaType.None? ==> unchanged(db, dbPodcast, log)
    {
      match track.mediaType
      case Some(Music) => db.SetLastPosition(track, timePos);
      case Some(Podcast) => dbPodcast.SetLastPosition(track, timePos);
      case None =>
    }

    /**
     * Seeks to the remembered position of the current track, if the policy
     * applies and the matching store has one, and then writes 0 for the track
     * into the music store.
     */
    method PlayerRestoreLastPosition()
      requires Valid()
      modifies db, log
      ensures var restore := RestoreCalls(config.rememberLastPlayedPosition, player.playlist.current,
                                          old(db.positions), old(dbPodcast.positions));
        && log.entries == old(log.entries) + restore
        && db.positions == StoreAfter(old(db.positions), MusicStore, restore)
    {
      var restored := false;
      match config.rememberLastPlayedPosition {
        case Yes =>
          var current := player.playlist.current;
          if current.Some? {
            restored := RestoreFrom(current.value);
          }
        case No =>
        case Auto =>
          var current := player.playlist.current;
          if current.Some? && current.value.DurationSecs() >= AutoThresholdSecs {
            restored := RestoreFrom(current.value);
          }
      }

      if restored {
        var current := player.playlist.current;
        if current.Some? {
          db.SetLastPosition(current.value, 0);
        }
      }
      RestoreOutcome(config.rememberLastPlayedPosition, player.playlist.current, old(db.positions), old(dbPodcast.positions));
    }

    /** The media-type dispatch shared by both arms of the restore policy. */
    method RestoreFrom(track: Track) returns (restored: bool)
      requires Valid()
      modifies log
      ensures var stored := if track.mediaType == Some(Music) then Lookup(db.positions, track.id)
                            else if track.mediaType == Some(Podcast) then Lookup(dbPodcast.positions, track.id)
                            else None;
        && restored == stored.Some?
        && log.entries == old(log.entries)
          + (if track.mediaType.None? then []
             else [GetLastPosition(StoreFor(track.mediaType.value), track.id)])
          + (if stored.Some? then [SeekTo(stored.value)] else [])
    {
      restored := false;
      match track.mediaType
      case Some(Music) =>
        var lastPos := db.GetLastPosition(track);
        if lastPos.Some? {
          player.SeekTo(lastPos.value);
          restored := true;
        }
      case Some(Podcast) =>
        var lastPos := dbPodcast.GetLastPosition(track);
        if lastPos.Some? {
          player.SeekTo(lastPos.value);
          restored := true;
        }
      case None =>
    }
  }
}
