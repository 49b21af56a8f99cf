# termusic playback control and last-position persistence, in Dafny

This project models the playback-control part of termusic's application model
(`Model` in `src/ui/model/mod.rs`): the operations the user interface calls to
run, stop, pause, seek and go back, and the policy that remembers and restores
how far a track was played.

- `Model` (module `Session`) is a class with the two fields these operations
  update, `timePos` (seconds played) and `redraw`, the read-only settings, and
  references to its collaborators: the audio backend (`Playback.Player`), its
  playlist (`Playback.Playlist`) and the two position stores
  (`Stores.PositionStore`, one for the music library database, one for the
  podcast database).
- The collaborators live in files that are not part of this model. Each of
  their methods records its call in one shared `Calls.CallLog` and promises
  only what `Model` relies on (pause sets the paused flag, set-volume sets the
  volume, a store read returns the stored record, a store write replaces it).
  Because all collaborators share one log, each `Model` method states the exact
  sequence of calls it makes, in order and across objects.
- The position policy is also given as pure functions (module `Persistence`):
  `PersistTarget` is the decision table over the policy (`Yes`/`No`/`Auto`),
  the current track's media type and the 600-second threshold. `SaveCalls` and
  `RestoreCalls` are the calls each operation makes. `StoreAfter` replays calls
  against a store's records. The `Model` methods are proved to make exactly
  these calls and to leave the stores exactly as `StoreAfter` says. The
  lemmas of `Persistence` then state the policy's properties for all inputs.
- `get_full_path_from_config` is modelled as `Config.GetFullPathFromConfig`,
  with the home-directory expansion passed in as an uninterpreted function.

Behaviours of the code that the model keeps as written:

- A successful restore writes 0 for the track into the MUSIC store, even for a
  podcast episode (line 447). So a restore resets the stored position only for
  a music track. For a podcast episode the podcast record keeps its
  value, and the next restore seeks to it again (`Persistence.RestoreTwice`).
- The Auto threshold is fixed at 600 whole seconds, compared after truncating
  the duration to seconds. A track of 599.9 s is not remembered.
- After a seek on a paused backend, the volume is set to the configured volume
  (`config.volume`), not to the volume the backend had before the seek.
- `player_update_current_track_after` resets `time_pos` but does not itself set
  `redraw`.

## Model

| member | source | states |
|---|---|---|
| Config.GetFullPathFromConfig | src/ui/model/mod.rs:217-227 | a music directory given on the command line wins over the first configured one; with neither, the path is empty |
| Persistence.PersistTarget | src/ui/model/mod.rs:358-393 | a store is used exactly when there is a current track with a media type and the policy is Yes, or Auto with at least 600 whole seconds; the store is the one of the media type |
| Persistence.StoreAfter | src/ui/model/mod.rs:363-368 | replaying calls that write nothing to a store leaves its records as they were, and replay never loses a record |
| Persistence.SaveCalls | src/ui/model/mod.rs:358-393 | a save makes at most one call, none exactly when no store is selected, and that call writes the played seconds for the current track to the selected store |
| Persistence.StoredPosition | src/ui/model/mod.rs:396-443 | the position a restore finds is the current track's record in the store the policy and media type select, and there is none when no store is selected |
| Persistence.RestoreCalls | src/ui/model/mod.rs:396-449 | a restore makes no call when no store is selected; otherwise it first reads the selected store, and makes one call in all when no record is found and three when one is; its only write is a 0 for the track into the music store |
| Persistence.StoreAfterAppend | src/ui/model/mod.rs:445-449 | replaying two call sequences against a store one after the other gives the same records as replaying them joined |
| Tracks.Track.DurationSecs | src/ui/model/mod.rs:377 | the duration in whole seconds, truncated: secs * 1000 <= duration in ms < (secs + 1) * 1000, as `Duration::as_secs` |
| Persistence.SaveEffect | src/ui/model/mod.rs:358-393 | a save writes the played seconds for the current track into the selected store and changes nothing else |
| Persistence.SaveDispatch | src/ui/model/mod.rs:359-373 | under No, without a current track or without a media type nothing is written; under Yes music goes to the music store and podcasts to the podcast store, and the other store is untouched |
| Persistence.RestoreOutcome | src/ui/model/mod.rs:396-449 | a restore with a stored record seeks to it and leaves 0 for the track in the music store; without a record it neither seeks nor writes; the podcast store is never written |
| Persistence.RestoreInert | src/ui/model/mod.rs:397-419 | under No, without a current track or without a media type a restore makes no call at all |
| Persistence.AutoThreshold | src/ui/model/mod.rs:377 | under Auto a classified track is remembered exactly when its duration is at least 600000 ms |
| Persistence.AutoBoundary | src/ui/model/mod.rs:420-441 | under Auto a 599 s track causes no store access on save or restore, a 600 s track does |
| Persistence.SaveThenRestore | src/ui/model/mod.rs:358-449 | a position saved for a remembered track is what the next restore seeks to, after which the music store holds 0 for it |
| Persistence.RestoreTwice | src/ui/model/mod.rs:445-449 | after a successful restore a music track restores to 0, while a podcast episode restores to the same position again |
| Session.Model.ForceRedraw | src/ui/model/mod.rs:255-257 | sets the redraw flag and nothing else |
| Session.Model.Run | src/ui/model/mod.rs:259-264 | starts play and then restores the position only when the playlist reports stopped; otherwise nothing changes |
| Session.Model.PlayerStop | src/ui/model/mod.rs:266-280 | time_pos becomes 0 and redraw true; the backend is stopped, a Progress(0, 60) message is sent, then the photo, titles and lyric are refreshed |
| Session.Model.PlayerUpdateCurrentTrackAfter | src/ui/model/mod.rs:282-300 | time_pos becomes 0; the desktop integrations are told of the current track (discord unless disabled on the command line), then the views are refreshed |
| Session.Model.PlayerPrevious | src/ui/model/mod.rs:302-314 | under Single or Queue nothing changes; on an empty playlist it behaves as PlayerStop; otherwise handle_previous then skip, in that order |
| Session.Model.PlayerTogglePause | src/ui/model/mod.rs:316-334 | no effect with an empty playlist and no current track; otherwise the paused flag flips, with resume or pause notices, and the volume and time_pos are untouched |
| Session.Model.PlayerSeek | src/ui/model/mod.rs:336-355 | a paused backend that cannot seek while paused is set to volume 0, seeks, is paused again and set to the configured volume; otherwise only the seek is made; a failed seek is ignored; whether the backend can seek while paused is the constant `Player.seeksWhilePaused` |
| Session.Model.PlayerSaveLastPosition | src/ui/model/mod.rs:357-393 | makes exactly the calls of SaveCalls and leaves both stores as their replay says |
| Session.Model.SaveTo | src/ui/model/mod.rs:362-370 | music tracks are written to the music store, podcasts to the podcast store, others nowhere |
| Session.Model.PlayerRestoreLastPosition | src/ui/model/mod.rs:396-450 | makes exactly the calls of RestoreCalls, and the music store ends as their replay says; the podcast store is not modified |
| Session.Model.RestoreFrom | src/ui/model/mod.rs:401-416 | reads the store of the track's media type and seeks to the record when there is one, reporting whether it did |
| Scenarios.TogglePauseTwice | src/ui/model/mod.rs:316-334 | two toggles in a row restore the paused flag, the volume and time_pos |
| Scenarios.SaveThenStop | src/ui/model/mod.rs:358-372 | under Yes, saving 120 s of a 700 s music track and stopping leaves 120 in the music store and time_pos at 0 |
| Scenarios.RestorePodcastEpisode | src/ui/model/mod.rs:409-449 | restoring a podcast episode seeks to its podcast record and writes the zero into the music store, leaving the podcast record as it was |
| Scenarios.SeekWhilePaused | src/ui/model/mod.rs:336-355 | the seek on a paused backend without seek-while-paused support is issued at volume 0 and the backend ends paused at the configured volume |
| Stores.PositionStore.GetLastPosition | src/ui/model/mod.rs:403 | returns the stored seconds for the track, or nothing when no record exists |
| Stores.PositionStore.SetLastPosition | src/ui/model/mod.rs:365 | replaces the track's record with the given seconds |
| Playback.Player.StartPlay | src/ui/model/mod.rs:261 | records one StartPlay call; it may change the playlist and the pause state |
| Playback.Player.Stop | src/ui/model/mod.rs:268 | records one Stop call; it may change the playlist and the pause state |
| Playback.Player.Skip | src/ui/model/mod.rs:313 | records one Skip call; it may change the playlist and the pause state |
| Playback.Player.SeekTo | src/ui/model/mod.rs:404 | records one absolute seek to the given seconds and changes no backend, playlist or store state |
| Playback.Player.SendProgress | src/ui/model/mod.rs:269-272 | records one Progress(position, total) message and changes no backend state; a failed send is ignored |
| Playback.Playlist.HandlePrevious | src/ui/model/mod.rs:312 | records one HandlePrevious call; how the cursor moves is not modelled |
| Session.Model.RequestRefresh | src/ui/model/mod.rs:276-278 | records one user-interface refresh of the given kind and changes no model, backend or store state |
| Playback.Player.Pause | src/ui/model/mod.rs:327 | the backend is paused afterwards, at the same volume |
| Playback.Player.Resume | src/ui/model/mod.rs:321 | the backend is playing afterwards, at the same volume |
| Playback.Player.SetVolume | src/ui/model/mod.rs:343 | the volume becomes the given level; the pause state is unchanged |
| Playback.Player.Seek | src/ui/model/mod.rs:346 | a relative seek at the current volume, which it does not change; success is reported and may be ignored |

## Left out

- `Model::new`, `init_config`, `init_terminal` and `finalize_terminal`: they build the terminal, databases, image-protocol probe and library tree, all I/O. The `Model` constructor here only wires existing collaborators together.
- `since_last_redraw` and `last_redraw`: wall-clock time.
- The 50 ms sleep in `player_seek` is a step that does nothing.
- The choice of seek workaround is made at compile time in the source (`#[cfg(not(any(feature = "mpv", feature = "gst")))]`, lines 339-348). The model makes it a constant field of the backend, `Player.seeksWhilePaused`, which is false for the built-in backend and true for mpv and gstreamer.
- The user-interface refreshes (`update_photo`, `progress_update_title`, `lyric_update_title`, `lyric_update`, `playlist_sync`, `update_playing_song`) appear only as log entries. The error popup that a failed `update_photo` opens is not modelled.
- The mpris and discord integrations are build features. They are modelled as two booleans and appear only as log entries.
- The podcast download pool (`threadpool`), the `tx_to_main`/`rx_to_main` and song-tag channels, and the download tracker are concurrent machinery whose implementation is not part of this model.
- The internals of the playlist and the backend (`is_stopped`, `is_empty`, `handle_previous`, `start_play`, `stop`, `skip`, `seek`, `seek_to`) are not part of this model. Their methods carry only the contracts listed above. So the model does not decide what `start_play` does on an empty playlist, or how `handle_previous` wraps.
- The databases behind the stores are not modelled. A failed read, whether for a missing record or a database error, is modelled as a missing record.
- `shellexpand::tilde` is an uninterpreted function passed to `Config.GetFullPathFromConfig`.
- Session.Model.PlayerSaveLastPosition: requires `timePos >= 0` instead of modelling the sign-losing `time_pos as u64` cast.
- Track durations are whole milliseconds. Nanosecond precision does not change any comparison with the 600-second threshold after truncation to seconds.
