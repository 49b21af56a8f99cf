/**
 * The last-played-position policy: which store `player_save_last_position` and
 * `player_restore_last_position` use, the calls each makes, and what those
 * calls do to the two stores.
 */
module Persistence {
  import opened Wrappers
  import opened Tracks
  import opened Config
  import opened Calls
  import opened Stores

  /** Under the Auto policy only tracks of at least ten minutes are remembered. */
  const AutoThresholdSecs: nat := 600

  function StoreFor(mediaType: MediaType): (store: StoreKind)
    ensures store == MusicStore <==> mediaType == Music
  {
    match mediaType
    case Music => MusicStore
    case Podcast => PodcastStore
  }

  /**
   * The store that save and restore use for the current track, or None when
   * they leave both stores alone. The decision is the same for both operations.
   */
  function PersistTarget(policy: LastPosition, current: Option<Track>): (target: Option<StoreKind>)
    ensures target.Some? <==>
      && current.Some?
      && current.value.mediaType.Some?
      && (policy == Yes || (policy == Auto && current.value.DurationSecs() >= AutoThresholdSecs))
    ensures target.Some? ==> target.value == StoreFor(current.value.mediaType.value)
  {
    match policy
    case No => None
    case Yes =>
      if current.Some? && current.value.mediaType.Some? then Some(StoreFor(current.value.mediaType.value))
      else None
    case Auto =>
      if current.Some? && current.value.DurationSecs() >= AutoThresholdSecs && current.value.mediaType.Some?
      then Some(StoreFor(current.value.mediaType.value))
      else None
  }

  /** The calls `player_save_last_position` makes when `secs` seconds have been played. */
  function SaveCalls(policy: LastPosition, current: Option<Track>, secs: nat): (calls: seq<Call>)
    ensures |calls| <= 1
    ensures calls == [] <==> PersistTarget(policy, current).None?
    ensures forall i | 0 <= i < |calls| ::
      calls[i] == SetLastPosition(PersistTarget(policy, current).value, current.value.id, secs)
  {
    match PersistTarget(policy, current)
    case None => []
    case Some(store) => [SetLastPosition(store, current.value.id, secs)]
  }

  /** The position restore seeks to: the record of the matching store, if the policy applies and one exists. */
  function StoredPosition(policy: LastPosition, current: Option<Track>,
                          music: map<TrackId, nat>, podcast: map<TrackId, nat>): (stored: Option<nat>)
    ensures stored.Some? ==> PersistTarget(policy, current).Some?
    ensures PersistTarget(policy, current) == Some(MusicStore) ==> stored == Lookup(music, current.value.id)
    ensures PersistTarget(policy, current) == Some(PodcastStore) ==> stored == Lookup(podcast, current.value.id)
  {
    match PersistTarget(policy, current)
    case None => None
    case Some(store) => Lookup(if store == MusicStore then music else podcast, current.value.id)
  }

  /**
   * The calls `player_restore_last_position` makes: a lookup in the matching
   * store and, when a record exists, a seek to it followed by a zero written to
   * the MUSIC store, whatever the track's media type.
   */
  function RestoreCalls(policy: LastPosition, current: Option<Track>,
                        music: map<TrackId, nat>, podcast: map<TrackId, nat>): (calls: seq<Call>)
    ensures calls == [] <==> PersistTarget(policy, current).None?
    ensures calls != [] ==> calls[0] == GetLastPosition(PersistTarget(policy, current).value, current.value.id)
    ensures |calls| == (if PersistTarget(policy, current).None? then 0
                        else if StoredPosition(policy, current, music, podcast).None? then 1 else 3)
    ensures forall i | 0 <= i < |calls| && calls[i].SetLastPosition? ::
      calls[i] == SetLastPosition(MusicStore, current.value.id, 0)
  {
    match PersistTarget(policy, current)
    case None => []
    case Some(store) =>
      [GetLastPosition(store, current.value.id)] +
      match StoredPosition(policy, current, music, podcast)
      case None => []
      case Some(secs) => [SeekTo(secs), SetLastPosition(MusicStore, current.value.id, 0)]
  }

  predicate WritesTo(c: Call, store: StoreKind): (writes: bool) {
    c.SetLastPosition? && c.store == store
  }

  predicate TouchesStore(c: Call): (touches: bool) {
    c.GetLastPosition? || c.SetLastPosition?
  }

  function ApplyCall(positions: map<TrackId, nat>, store: StoreKind, c: Call): (after: map<TrackId, nat>) {
    if WritesTo(c, store) then positions[c.id := c.secs] else positions
  }

  /** The records of `store` after it has seen `calls`, starting from `positions`. */
  function StoreAfter(positions: map<TrackId, nat>, store: StoreKind, calls: seq<Call>): (r: map<TrackId, nat>)
    ensures (forall i | 0 <= i < |calls| :: !WritesTo(calls[i], store)) ==> r == positions
    ensures positions.Keys <= r.Keys
    decreases |calls|
  {
    if calls == [] then positions
    else StoreAfter(ApplyCall(positions, store, calls[0]), store, calls[1..])
  }

  lemma {:induction false} StoreAfterAppend(positions: map<TrackId, nat>, store: StoreKind, a: seq<Call>, b: seq<Call>)
    ensures StoreAfter(positions, store, a + b) == StoreAfter(StoreAfter(positions, store, a), store, b)
    decreases |a|
  {
    if a != [] {
      var next := ApplyCall(positions, store, a[0]);
      assert (a + b)[0] == a[0] && (a + b)[1..] == a[1..] + b;
      assert StoreAfter(positions, store, a + b) == StoreAfter(next, store, a[1..] + b);
      StoreAfterAppend(next, store, a[1..], b);
    } else {
      assert a + b == b;
    }
  }

  /** Saving writes `secs` for the current track into the target store and nothing anywhere else. */
  lemma SaveEffect(policy: LastPosition, current: Option<Track>, secs: nat,
                   positions: map<TrackId, nat>, store: StoreKind)
    ensures StoreAfter(positions, store, SaveCalls(policy, current, secs)) ==
      if PersistTarget(policy, current) == Some(store) then positions[current.value.id := secs] else positions
  {
  }

  /** The save dispatch table: No writes nothing, Yes writes to the store of the track's media type. */
  lemma SaveDispatch(policy: LastPosition, current: Option<Track>, secs: nat,
                     music: map<TrackId, nat>, podcast: map<TrackId, nat>)
    ensures policy == No || current.None? || current.value.mediaType.None? ==> SaveCalls(policy, current, secs) == []
    ensures policy == Yes && current.Some? && current.value.mediaType == Some(Music) ==>
      && StoreAfter(music, MusicStore, SaveCalls(policy, current, secs)) == music[current.value.id := secs]
      && StoreAfter(podcast, PodcastStore, SaveCalls(policy, current, secs)) == podcast
    ensures policy == Yes && current.Some? && current.value.mediaType == Some(Podcast) ==>
      && StoreAfter(music, MusicStore, SaveCalls(policy, current, secs)) == music
      && StoreAfter(podcast, PodcastStore, SaveCalls(policy, current, secs)) == podcast[current.value.id := secs]
  {
  }

  /**
   * What a restore does: with a stored position it seeks there and zeroes the
   * track in the music store; without one it neither seeks nor writes. The
   * podcast store is never written.
   */
  lemma RestoreOutcome(policy: LastPosition, current: Option<Track>,
                       music: map<TrackId, nat>, podcast: map<TrackId, nat>)
    ensures var calls := RestoreCalls(policy, current, music, podcast);
      && StoreAfter(podcast, PodcastStore, calls) == podcast
      && (StoredPosition(policy, current, music, podcast).None? ==>
            && StoreAfter(music, MusicStore, calls) == music
            && forall i | 0 <= i < |calls| :: !calls[i].SeekTo? && !calls[i].SetLastPosition?)
      && (StoredPosition(policy, current, music, podcast).Some? ==>
            && |calls| == 3
            && calls[1] == SeekTo(StoredPosition(policy, current, music, podcast).value)
            && StoreAfter(music, MusicStore, calls) == music[current.value.id := 0])
  {
    var calls := RestoreCalls(policy, current, music, podcast);
    if StoredPosition(policy, current, music, podcast).Some? {
      var id := current.value.id;
      var store := PersistTarget(policy, current).value;
      assert calls == [GetLastPosition(store, id), SeekTo(StoredPosition(policy, current, music, podcast).value),
                       SetLastPosition(MusicStore, id, 0)];
      var tail := [SeekTo(StoredPosition(policy, current, music, podcast).value), SetLastPosition(MusicStore, id, 0)];
      assert calls[1..] == tail && tail[1..][1..] == [];
      assert StoreAfter(music, MusicStore, calls) == StoreAfter(music, MusicStore, tail);
      assert StoreAfter(music, MusicStore, tail) == StoreAfter(music, MusicStore, tail[1..]);
    } else if calls != [] {
      assert calls[1..] == [];
    }
  }

  /** Restore does nothing at all under No, without a current track, or without a media type. */
  lemma RestoreInert(policy: LastPosition, current: Option<Track>,
                     music: map<TrackId, nat>, podcast: map<TrackId, nat>)
    ensures policy == No || current.None? || current.value.mediaType.None? ==>
      RestoreCalls(policy, current, music, podcast) == []
  {
  }

  /** Under Auto a classified track is remembered exactly when it lasts at least 600 whole seconds. */
  lemma AutoThreshold(track: Track)
    requires track.mediaType.Some?
    ensures PersistTarget(Auto, Some(track)).Some? <==> track.durationMillis >= 600_000
  {
  }

  /** The two tracks either side of the Auto threshold: 599 s touches no store, 600 s does. */
  lemma AutoBoundary(id: TrackId, mediaType: MediaType, secs: nat,
                     music: map<TrackId, nat>, podcast: map<TrackId, nat>)
    ensures var short := Some(Track(id, Some(mediaType), 599_000));
      SaveCalls(Auto, short, secs) == [] && RestoreCalls(Auto, short, music, podcast) == []
    ensures var long := Some(Track(id, Some(mediaType), 600_000));
      && SaveCalls(Auto, long, secs) == [SetLastPosition(StoreFor(mediaType), id, secs)]
      && RestoreCalls(Auto, long, music, podcast) != []
      && TouchesStore(RestoreCalls(Auto, long, music, podcast)[0])
  {
  }

  /**
   * A position saved for a remembered track is the one the next restore finds
   * and seeks to; afterwards the music store holds 0 for the track.
   */
  lemma SaveThenRestore(policy: LastPosition, current: Option<Track>, secs: nat,
                        music: map<TrackId, nat>, podcast: map<TrackId, nat>)
    requires PersistTarget(policy, current).Some?
    ensures var saved := SaveCalls(policy, current, secs);
      var music1 := StoreAfter(music, MusicStore, saved);
      var podcast1 := StoreAfter(podcast, PodcastStore, saved);
      var both := saved + RestoreCalls(policy, current, music1, podcast1);
      && StoredPosition(policy, current, music1, podcast1) == Some(secs)
      && SeekTo(secs) in both
      && current.value.id in StoreAfter(music, MusicStore, both)
      && StoreAfter(music, MusicStore, both)[current.value.id] == 0
      && StoreAfter(podcast, PodcastStore, both) == podcast1
  {
    var saved := SaveCalls(policy, current, secs);
    var music1 := StoreAfter(music, MusicStore, saved);
    var podcast1 := StoreAfter(podcast, PodcastStore, saved);
    var restored := RestoreCalls(policy, current, music1, podcast1);
    SaveEffect(policy, current, secs, music, MusicStore);
    SaveEffect(policy, current, secs, podcast, PodcastStore);
    RestoreOutcome(policy, current, music1, podcast1);
    StoreAfterAppend(music, MusicStore, saved, restored);
    StoreAfterAppend(podcast, PodcastStore, saved, restored);
    assert restored[1] == (saved + restored)[|saved| + 1];
    assert StoreAfter(music, MusicStore, saved + restored) == music1[current.value.id := 0];
  }

  /**
   * A second restore right after a successful one: a music track now starts
   * from 0, but a podcast episode is sent back to the same position, because
   * the zero went to the music store and the podcast record is untouched.
   */
  lemma RestoreTwice(policy: LastPosition, current: Option<Track>,
                     music: map<TrackId, nat>, podcast: map<TrackId, nat>)
    requires StoredPosition(policy, current, music, podcast).Some?
    ensures var calls := RestoreCalls(policy, current, music, podcast);
      var again := StoredPosition(policy, current,
                                  StoreAfter(music, MusicStore, calls), StoreAfter(podcast, PodcastStore, calls));
      && (current.value.mediaType == Some(Music) ==> again == Some(0))
      && (current.value.mediaType == Some(Podcast) ==> again == StoredPosition(policy, current, music, podcast))
  {
    RestoreOutcome(policy, current, music, podcast);
  }
}
