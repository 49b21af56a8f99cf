/** The two last-position stores, as maps from track identity to seconds played. */
module Stores {
  import opened Wrappers
  import opened Tracks
  import opened Calls

  /** What `get_last_position` yields: the stored seconds, or nothing when no record exists. */
  function Lookup(positions: map<TrackId, nat>, id: TrackId): (stored: Option<nat>)
    ensures stored.Some? <==> id in positions
    ensures stored.Some? ==> stored.value == positions[id]
  {
    if id in positions then Some(positions[id]) else None
  }

  /**
   * A position store. The database behind it is not modelled: a read gives the
   * stored record, a write replaces it, and both are recorded in the shared log.
   */
  class PositionStore {
    const kind: StoreKind
    var positions: map<TrackId, nat>
    const log: CallLog

    constructor (kind: StoreKind, positions: map<TrackId, nat>, log: CallLog)
      ensures this.kind == kind && this.positions == positions && this.log == log
    {
      this.kind := kind;
      this.positions := positions;
      this.log := log;
    }

    method GetLastPosition(track: Track) returns (r: Option<nat>)
      modifies log
      ensures r == Lookup(positions, track.id)
      ensures log.entries == old(log.entries) + [Call.GetLastPosition(kind, track.id)]
    {
      log.Record(Call.GetLastPosition(kind, track.id));
      r := Lookup(positions, track.id);
    }

    method SetLastPosition(track: Track, secs: nat)
      modifies this, log
      ensures positions == old(positions)[track.id := secs]
      ensures log.entries == old(log.entries) + [Call.SetLastPosition(kind, track.id, secs)]
    {
      log.Record(Call.SetLastPosition(kind, track.id, secs));
      positions := positions[track.id := secs];
    }
  }
}
