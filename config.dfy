/** The part of the player's settings that the playback core reads. */
module Config {
  import opened Wrappers

  /** The `remember_last_played_position` policy. */
  datatype LastPosition = Yes | No | Auto

  /** The loop mode of the playlist. */
  datatype Loop = Single | Playlist | Queue

  datatype Settings = Settings(
    musicDir: seq<string>,
    musicDirFromCli: Option<string>,
    rememberLastPlayedPosition: LastPosition,
    loopMode: Loop,
    volume: int,
    disableDiscordRpcFromCli: bool)

  /** The optional desktop integrations the binary was built with. */
  datatype Features = Features(mpris: bool, discord: bool)

  /**
   * The library root: the music directory given on the command line wins over
   * the first configured one, and the path is empty when neither exists.
   * `tilde` stands for the home-directory expansion, which is not modelled.
   */
  method GetFullPathFromConfig(config: Settings, tilde: string -> string) returns (fullPath: string)
    ensures config.musicDirFromCli.Some? ==> fullPath == tilde(config.musicDirFromCli.value)
    ensures config.musicDirFromCli.None? && config.musicDir != [] ==> fullPath == tilde(config.musicDir[0])
    ensures config.musicDirFromCli.None? && config.musicDir == [] ==> fullPath == ""
  {
    fullPath := "";
    if config.musicDir != [] {
      fullPath := tilde(config.musicDir[0]);
    }
    if config.musicDirFromCli.Some? {
      fullPath := tilde(config.musicDirFromCli.value);
    }
  }
}
