/**
 * The start-up checks of a run: the credential flags override the stored secrets, then four
 * settings are checked in a fixed order and the first missing one is reported.
 */
module Config {
  import opened Wrappers

  /** The command-line flags the checks read (an unset flag reads as the empty string). */
  datatype Flags = Flags(
    showURL: string, playlistName: string, clean: bool, dateFormat: string,
    spotifyID: string, spotifySecret: string)

  /** The package-level developer credentials. */
  datatype Secrets = Secrets(clientID: string, secretKey: string)

  datatype Options = Options(showURL: string, playlistNameTmpl: string, cleanOnly: bool, dateFormat: string)

  datatype ConfigError = SpotifyIDNotSet | SpotifySecretNotSet | InvalidURL | InvalidPlaylistTemplate

  /** The message each configuration error carries. */
  function Message(e: ConfigError): string
  {
    match e
    case SpotifyIDNotSet => "SPOTIFY_ID not set"
    case SpotifySecretNotSet => "SPOTIFY_SECRET not set"
    case InvalidURL => "Invalid URL"
    case InvalidPlaylistTemplate => "Invalid Playlist Template"
  }

  function OptionsOf(flags: Flags): Options
  {
    Options(flags.showURL, flags.playlistName, flags.clean, flags.dateFormat)
  }

  /** The secrets after the flags are applied: a non-empty flag replaces the stored value. */
  function Override(flags: Flags, stored: Secrets): Secrets
  {
    Secrets(
      if flags.spotifyID != "" then flags.spotifyID else stored.clientID,
      if flags.spotifySecret != "" then flags.spotifySecret else stored.secretKey)
  }

  /** The result of the start-up checks: the secrets as updated, and the options or the first error. */
  datatype Checked = Checked(secrets: Secrets, result: Result<Options, ConfigError>)

  function Validate(flags: Flags, stored: Secrets): Checked
  {
    var options := OptionsOf(flags);
    var secrets := Override(flags, stored);
    Checked(secrets,
      if secrets.clientID == "" then Err(SpotifyIDNotSet)
      else if secrets.secretKey == "" then Err(SpotifySecretNotSet)
      else if options.showURL == "" then Err(InvalidURL)
      else if options.playlistNameTmpl == "" then Err(InvalidPlaylistTemplate)
      else Ok(options))
  }

  /** The checks as a table, in the order they are made: the setting that must be non-empty and its error. */
  function Checks(flags: Flags, stored: Secrets): seq<(string, ConfigError)>
  {
    var secrets := Override(flags, stored);
    [(secrets.clientID, SpotifyIDNotSet), (secrets.secretKey, SpotifySecretNotSet),
     (flags.showURL, InvalidURL), (flags.playlistName, InvalidPlaylistTemplate)]
  }

  /** The error of the first check whose setting is empty, if any. */
  function FirstFailure(checks: seq<(string, ConfigError)>): (r: Option<ConfigError>)
    ensures r.None? <==> forall i :: 0 <= i < |checks| ==> checks[i].0 != ""
    ensures r.Some? ==> exists i :: 0 <= i < |checks| && checks[i].0 == "" && checks[i].1 == r.value &&
                                    forall j :: 0 <= j < i ==> checks[j].0 != ""
  {
    if checks == [] then None
    else if checks[0].0 == "" then Some(checks[0].1)
    else
      var r := FirstFailure(checks[1..]);
      assert forall i :: 1 <= i < |checks| ==> checks[i] == checks[1..][i - 1];
      r
  }

  /** A non-empty flag overrides a stored secret; an empty flag leaves it as it was. */
  lemma FlagsOverrideSecrets(flags: Flags, stored: Secrets)
    ensures var s := Validate(flags, stored).secrets;
      && (flags.spotifyID != "" ==> s.clientID == flags.spotifyID)
      && (flags.spotifyID == "" ==> s.clientID == stored.clientID)
      && (flags.spotifySecret != "" ==> s.secretKey == flags.spotifySecret)
      && (flags.spotifySecret == "" ==> s.secretKey == stored.secretKey)
  {
  }

  /** The reported error is the first failing check of the table; with none failing, the options are returned. */
  lemma FirstFailingCheckDecides(flags: Flags, stored: Secrets)
    ensures var r := Validate(flags, stored).result;
      && (r.Ok? <==> FirstFailure(Checks(flags, stored)).None?)
      && (r.Ok? ==> r.value == OptionsOf(flags))
      && (r.Err? ==> FirstFailure(Checks(flags, stored)) == Some(r.error))
  {
    var c := Checks(flags, stored);
    var c1 := c[1..];
    var c2 := c1[1..];
    var c3 := c2[1..];
    assert c3[1..] == [];
    assert FirstFailure(c3) == if c3[0].0 == "" then Some(c3[0].1) else None;
    assert FirstFailure(c2) == if c2[0].0 == "" then Some(c2[0].1) else FirstFailure(c3);
    assert FirstFailure(c1) == if c1[0].0 == "" then Some(c1[0].1) else FirstFailure(c2);
  }

  /** The run may go on exactly when both credentials, the show URL and the playlist template are set. */
  lemma ValidIffAllSet(flags: Flags, stored: Secrets)
    ensures Validate(flags, stored).result.Ok? <==>
      && (flags.spotifyID != "" || stored.clientID != "")
      && (flags.spotifySecret != "" || stored.secretKey != "")
      && flags.showURL != ""
      && flags.playlistName != ""
  {
  }
}
