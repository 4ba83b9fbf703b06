/**
 * The settings store (`SettingsContext`): the project directory, the
 * default network and the auto-download flag, loaded from the saved record
 * over the defaults, updated by shallow merge and saved after every change.
 */
module SettingsStore {
  import opened Wrappers
  import Utils

  datatype Settings = Settings(projectDirectory: string, defaultNetwork: string, autoDownloadKeypairs: bool)

  /** `Partial<Settings>`: any of the three fields may be missing. */
  datatype PartialSettings = PartialSettings(
    projectDirectory: Option<string>,
    defaultNetwork: Option<string>,
    autoDownloadKeypairs: Option<bool>)

  /**
   * What the persistent store holds under the settings key: nothing, a text
   * that does not parse, or a parsed record.
   */
  datatype Stored = NoRecord | Unparsable | Parsed(record: PartialSettings)

  const DefaultSettings := Settings("/tmp", "devnet", true)

  /** `{ ...base, ...p }`: each field `p` has replaces the one in `base`. */
  function Merge(base: Settings, p: PartialSettings): Settings {
    Settings(
      p.projectDirectory.GetOr(base.projectDirectory),
      p.defaultNetwork.GetOr(base.defaultNetwork),
      p.autoDownloadKeypairs.GetOr(base.autoDownloadKeypairs))
  }

  /** The record `JSON.stringify(settings)` saves: every field present. */
  function Full(s: Settings): PartialSettings {
    PartialSettings(Some(s.projectDirectory), Some(s.defaultNetwork), Some(s.autoDownloadKeypairs))
  }

  /** The initial settings: the saved record merged over the defaults, or the defaults. */
  function Load(saved: Stored): Settings {
    match saved
    case NoRecord => DefaultSettings
    case Unparsable => DefaultSettings
    case Parsed(p) => Merge(DefaultSettings, p)
  }

  /** A field present in the update takes its value; a field absent keeps the old one. */
  lemma MergeFields(base: Settings, p: PartialSettings)
    ensures p.projectDirectory.Some? ==> Merge(base, p).projectDirectory == p.projectDirectory.value
    ensures p.projectDirectory.None? ==> Merge(base, p).projectDirectory == base.projectDirectory
    ensures p.defaultNetwork.Some? ==> Merge(base, p).defaultNetwork == p.defaultNetwork.value
    ensures p.defaultNetwork.None? ==> Merge(base, p).defaultNetwork == base.defaultNetwork
    ensures p.autoDownloadKeypairs.Some? ==> Merge(base, p).autoDownloadKeypairs == p.autoDownloadKeypairs.value
    ensures p.autoDownloadKeypairs.None? ==> Merge(base, p).autoDownloadKeypairs == base.autoDownloadKeypairs
  {
  }

  /** Merging the same update twice is merging it once; an empty update changes nothing. */
  lemma MergeIdempotent(base: Settings, p: PartialSettings)
    ensures Merge(Merge(base, p), p) == Merge(base, p)
    ensures Merge(base, PartialSettings(None, None, None)) == base
  {
  }

  /** With no saved record, or one that does not parse, the settings are the defaults. */
  lemma LoadDefaults(saved: Stored)
    requires !saved.Parsed?
    ensures Load(saved) == Settings("/tmp", "devnet", true)
  {
  }

  /** Loading what was saved gives back the settings saved. */
  lemma LoadSaved(s: Settings)
    ensures Load(Parsed(Full(s))) == s
  {
  }

  /** `getKeypairPath(name)`: inside the project directory, or `.` when that is empty. */
  function KeypairPath(s: Settings, keypairName: string): string {
    var baseDir := if s.projectDirectory != "" then s.projectDirectory else ".";
    baseDir + "/" + keypairName + "-keypair.json"
  }

  /** The store's path is the engine's `getKeypairPath` given the project directory. */
  lemma KeypairPathAgrees(s: Settings, keypairName: string)
    ensures KeypairPath(s, keypairName) == Utils.GetKeypairPath(keypairName, Some(s.projectDirectory))
  {
  }

  class SettingsProvider {
    var settings: Settings
    var stored: Stored

    /** The settings in memory are what the store would load. */
    predicate Saved()
      reads this
    {
      Load(stored) == settings
    }

    /**
     * The provider loads from the saved record; the effect that runs on
     * every change of the settings then saves them.
     */
    constructor(saved: Stored)
      ensures settings == Load(saved)
      ensures stored == Parsed(Full(settings))
      ensures Saved()
    {
      var loaded := Load(saved);
      settings := loaded;
      stored := Parsed(Full(loaded));
      LoadSaved(loaded);
    }

    /** `updateSettings(p)`: shallow merge, then save the whole merged record. */
    method UpdateSettings(p: PartialSettings)
      modifies this
      ensures settings == Merge(old(settings), p)
      ensures stored == Parsed(Full(settings))
      ensures Saved()
    {
      settings := Merge(settings, p);
      stored := Parsed(Full(settings));
      LoadSaved(settings);
    }

    /** `getKeypairPath(name)` on the current settings. */
    function GetKeypairPath(keypairName: string): (path: string)
      reads this
      ensures settings.projectDirectory != "" ==> path == settings.projectDirectory + "/" + keypairName + "-keypair.json"
      ensures settings.projectDirectory == "" ==> path == "./" + keypairName + "-keypair.json"
    {
      KeypairPath(settings, keypairName)
    }
  }
}
