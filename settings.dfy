/**
 * The settings window (app/settings_window.py): the settings record and its
 * defaults, the language table and its reverse lookup, the file-naming mode
 * shown in the downloads tab and the one stored when it is applied, and the
 * three apply handlers that write the settings and the application's fields.
 * Reading and writing `settings.json`, message boxes and widgets are not part
 * of the model; the decoded file arrives as a `ConfigFile`.
 */
module Settings {
  import opened Wrappers
  import opened Text
  import opened Numerals
  import opened Shell

  /** A JSON value as `json.load` returns it, as far as the settings window looks at it. */
  datatype Value = IntV(i: int) | BoolV(b: bool) | StrV(s: string) | RealV(r: real) | OtherV

  /** The settings file: absent, not valid JSON, or decoded to an object. */
  datatype ConfigFile = Missing | Undecodable | Decoded(contents: map<string, Value>)

  // ---------------------------------------------------------------------------
  // load_settings
  // ---------------------------------------------------------------------------

  const DefaultSettings: map<string, Value> :=
    map["max_downloads" := IntV(3), "folder_structure" := StrV("default"),
        "language" := StrV("en"), "theme" := StrV("System")]

  /** `load_settings`: the decoded file, or the defaults when it is missing or undecodable. */
  function LoadSettings(f: ConfigFile): (r: map<string, Value>)
    ensures f.Decoded? ==> r == f.contents
    ensures !f.Decoded? ==> r.Keys == {"max_downloads", "folder_structure", "language", "theme"}
    ensures !f.Decoded? ==> r["max_downloads"] == IntV(3) && r["folder_structure"] == StrV("default")
    ensures !f.Decoded? ==> r["language"] == StrV("en") && r["theme"] == StrV("System")
  {
    if f.Decoded? then f.contents else DefaultSettings
  }

  /** `settings.get(key, default)`. */
  function Get(settings: map<string, Value>, key: string, default: Value): Value {
    if key in settings then settings[key] else default
  }

  // ---------------------------------------------------------------------------
  // The file-naming mode
  // ---------------------------------------------------------------------------

  const NamingOptions: seq<string> :=
    ["Use File ID (default)", "Use Sanitized Post Name", "Post Name + Post ID Suffix"]

  /**
   * The option `render_downloads_tab` selects for a stored mode. A Python
   * `bool` is an `int`, so `True` selects option 1; any other value that is
   * neither an int nor a listed string selects option 0.
   */
  function NamingDisplay(mode: Value): (r: string)
    ensures r in NamingOptions
    ensures mode.IntV? && 0 <= mode.i < |NamingOptions| ==> r == NamingOptions[mode.i]
    ensures mode.IntV? && !(0 <= mode.i < |NamingOptions|) ==> r == NamingOptions[0]
    ensures mode.BoolV? ==> r == NamingOptions[if mode.b then 1 else 0]
    ensures mode.StrV? ==> r == if mode.s in NamingOptions then mode.s else NamingOptions[0]
    ensures mode.RealV? || mode.OtherV? ==> r == NamingOptions[0]
  {
    match mode
    case IntV(i) => if 0 <= i < |NamingOptions| then NamingOptions[i] else NamingOptions[0]
    case BoolV(b) => NamingOptions[if b then 1 else 0]
    case StrV(s) => if s in NamingOptions then s else NamingOptions[0]
    case _ => NamingOptions[0]
  }

  /** `mapping.get(file_naming_mode_str, 0)` in `apply_download_settings`. */
  function NamingIndex(option: string): (r: nat)
    ensures r < |NamingOptions|
  {
    if option == NamingOptions[1] then 1
    else if option == NamingOptions[2] then 2
    else 0
  }

  /** The mapping sends each option to its own position, and nothing else to 1 or 2. */
  lemma NamingIndexInverts(option: string)
    ensures option in NamingOptions ==> NamingOptions[NamingIndex(option)] == option
    ensures option !in NamingOptions ==> NamingIndex(option) == 0
    ensures forall i :: 0 <= i < |NamingOptions| ==> NamingIndex(NamingOptions[i]) == i
  {
    assert NamingOptions[0] != NamingOptions[1] && NamingOptions[0] != NamingOptions[2];
  }

  /**
   * Applying the option the tab shows and opening the tab again shows the same
   * option: the stored index selects exactly the displayed string.
   */
  lemma NamingDisplayStable(mode: Value)
    ensures NamingDisplay(IntV(NamingIndex(NamingDisplay(mode)))) == NamingDisplay(mode)
  {
    NamingIndexInverts(NamingDisplay(mode));
  }

  // ---------------------------------------------------------------------------
  // The language table
  // ---------------------------------------------------------------------------

  /** `self.languages`, in its insertion order: display name, then language code. */
  const Languages: seq<(string, string)> :=
    [("Espa\U{00f1}ol", "es"), ("English", "en"), ("\U{65e5}\U{672c}\U{8a9e}", "ja"),
     ("\U{4e2d}\U{6587}", "zh"), ("Fran\U{00e7}ais", "fr"),
     ("\U{0420}\U{0443}\U{0441}\U{0441}\U{043a}\U{0438}\U{0439}", "ru")]

  predicate DistinctCodes(pairs: seq<(string, string)>) {
    forall a, b :: 0 <= a < b < |pairs| ==> pairs[a].1 != pairs[b].1
  }

  predicate DistinctNames(pairs: seq<(string, string)>) {
    forall a, b :: 0 <= a < b < |pairs| ==> pairs[a].0 != pairs[b].0
  }

  /** The name of the first pair whose code equals `code`, else `"English"`. */
  function NameFrom(pairs: seq<(string, string)>, code: Value): (r: string)
    ensures (forall j :: 0 <= j < |pairs| ==> StrV(pairs[j].1) != code) ==> r == "English"
  {
    if pairs == [] then "English"
    else if StrV(pairs[0].1) == code then pairs[0].0
    else NameFrom(pairs[1..], code)
  }

  /** The code stored under `name`, as a dictionary lookup finds it. */
  function CodeFrom(pairs: seq<(string, string)>, name: string): (r: Option<string>)
    ensures r.None? <==> forall j :: 0 <= j < |pairs| ==> pairs[j].0 != name
  {
    if pairs == [] then None
    else if pairs[0].0 == name then Some(pairs[0].1)
    else CodeFrom(pairs[1..], name)
  }

  /** `get_language_name(code)` on the shipped table. */
  function LanguageName(code: Value): string {
    NameFrom(Languages, code)
  }

  /** `self.languages.get(name)`. */
  function LanguageCode(name: string): Option<string> {
    CodeFrom(Languages, name)
  }

  /** With distinct codes, every listed code names its own entry. */
  lemma {:induction false} NameFromCode(pairs: seq<(string, string)>, i: nat)
    requires DistinctCodes(pairs) && i < |pairs|
    ensures NameFrom(pairs, StrV(pairs[i].1)) == pairs[i].0
  {
    if i > 0 {
      assert pairs[0].1 != pairs[i].1;
      assert DistinctCodes(pairs[1..]) by {
        forall a, b | 0 <= a < b < |pairs[1..]| ensures pairs[1..][a].1 != pairs[1..][b].1 {
          assert pairs[1..][a] == pairs[a + 1] && pairs[1..][b] == pairs[b + 1];
        }
      }
      assert pairs[1..][i - 1] == pairs[i];
      NameFromCode(pairs[1..], i - 1);
    }
  }

  /** With distinct names, every listed name finds its own code. */
  lemma {:induction false} CodeFromName(pairs: seq<(string, string)>, i: nat)
    requires DistinctNames(pairs) && i < |pairs|
    ensures CodeFrom(pairs, pairs[i].0) == Some(pairs[i].1)
  {
    if i > 0 {
      assert pairs[0].0 != pairs[i].0;
      assert DistinctNames(pairs[1..]) by {
        forall a, b | 0 <= a < b < |pairs[1..]| ensures pairs[1..][a].0 != pairs[1..][b].0 {
          assert pairs[1..][a] == pairs[a + 1] && pairs[1..][b] == pairs[b + 1];
        }
      }
      assert pairs[1..][i - 1] == pairs[i];
      CodeFromName(pairs[1..], i - 1);
    }
  }

  /** `NameFrom` returns `"English"` or the name of one of the pairs. */
  lemma {:induction false} NameFromIsListed(pairs: seq<(string, string)>, code: Value)
    ensures NameFrom(pairs, code) == "English" || exists j :: 0 <= j < |pairs| && pairs[j].0 == NameFrom(pairs, code)
  {
    if pairs != [] && StrV(pairs[0].1) != code {
      NameFromIsListed(pairs[1..], code);
      if NameFrom(pairs[1..], code) != "English" {
        var j :| 0 <= j < |pairs[1..]| && pairs[1..][j].0 == NameFrom(pairs[1..], code);
        assert pairs[j + 1] == pairs[1..][j];
      }
    }
  }

  lemma LanguagesDistinct()
    ensures DistinctCodes(Languages) && DistinctNames(Languages)
  {
  }

  /**
   * The language combobox and the apply handler agree: a listed name maps to
   * its code and back, a listed code to its name and back, and the name shown
   * for any stored value is one the handler accepts.
   */
  lemma LanguageRoundTrips(code: Value)
    ensures forall i :: 0 <= i < |Languages| ==> LanguageCode(Languages[i].0) == Some(Languages[i].1)
    ensures forall i :: 0 <= i < |Languages| ==> LanguageName(StrV(Languages[i].1)) == Languages[i].0
    ensures LanguageCode(LanguageName(code)).Some?
  {
    LanguagesDistinct();
    forall i | 0 <= i < |Languages|
      ensures LanguageCode(Languages[i].0) == Some(Languages[i].1)
      ensures LanguageName(StrV(Languages[i].1)) == Languages[i].0
    {
      CodeFromName(Languages, i);
      NameFromCode(Languages, i);
    }
    CodeFromName(Languages, 1);
    NameFromIsListed(Languages, code);
  }

  /** A stored code that no entry carries (including a non-string) is shown as English. */
  lemma UnknownCodeIsEnglish(code: Value)
    requires forall i :: 0 <= i < |Languages| ==> StrV(Languages[i].1) != code
    ensures LanguageName(code) == "English"
  {
  }

  // ---------------------------------------------------------------------------
  // Themes
  // ---------------------------------------------------------------------------

  /** The argument `apply_theme` passes to `ctk.set_appearance_mode`. */
  datatype Appearance = LightMode | DarkMode | SystemMode

  function ThemeMode(name: string): Appearance {
    var l := Lower(name);
    if l == "light" then LightMode else if l == "dark" then DarkMode else SystemMode
  }

  /**
   * The theme choice ignores case, and each of the combobox's own entries
   * selects the mode it names.
   */
  lemma ThemeModeIgnoresCase(name: string)
    ensures ThemeMode(Lower(name)) == ThemeMode(name)
    ensures ThemeMode(name) == LightMode <==> Lower(name) == "light"
    ensures ThemeMode(name) == DarkMode <==> Lower(name) == "dark"
  {
    LowerIdempotent(name);
  }

  lemma ThemeEntries()
    ensures ThemeMode("Light") == LightMode && ThemeMode("Dark") == DarkMode && ThemeMode("System") == SystemMode
  {
    assert Lower("Light") == "light";
    assert Lower("Dark") == "dark";
    assert Lower("System") == "system";
  }

  // ---------------------------------------------------------------------------
  // apply_download_settings
  // ---------------------------------------------------------------------------

  /** The values `apply_download_settings` writes once every field has parsed. */
  datatype DownloadFields =
    DownloadFields(maxDownloads: int, folderStructure: string, maxRetries: int, retryInterval: real, namingMode: nat)

  /**
   * The parsing half of `apply_download_settings`: `int()` of both combobox
   * texts and `float()` of the interval (given as its result, `None` for
   * `ValueError`). Any `ValueError` yields `None`.
   */
  function ParseDownloadFields(maxDownloadsText: string, folderStructure: string, maxRetriesText: string,
                               retryInterval: Option<real>, namingText: string): (r: Option<DownloadFields>)
    ensures r.Some? <==> ParseInt(maxDownloadsText).Some? && ParseInt(maxRetriesText).Some? && retryInterval.Some?
    ensures r.Some? ==> (&& Some(r.value.maxDownloads) == ParseInt(maxDownloadsText)
                         && Some(r.value.maxRetries) == ParseInt(maxRetriesText)
                         && Some(r.value.retryInterval) == retryInterval
                         && r.value.folderStructure == folderStructure)
    ensures r.Some? ==> r.value.namingMode < |NamingOptions|
    ensures r.Some? && namingText in NamingOptions ==> NamingOptions[r.value.namingMode] == namingText
  {
    NamingIndexInverts(namingText);
    match (ParseInt(maxDownloadsText), ParseInt(maxRetriesText), retryInterval)
    case (Some(m), Some(n), Some(t)) => Some(DownloadFields(m, folderStructure, n, t, NamingIndex(namingText)))
    case _ => None
  }

  const DownloadKeys: set<string> :=
    {"max_downloads", "folder_structure", "max_retries", "retry_interval", "file_naming_mode"}

  /** The five assignments to `self.settings`. */
  function StoreDownloadFields(settings: map<string, Value>, f: DownloadFields): (r: map<string, Value>)
    ensures r.Keys == settings.Keys + DownloadKeys
    ensures forall k :: k in settings && k !in DownloadKeys ==> r[k] == settings[k]
    ensures r["max_downloads"] == IntV(f.maxDownloads) && r["folder_structure"] == StrV(f.folderStructure)
    ensures r["max_retries"] == IntV(f.maxRetries) && r["retry_interval"] == RealV(f.retryInterval)
    ensures r["file_naming_mode"] == IntV(f.namingMode)
  {
    assert "file_naming_mode"[1] != "folder_structure"[1];
    settings["max_downloads" := IntV(f.maxDownloads)]["folder_structure" := StrV(f.folderStructure)]
      ["max_retries" := IntV(f.maxRetries)]["retry_interval" := RealV(f.retryInterval)]
      ["file_naming_mode" := IntV(f.namingMode)]
  }

  /**
   * Applying the downloads tab, then reopening it and applying what it shows,
   * parses to the same record: the numbers' texts parse back to themselves and
   * the naming option maps back to its index.
   */
  lemma ReapplyDownloadSettings(settings: map<string, Value>, f: DownloadFields)
    requires f.namingMode < |NamingOptions|
    ensures ParseDownloadFields(IntToString(f.maxDownloads), f.folderStructure, IntToString(f.maxRetries),
                                Some(f.retryInterval),
                                NamingDisplay(StoreDownloadFields(settings, f)["file_naming_mode"])) == Some(f)
  {
    var shown := NamingDisplay(StoreDownloadFields(settings, f)["file_naming_mode"]);
    assert shown == NamingOptions[f.namingMode];
    NamingIndexInverts(shown);
    assert NamingIndex(shown) == f.namingMode;
    var downloads := IntToString(f.maxDownloads);
    var retries := IntToString(f.maxRetries);
    ParseIntToString(f.maxDownloads);
    ParseIntToString(f.maxRetries);
    assert ParseInt(downloads) == Some(f.maxDownloads) && ParseInt(retries) == Some(f.maxRetries);
  }

  /** Storing the same record twice stores it once. */
  lemma StoreDownloadFieldsIdempotent(settings: map<string, Value>, f: DownloadFields)
    ensures StoreDownloadFields(StoreDownloadFields(settings, f), f) == StoreDownloadFields(settings, f)
  {
    var s := StoreDownloadFields(settings, f);
    var t := StoreDownloadFields(s, f);
    forall k | k in t
      ensures t[k] == s[k]
    {
      if k !in DownloadKeys {
        assert k in s;
      }
    }
  }

  /** The settings keys are distinct strings (two of them share a length). */
  lemma KeysDistinct()
    ensures "file_naming_mode" != "folder_structure"
    ensures "file_naming_mode" !in DefaultSettings
    ensures |DownloadKeys| == 5
  {
    assert "file_naming_mode"[1] != "folder_structure"[1];
  }

  /** A fresh install shows English, the first naming option, the System theme and 3 downloads. */
  lemma DefaultsAsShown(f: ConfigFile)
    requires !f.Decoded?
    ensures var s := LoadSettings(f);
      && LanguageName(Get(s, "language", StrV("en"))) == "English"
      && NamingDisplay(Get(s, "file_naming_mode", IntV(0))) == NamingOptions[0]
      && ThemeMode(Get(s, "theme", StrV("System")).s) == SystemMode
      && ParseInt(IntToString(Get(s, "max_downloads", IntV(3)).i)) == Some(3)
  {
    KeysDistinct();
    LanguageRoundTrips(StrV("en"));
    assert Languages[1] == ("English", "en");
    ThemeEntries();
    ParseIntToString(3);
  }

  /**
   * `SettingsWindow`: the settings record, the appearance mode it sets, and the
   * application it writes to (the shell passes itself as the `downloader`).
   */
  class SettingsWindow {
    var settings: map<string, Value>
    /** The mode last passed to `ctk.set_appearance_mode`. */
    var appearance: Appearance
    const app: App

    constructor(app: App, file: ConfigFile, appearance: Appearance)
      ensures this.app == app && settings == LoadSettings(file) && this.appearance == appearance
    {
      this.app := app;
      settings := LoadSettings(file);
      this.appearance := appearance;
    }

    /** `get_language_name`: the first listed name whose code equals `code`, else `"English"`. */
    method GetLanguageName(code: Value) returns (name: string)
      ensures name == LanguageName(code)
    {
      var i := 0;
      while i < |Languages|
        invariant 0 <= i <= |Languages|
        invariant NameFrom(Languages[i..], code) == LanguageName(code)
      {
        assert Languages[i..][1..] == Languages[i + 1..];
        if StrV(Languages[i].1) == code {
          return Languages[i].0;
        }
        i := i + 1;
      }
      return "English";
    }

    /**
     * `apply_language_settings`: a listed name stores its code and reloads the
     * application's translations (`all` is the decoded translations file);
     * any other name changes nothing.
     */
    method ApplyLanguageSettings(name: string, all: map<string, map<string, string>>)
      modifies this`settings, app`translations
      ensures LanguageCode(name).Some? ==>
                settings == old(settings)["language" := StrV(LanguageCode(name).value)]
                && app.translations == Translations(all, LanguageCode(name).value)
      ensures LanguageCode(name).None? ==> settings == old(settings) && app.translations == old(app.translations)
    {
      var code := LanguageCode(name);
      if code.Some? {
        settings := settings["language" := StrV(code.value)];
        app.LoadTranslations(all, code.value);
      }
    }

    /** `apply_theme`: the mode follows the lower-cased name, the raw name is stored. */
    method ApplyTheme(name: string)
      modifies this`settings, this`appearance
      ensures appearance == ThemeMode(name)
      ensures settings == old(settings)["theme" := StrV(name)]
    {
      var l := Lower(name);
      if l == "light" {
        appearance := LightMode;
      } else if l == "dark" {
        appearance := DarkMode;
      } else {
        appearance := SystemMode;
      }
      settings := settings["theme" := StrV(name)];
    }

    /** The writes of `apply_download_settings` once every field has parsed, in its order. */
    method StoreFields(f: DownloadFields)
      modifies this`settings, app`maxDownloads, app`maxRetries, app`retryInterval, app`fileNamingMode
      ensures settings == StoreDownloadFields(old(settings), f)
      ensures app.maxDownloads == f.maxDownloads && app.maxRetries == Some(f.maxRetries)
      ensures app.retryInterval == Some(f.retryInterval) && app.fileNamingMode == Some(f.namingMode)
    {
      app.fileNamingMode := Some(f.namingMode);
      settings := settings["max_downloads" := IntV(f.maxDownloads)];
      settings := settings["folder_structure" := StrV(f.folderStructure)];
      settings := settings["max_retries" := IntV(f.maxRetries)];
      settings := settings["retry_interval" := RealV(f.retryInterval)];
      settings := settings["file_naming_mode" := IntV(f.namingMode)];
      app.UpdateMaxDownloads(f.maxDownloads);
      app.maxRetries := Some(f.maxRetries);
      app.retryInterval := Some(f.retryInterval);
      app.fileNamingMode := Some(f.namingMode);
    }

    /**
     * `apply_download_settings`: every field is parsed before anything is
     * written, so a `ValueError` leaves the settings and the application as they
     * were; otherwise the five keys and the application's fields take the
     * parsed values.
     */
    method ApplyDownloadSettings(maxDownloadsText: string, folderStructure: string, maxRetriesText: string,
                                 retryInterval: Option<real>, namingText: string) returns (applied: bool)
      modifies this`settings, app`maxDownloads, app`maxRetries, app`retryInterval, app`fileNamingMode
      ensures applied <==> ParseDownloadFields(maxDownloadsText, folderStructure, maxRetriesText, retryInterval,
                                               namingText).Some?
      ensures !applied ==> settings == old(settings) && app.maxDownloads == old(app.maxDownloads)
                           && app.maxRetries == old(app.maxRetries) && app.retryInterval == old(app.retryInterval)
                           && app.fileNamingMode == old(app.fileNamingMode)
      ensures applied ==>
                var f := ParseDownloadFields(maxDownloadsText, folderStructure, maxRetriesText, retryInterval,
                                             namingText).value;
                && settings == StoreDownloadFields(old(settings), f)
                && app.maxDownloads == f.maxDownloads && app.maxRetries == Some(f.maxRetries)
                && app.retryInterval == Some(f.retryInterval) && app.fileNamingMode == Some(f.namingMode)
    {
      var maxDownloads := ParseInt(maxDownloadsText);
      if maxDownloads.None? {
        return false;
      }
      var maxRetries := ParseInt(maxRetriesText);
      if maxRetries.None? || retryInterval.None? {
        return false;
      }
      var f := DownloadFields(maxDownloads.value, folderStructure, maxRetries.value, retryInterval.value,
                              NamingIndex(namingText));
      StoreFields(f);
      applied := true;
    }
  }
}
