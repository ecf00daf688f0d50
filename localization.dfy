/**
 * The string table of the user interface (src/Localization/LocalizationManager.cs):
 * a dictionary from keys to translated strings, loaded from `Lang/<code>.json`,
 * with the key itself shown for anything untranslated, and the change
 * notifications the window's bindings listen to.
 *
 * The file system is a parameter: a map from each existing path to what
 * reading and deserialising that file gives.
 */
module Localization {
  import opened Wrappers

  /** What reading and deserialising one language file gives. */
  datatype LanguageFile =
    | Table(entries: map<string, string>)  // a JSON object of strings
    | NullTable                            // the JSON text `null`
    | Unreadable                           // the read or the deserialisation throws

  const InitialLanguage: string := "ja"
  const LanguageProperty: string := "CurrentLanguage"
  const IndexerProperty: string := "Item[]"

  /** `Path.Combine` of two parts on Windows: a separator is added unless the first part already ends in one. */
  function Combine(first: string, second: string): (r: string)
    ensures first == [] ==> r == second
    ensures first != [] ==> |r| > |first| + |second| - 1 && r[..|first|] == first && r[|r| - |second|..] == second
  {
    if first == [] then second
    else if first[|first| - 1] in {'\\', '/', ':'} then first + second
    else first + "\\" + second
  }

  /** The language file of `cultureCode` under directory `dir`. */
  function LangFile(dir: string, cultureCode: string): string
  {
    Combine(Combine(dir, "Lang"), cultureCode + ".json")
  }

  /**
   * The file `LoadLanguage` reads: the one under the application directory,
   * or the one under the current directory when the first does not exist,
   * the two directories differ and the second exists.
   */
  function ChosenPath(baseDir: string, currentDir: string, cultureCode: string, files: map<string, LanguageFile>): (r: string)
    ensures LangFile(baseDir, cultureCode) in files ==> r == LangFile(baseDir, cultureCode)
    ensures r != LangFile(baseDir, cultureCode) <==>
              && LangFile(baseDir, cultureCode) !in files
              && currentDir != baseDir
              && LangFile(currentDir, cultureCode) in files
              && LangFile(currentDir, cultureCode) != LangFile(baseDir, cultureCode)
    ensures r == LangFile(baseDir, cultureCode) || r == LangFile(currentDir, cultureCode)
  {
    var path := LangFile(baseDir, cultureCode);
    if path !in files && currentDir != baseDir && LangFile(currentDir, cultureCode) in files then
      LangFile(currentDir, cultureCode)
    else path
  }

  /** A language file is found under one of the two directories exactly when the chosen path exists. */
  lemma ChosenPathExists(baseDir: string, currentDir: string, cultureCode: string, files: map<string, LanguageFile>)
    ensures ChosenPath(baseDir, currentDir, cultureCode, files) in files <==>
              LangFile(baseDir, cultureCode) in files ||
              (currentDir != baseDir && LangFile(currentDir, cultureCode) in files)
  {
  }

  /** The translations a load installs, if it succeeds: only a readable, non-null table at the chosen path. */
  function LoadedTable(baseDir: string, currentDir: string, cultureCode: string, files: map<string, LanguageFile>): (r: Option<map<string, string>>)
    ensures r.Some? <==>
              ChosenPath(baseDir, currentDir, cultureCode, files) in files &&
              files[ChosenPath(baseDir, currentDir, cultureCode, files)].Table?
    ensures r.Some? ==> r.value == files[ChosenPath(baseDir, currentDir, cultureCode, files)].entries
  {
    var path := ChosenPath(baseDir, currentDir, cultureCode, files);
    if path in files && files[path].Table? then Some(files[path].entries) else None
  }

  /** The string shown for `key`: its translation, or the key itself when there is none. */
  function Translate(translations: map<string, string>, key: string): (r: string)
    ensures r == key || r in translations.Values
    ensures key in translations <==> (key, r) in translations.Items
  {
    if key in translations then translations[key] else key
  }

  /** Before any language is loaded every key is shown as itself. */
  lemma UntranslatedShowsKey(translations: map<string, string>, key: string)
    requires key !in translations
    ensures Translate(translations, key) == key
  {
  }

  /** The notifications a change of language raises: none when the language stays the same. */
  function LanguageNotifications(oldLanguage: string, newLanguage: string): (r: seq<string>)
    ensures r == [] <==> oldLanguage == newLanguage
    ensures r != [] ==> r == [LanguageProperty, IndexerProperty]
  {
    if oldLanguage != newLanguage then [LanguageProperty, IndexerProperty] else []
  }

  /**
   * The notifications of one load: after a successful load the indexer is
   * always announced, so bindings refresh even when the language was already
   * current; a failed load announces nothing.
   */
  lemma LoadAnnouncesIndexer(oldLanguage: string, newLanguage: string)
    ensures var r := LanguageNotifications(oldLanguage, newLanguage) + [IndexerProperty];
            r[|r| - 1] == IndexerProperty && (oldLanguage == newLanguage ==> r == [IndexerProperty])
  {
  }

  /** The localization manager: the table in use, the language code, and the notifications raised so far. */
  class LocalizationManager
  {
    var translations: map<string, string>
    var currentLanguage: string
    var notifications: seq<string>

    constructor()
      ensures translations == map[] && currentLanguage == InitialLanguage && notifications == []
    {
      translations := map[];
      currentLanguage := InitialLanguage;
      notifications := [];
    }

    /** `GetString` and the indexer `this[key]`. */
    function GetString(key: string): string
      reads this
    {
      Translate(translations, key)
    }

    /** The private setter of `CurrentLanguage`. */
    method SetCurrentLanguage(value: string)
      modifies this
      ensures currentLanguage == value && translations == old(translations)
      ensures notifications == old(notifications) + LanguageNotifications(old(currentLanguage), value)
    {
      if currentLanguage != value {
        currentLanguage := value;
        notifications := notifications + [LanguageProperty];
        notifications := notifications + [IndexerProperty];
      }
    }

    /** `LoadLanguage`: a successful load replaces the whole table; anything else changes nothing. */
    method LoadLanguage(cultureCode: string, baseDir: string, currentDir: string, files: map<string, LanguageFile>)
      modifies this
      ensures var loaded := LoadedTable(baseDir, currentDir, cultureCode, files);
              if loaded.Some? then
                && translations == loaded.value
                && currentLanguage == cultureCode
                && notifications == old(notifications) + LanguageNotifications(old(currentLanguage), cultureCode) + [IndexerProperty]
              else
                translations == old(translations) && currentLanguage == old(currentLanguage) && notifications == old(notifications)
    {
      var path := LangFile(baseDir, cultureCode);
      if path !in files {
        if currentDir != baseDir {
          var altPath := LangFile(currentDir, cultureCode);
          if altPath in files {
            path := altPath;
          }
        }
      }
      if path in files {
        match files[path]
        case Table(entries) =>
          translations := entries;
          SetCurrentLanguage(cultureCode);
          notifications := notifications + [IndexerProperty];
        case NullTable =>
        case Unreadable =>
      }
    }
  }
}
