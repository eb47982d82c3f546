/**
 * src/shacnify/i18n/translator.py: message lookup with a one-language cache.
 * The module globals `_CURRENT_LANG` and `_MESSAGES_CACHE` become the two
 * fields of a Translator object; the packaged locale files are a map from
 * language code to message table that the object is built with.
 */
module Translator {
  import opened Json
  import opened Host
  import opened ConfigManager

  type Table = map<string, string>

  /** `get_config().get("language", "en")`, which raises when the file holds a non-object. */
  function ConfiguredLanguage(config: Json): (r: Outcome<Json>)
    ensures r.Raised? <==> !config.JObj?
    ensures config.JObj? && "language" !in config.fields ==> r == Returned(JStr("en"))
    ensures config.JObj? && "language" in config.fields ==> r == Returned(config.fields["language"])
  {
    Get(config, "language", JStr("en"))
  }

  /**
   * What a `t(...)` call does to the configuration file: `get_config()`
   * creates it when missing, and reading "language" from it raises when it
   * holds a non-object.  The cache the call also updates is the business of
   * the Translator class below.
   */
  function LookupConfig(config: ConfigFile): (r: Outcome<ConfigFile>)
    ensures r.Raised? <==> !GetConfig(config).1.JObj?
    ensures r.Raised? ==> config.Present? && EnsureConfigExists(config) == config
    ensures r.Returned? ==> r.value == EnsureConfigExists(config) && GetConfig(r.value).1.JObj?
  {
    var loaded := GetConfig(config);
    if ConfiguredLanguage(loaded.1).Raised? then Raised else Returned(loaded.0)
  }

  /** Once one lookup has returned, every later lookup returns and leaves the file as it is. */
  lemma {:induction false} LaterLookupsChangeNothing(config: ConfigFile)
    requires LookupConfig(config).Returned?
    ensures LookupConfig(LookupConfig(config).value) == LookupConfig(config)
  {
  }

  /**
   * The locale `_load_language_messages` ends up loading for `lang`: its own
   * file when there is one, otherwise "en".  A value that is not a string
   * names no packaged locale file.
   */
  function Resolve(lang: Json, locales: map<string, Table>): (code: string)
    requires "en" in locales
    ensures code in locales
    ensures code == "en" || lang == JStr(code)
    ensures lang.JStr? && lang.s in locales ==> code == lang.s
    ensures !(lang.JStr? && lang.s in locales) ==> code == "en"
  {
    if lang.JStr? && lang.s in locales then lang.s else "en"
  }

  /**
   * A configured language without a locale file is never the cached one
   * after loading, so once anything has been loaded every lookup of it
   * reloads.  A null language is the exception before the first load: it
   * equals the initial `None` cache, so that lookup hits and loads nothing.
   */
  lemma {:induction false} MissingLocaleNeverHits(lang: Json, locales: map<string, Table>)
    requires "en" in locales
    requires lang != JStr("en") && !(lang.JStr? && lang.s in locales)
    ensures JStr(Resolve(lang, locales)) != lang
  {
  }

  class Translator {
    /** The packaged locale files, by language code. */
    const locales: map<string, Table>
    /** `_CURRENT_LANG`; `JNull` stands for Python's `None`. */
    var current: Json
    /** `_MESSAGES_CACHE`. */
    var messages: Table

    ghost predicate Valid()
      reads this
    {
      && "en" in locales
      && (current.JNull? || (current.JStr? && current.s in locales && messages == locales[current.s]))
    }

    /** The state at import time: no language loaded and an empty cache. */
    constructor (locales: map<string, Table>)
      requires "en" in locales
      ensures Valid()
      ensures this.locales == locales && current == JNull && messages == map[]
    {
      this.locales := locales;
      current := JNull;
      messages := map[];
    }

    /**
     * `_load_language_messages`: reload only when the configured language
     * differs from the cached one; a missing locale falls back to "en".
     */
    method LoadLanguageMessages(config: ConfigFile) returns (config': ConfigFile, ok: bool)
      requires Valid()
      modifies this
      ensures Valid()
      ensures config' == EnsureConfigExists(config)
      ensures ok <==> GetConfig(config).1.JObj?
      ensures !ok ==> current == old(current) && messages == old(messages)
      ensures ok ==> var lang := ConfiguredLanguage(GetConfig(config).1).value;
                     if lang == old(current) then current == old(current) && messages == old(messages)
                     else current == JStr(Resolve(lang, locales)) && messages == locales[Resolve(lang, locales)]
    {
      var loaded := GetConfig(config);
      config' := loaded.0;
      var lang := ConfiguredLanguage(loaded.1);
      if lang.Raised? {
        ok := false;
        return;
      }
      ok := true;
      if current == lang.value {
        return;
      }
      current := lang.value;
      var code: string;
      if current.JStr? && current.s in locales {
        code := current.s;
      } else {
        current := JStr("en");
        code := "en";
      }
      messages := locales[code];
    }

    /** `t(key)`: the cached message for `key` after loading, or `key` itself. */
    method T(key: string, config: ConfigFile) returns (text: Outcome<string>, config': ConfigFile)
      requires Valid()
      modifies this
      ensures Valid()
      ensures config' == EnsureConfigExists(config)
      ensures text.Raised? <==> LookupConfig(config).Raised?
      ensures text.Returned? ==> text.value == (if key in messages then messages[key] else key)
      ensures text.Raised? ==> current == old(current) && messages == old(messages)
      ensures text.Returned? ==> var lang := ConfiguredLanguage(GetConfig(config).1).value;
                && (lang == old(current) ==> current == old(current) && messages == old(messages))
                && (lang != old(current) ==> current == JStr(Resolve(lang, locales)))
    {
      var ok;
      config', ok := LoadLanguageMessages(config);
      if !ok {
        text := Raised;
        return;
      }
      text := Returned(if key in messages then messages[key] else key);
    }

    /**
     * `set_language`: store the code under "language" and forget the cached
     * language, so that the next lookup reloads.  If storing raises, the
     * cache is left as it was.
     */
    method SetLanguage(code: string, config: ConfigFile) returns (config': ConfigFile, ok: bool)
      requires Valid()
      modifies this
      ensures Valid()
      ensures ok <==> GetConfig(config).1.JObj?
      ensures ok ==> current == JNull && config'.Present? && config'.body.Doc? && config'.body.value.JObj?
                     && "language" in config'.body.value.fields
                     && config'.body.value.fields["language"] == SplitValue(JStr(code))
      ensures ok ==> config'.body.value.fields.Keys == GetConfig(config).1.fields.Keys + {"language"}
      ensures ok ==> forall k :: k in GetConfig(config).1.fields && k != "language" ==>
                       k in config'.body.value.fields && config'.body.value.fields[k] == GetConfig(config).1.fields[k]
      ensures !ok ==> current == old(current) && config' == EnsureConfigExists(config)
      ensures messages == old(messages)
    {
      config', ok := SetConfigValue(config, "language", JStr(code));
      if ok {
        current := JNull;
      }
    }
  }

  /** After `set_language`, a lookup always reloads: the stored language is never `None`. */
  lemma {:induction false} SetLanguageForcesReload(code: string, config': ConfigFile)
    requires config'.Present? && config'.body.Doc? && config'.body.value.JObj?
    requires "language" in config'.body.value.fields
    requires config'.body.value.fields["language"] == SplitValue(JStr(code))
    ensures ConfiguredLanguage(GetConfig(config').1) != Returned(JNull)
  {
  }
}
