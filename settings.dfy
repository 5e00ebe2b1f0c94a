/**
 * The application's settings: defaults overlaid with what the settings file holds, the
 * two API keys kept in the system keychain rather than in the file, and the rules that
 * decide the output and inbox directories and the provider to use.
 */
module Settings {
  import opened Base
  import opened Text

  // ---------------------------------------------------------------- keys and defaults

  const AnthropicKeyName: string := "anthropic_api_key"
  const OpenaiKeyName: string := "openai_api_key"

  /** `SECURE_KEYS`: the settings the keychain holds instead of the file. */
  predicate IsSecure(key: string)
  {
    key == AnthropicKeyName || key == OpenaiKeyName
  }

  /** The default output directory under the user's home directory. */
  function DefaultOutputDir(home: string): string
  {
    home + "/Documents/jd_documents"
  }

  /** `DEFAULT_SETTINGS`, for the given home directory. */
  function Defaults(home: string): Dict<Json>
  {
    [ ("output_dir", JStr(DefaultOutputDir(home))),
      ("inbox_dir", JStr("")),
      ("ai_provider", JStr("auto")),
      (AnthropicKeyName, JStr("")),
      ("anthropic_model", JStr("claude-sonnet-4-20250514")),
      (OpenaiKeyName, JStr("")),
      ("openai_model", JStr("gpt-4o")),
      ("ollama_url", JStr("http://localhost:11434")),
      ("ollama_model", JStr("llama3.2")),
      ("theme", JStr("system")),
      ("show_advanced", JBool(false)),
      ("setup_complete", JBool(false)) ]
  }

  /** The defaults form a dictionary: no setting is named twice. */
  lemma DefaultsUnique(home: string)
    ensures UniqueKeys(Defaults(home))
  {
    var d := Defaults(home);
    forall i, j | 0 <= i < j < |d| ensures d[i].0 != d[j].0 {
      assert |d[i].0| != |d[j].0| || d[i].0[0] != d[j].0[0] || d[i].0[1] != d[j].0[1];
    }
  }

  /** The settings `save` writes: all but the secure ones, in order. */
  function Public(values: Dict<Json>): (r: Dict<Json>)
    ensures forall i :: 0 <= i < |r| ==> !IsSecure(r[i].0)
    decreases |values|
  {
    if |values| == 0 then []
    else
      var last := values[|values| - 1];
      Public(values[..|values| - 1]) + (if IsSecure(last.0) then [] else [last])
  }

  /** What `save` writes keeps every other setting as it is in memory. */
  lemma {:induction false} PublicGet(values: Dict<Json>, k: string)
    ensures Get(Public(values), k) == if IsSecure(k) then None else Get(values, k)
    decreases |values|
  {
    if |values| > 0 {
      var init, last := values[..|values| - 1], values[|values| - 1];
      LastSplit(values);
      PublicGet(init, k);
      GetAppend(init, last.0, last.1, k);
      if !IsSecure(last.0) {
        GetAppend(Public(init), last.0, last.1, k);
      } else {
        assert Public(values) == Public(init);
      }
      if IsSecure(k) {
        assert !HasKey(Public(values), k);
      }
    }
  }

  // ---------------------------------------------------------------- the keychain

  /**
   * The system keychain for this application's service: whether a working keyring is
   * installed, and the passwords it holds.
   */
  class Keychain {
    const available: bool
    var secrets: map<string, string>

    constructor (available: bool, secrets: map<string, string>)
      ensures this.available == available && this.secrets == secrets
    {
      this.available := available;
      this.secrets := secrets;
    }

    /** `get_secure_value`: the stored password, when there is a keyring and a non-empty one. */
    function Lookup(key: string): (r: Option<string>)
      reads this
      ensures r.Some? <==> available && key in secrets && secrets[key] != ""
      ensures r.Some? ==> r.value == secrets[key]
    {
      if available && key in secrets && secrets[key] != "" then Some(secrets[key]) else None
    }

    /**
     * `set_secure_value`: without a keyring nothing is stored and False is returned; a
     * non-empty value is stored and an empty one deletes the password (missing or not).
     * A value that is not a string is refused.
     */
    method Store(key: string, value: Json) returns (ok: bool)
      modifies this
      ensures (ok, secrets) == Stored(old(secrets), available, key, value)
    {
      if !available {
        return false;
      }
      if Truthy(value) {
        if !value.JStr? {
          return false;
        }
        secrets := secrets[key := value.s];
      } else {
        secrets := secrets - {key};
      }
      ok := true;
    }

    /** `delete_secure_value`: succeeds only with a keyring that holds the password. */
    method Delete(key: string) returns (ok: bool)
      modifies this
      ensures ok <==> available && key in old(secrets)
      ensures secrets == old(secrets) - {key}
    {
      ok := available && key in secrets;
      secrets := secrets - {key};
    }
  }

  /** The outcome of storing a value: whether it was accepted, and the passwords afterwards. */
  function Stored(secrets: map<string, string>, available: bool, key: string, value: Json): (r: (bool, map<string, string>))
    ensures !r.0 ==> r.1 == secrets
    ensures r.0 <==> available && (!Truthy(value) || value.JStr?)
    ensures r.0 && Truthy(value) ==> r.1 == secrets[key := value.s]
    ensures r.0 && !Truthy(value) ==> key !in r.1 && forall k :: k in r.1 <==> k in secrets && k != key
  {
    if !available then (false, secrets)
    else if Truthy(value) then (if value.JStr? then (true, secrets[key := value.s]) else (false, secrets))
    else (true, secrets - {key})
  }

  // ---------------------------------------------------------------- the settings

  /** The settings file: missing, unreadable, or holding a JSON object. */
  datatype SettingsFile = NoFile | Unreadable | Saved(values: Dict<Json>)

  /** `self._settings.update(saved)` when the file could be read. */
  function Loaded(defaults: Dict<Json>, file: SettingsFile): (r: Dict<Json>)
    requires file.Saved? ==> UniqueKeys(file.values)
    ensures !file.Saved? ==> r == defaults
  {
    if file.Saved? then Update(defaults, file.values) else defaults
  }

  /** Every default setting exists after loading, with the file's value where it has one. */
  lemma LoadedKeepsDefaults(home: string, file: SettingsFile, k: string)
    requires file.Saved? ==> UniqueKeys(file.values)
    requires HasKey(Defaults(home), k)
    ensures HasKey(Loaded(Defaults(home), file), k)
    ensures file.Saved? && HasKey(file.values, k) ==> Get(Loaded(Defaults(home), file), k) == Get(file.values, k)
    ensures !(file.Saved? && HasKey(file.values, k)) ==> Get(Loaded(Defaults(home), file), k) == Get(Defaults(home), k)
  {
  }

  /** The settings after `update`: secure keys are blanked in memory, other keys take the new value. */
  function UpdatedValues(values: Dict<Json>, updates: Dict<Json>): Dict<Json>
    decreases |updates|
  {
    if |updates| == 0 then values
    else
      var last := updates[|updates| - 1];
      Put(UpdatedValues(values, updates[..|updates| - 1]), last.0, if IsSecure(last.0) then JStr("") else last.1)
  }

  /** The keychain after `update`: every secure key stored in turn. */
  function UpdatedSecrets(secrets: map<string, string>, available: bool, updates: Dict<Json>): map<string, string>
    decreases |updates|
  {
    if |updates| == 0 then secrets
    else
      var last := updates[|updates| - 1];
      var before := UpdatedSecrets(secrets, available, updates[..|updates| - 1]);
      if IsSecure(last.0) then Stored(before, available, last.0, last.1).1 else before
  }
  /** The values and the keychain after one more update. */
  lemma UpdatedNext(values: Dict<Json>, secrets: map<string, string>, available: bool, updates: Dict<Json>, i: nat)
    requires i < |updates|
    ensures var (key, value) := updates[i];
      UpdatedValues(values, updates[..i + 1]) == Put(UpdatedValues(values, updates[..i]), key, if IsSecure(key) then JStr("") else value)
    ensures var (key, value) := updates[i];
      var before := UpdatedSecrets(secrets, available, updates[..i]);
      UpdatedSecrets(secrets, available, updates[..i + 1]) == if IsSecure(key) then Stored(before, available, key, value).1 else before
  {
    assert updates[..i + 1][..i] == updates[..i];
  }


  /**
   * After `update` a secure key it names is blank in memory, another key it names has its
   * new value, and a key it does not name is as it was.
   */
  lemma {:induction false} UpdatedValuesGet(values: Dict<Json>, updates: Dict<Json>, k: string)
    requires UniqueKeys(updates)
    ensures Get(UpdatedValues(values, updates), k) ==
      if !HasKey(updates, k) then Get(values, k)
      else if IsSecure(k) then Some(JStr(""))
      else Get(updates, k)
    decreases |updates|
  {
    if |updates| > 0 {
      var init, last := updates[..|updates| - 1], updates[|updates| - 1];
      LastSplit(updates);
      assert UniqueKeys(init);
      UpdatedValuesGet(values, init, k);
      GetAppend(init, last.0, last.1, k);
      if last.0 == k {
        assert !HasKey(init, k) by {
          forall j | 0 <= j < |init| ensures init[j].0 != k { assert init[j] == updates[j]; }
        }
      }
    }
  }

  /**
   * `Settings`: the settings in memory, the settings file, and the keychain; `env` is the
   * process environment and `home` the user's home directory.
   */
  class Settings {
    var values: Dict<Json>
    var stored: SettingsFile
    const writable: bool
    const keychain: Keychain
    const env: map<string, string>
    const home: string

    /** The settings in memory form a dictionary. */
    ghost predicate Valid()
      reads this
    {
      UniqueKeys(values)
    }

    /**
     * `Settings()`: the defaults, overlaid with the file (`_load`), after which any API
     * key found in it is moved to the keychain (`_migrate_keys_to_keychain`).
     */
    constructor (home: string, env: map<string, string>, file: SettingsFile, writable: bool, keychain: Keychain)
      requires file.Saved? ==> UniqueKeys(file.values)
      modifies keychain
      ensures Valid()
      ensures this.home == home && this.env == env && this.writable == writable && this.keychain == keychain
      ensures var loaded := Loaded(Defaults(home), file);
        var (a, afterA) := MigrateStep(loaded, old(keychain.secrets), keychain.available, AnthropicKeyName);
        var (o, afterO) := MigrateStep(afterA.0, afterA.1, keychain.available, OpenaiKeyName);
        && values == afterO.0 && keychain.secrets == afterO.1
        && stored == (if (a || o) && writable then Saved(Public(values)) else file)
    {
      this.home := home;
      this.env := env;
      this.writable := writable;
      this.keychain := keychain;
      this.stored := file;
      DefaultsUnique(home);
      var start := Defaults(home);
      if file.Saved? {
        UpdateKeepsUnique(start, file.values);
        start := Update(start, file.values);
      }
      this.values := start;
      new;
      MigrateKeysToKeychain();
    }

    /** `save`: the settings without the secure keys are written, when the file can be written. */
    method Save()
      modifies this
      ensures values == old(values)
      ensures stored == if writable then Saved(Public(values)) else old(stored)
    {
      if writable {
        stored := Saved(Public(values));
      }
    }

    /** One key of `_migrate_keys_to_keychain`. */
    method MigrateKey(key: string) returns (migrated: bool)
      requires Valid()
      modifies this, keychain
      ensures Valid() && stored == old(stored)
      ensures (migrated, (values, keychain.secrets)) ==
        MigrateStep(old(values), old(keychain.secrets), keychain.available, key)
    {
      var jsonValue: Option<Json> := Get(values, key);
      migrated := false;
      if jsonValue.Some? && Truthy(jsonValue.value) {
        var ok := keychain.Store(key, jsonValue.value);
        if ok {
          PutKeepsUnique(values, key, JStr(""));
          values := Put(values, key, JStr(""));
          migrated := true;
        }
      }
    }

    /** `_migrate_keys_to_keychain`: both keys in turn, then a save if either moved. */
    method MigrateKeysToKeychain()
      requires Valid()
      modifies this, keychain
      ensures Valid()
      ensures var (a, afterA) := MigrateStep(old(values), old(keychain.secrets), keychain.available, AnthropicKeyName);
        var (o, afterO) := MigrateStep(afterA.0, afterA.1, keychain.available, OpenaiKeyName);
        && values == afterO.0 && keychain.secrets == afterO.1
        && stored == (if (a || o) && writable then Saved(Public(values)) else old(stored))
    {
      var a := MigrateKey(AnthropicKeyName);
      var o := MigrateKey(OpenaiKeyName);
      if a || o {
        Save();
      }
    }

    /** `get`: a secure key from the keychain if it holds one, else from memory; `default` when absent. */
    function GetSetting(key: string, default: Json): (r: Json)
      reads this, keychain
      ensures IsSecure(key) && keychain.Lookup(key).Some? ==> r == JStr(keychain.Lookup(key).value)
      ensures !(IsSecure(key) && keychain.Lookup(key).Some?) ==>
        r == (match Get(values, key) case Some(v) => v case None => default)
    {
      if IsSecure(key) && keychain.Lookup(key).Some? then JStr(keychain.Lookup(key).value)
      else match Get(values, key) case Some(v) => v case None => default
    }

    /**
     * `set`: a secure key goes to the keychain, and is blanked in memory when the keychain
     * took it (kept in memory otherwise); any other key is set in memory. Either way the
     * settings are saved.
     */
    method Set(key: string, value: Json)
      requires Valid()
      modifies this, keychain
      ensures Valid()
      ensures IsSecure(key) ==>
        var (ok, secrets) := Stored(old(keychain.secrets), keychain.available, key, value);
        keychain.secrets == secrets && values == Put(old(values), key, if ok then JStr("") else value)
      ensures !IsSecure(key) ==> keychain.secrets == old(keychain.secrets) && values == Put(old(values), key, value)
      ensures stored == if writable then Saved(Public(values)) else old(stored)
    {
      if IsSecure(key) {
        var ok := keychain.Store(key, value);
        if ok {
          PutKeepsUnique(values, key, JStr(""));
          values := Put(values, key, JStr(""));
        } else {
          PutKeepsUnique(values, key, value);
          values := Put(values, key, value);
        }
      } else {
        PutKeepsUnique(values, key, value);
        values := Put(values, key, value);
      }
      Save();
    }

    /** `update`: each entry in turn, secure keys to the keychain (blanked in memory), then one save. */
    method UpdateSettings(updates: Dict<Json>)
      requires Valid()
      modifies this, keychain
      ensures Valid()
      ensures values == UpdatedValues(old(values), updates)
      ensures keychain.secrets == UpdatedSecrets(old(keychain.secrets), keychain.available, updates)
      ensures stored == if writable then Saved(Public(values)) else old(stored)
    {
      ApplyUpdates(updates);
      Save();
    }

    /** The loop of `update`: each entry in turn, secure keys to the keychain and blanked in memory. */
    method ApplyUpdates(updates: Dict<Json>)
      requires Valid()
      modifies this, keychain
      ensures Valid() && stored == old(stored)
      ensures values == UpdatedValues(old(values), updates)
      ensures keychain.secrets == UpdatedSecrets(old(keychain.secrets), keychain.available, updates)
    {
      var i := 0;
      while i < |updates|
        invariant i <= |updates| && Valid()
        invariant values == UpdatedValues(old(values), updates[..i])
        invariant keychain.secrets == UpdatedSecrets(old(keychain.secrets), keychain.available, updates[..i])
        invariant stored == old(stored)
      {
        UpdatedNext(old(values), old(keychain.secrets), keychain.available, updates, i);
        var (key, value) := updates[i];
        if IsSecure(key) {
          var _ := keychain.Store(key, value);
          PutKeepsUnique(values, key, JStr(""));
          values := Put(values, key, JStr(""));
        } else {
          PutKeepsUnique(values, key, value);
          values := Put(values, key, value);
        }
        i := i + 1;
      }
      assert updates[..i] == updates;
    }

    /** `reset`: both keys deleted from the keychain, the defaults restored and saved. */
    method Reset()
      modifies this, keychain
      ensures Valid()
      ensures values == Defaults(home)
      ensures keychain.secrets == old(keychain.secrets) - {AnthropicKeyName, OpenaiKeyName}
      ensures stored == if writable then Saved(Public(values)) else old(stored)
    {
      var _ := keychain.Delete(AnthropicKeyName);
      var _ := keychain.Delete(OpenaiKeyName);
      DefaultsUnique(home);
      values := Defaults(home);
      Save();
    }

    /** `output_dir`: the saved setting, else OUTPUT_DIR, else the default, first non-empty wins. */
    function OutputDir(): (r: string)
      reads this
      ensures StrOrEmpty(values, "output_dir") != "" ==> r == StrOrEmpty(values, "output_dir")
      ensures StrOrEmpty(values, "output_dir") == "" && EnvValue(env, "OUTPUT_DIR") != "" ==> r == env["OUTPUT_DIR"]
      ensures StrOrEmpty(values, "output_dir") == "" && EnvValue(env, "OUTPUT_DIR") == "" ==> r == DefaultOutputDir(home)
    {
      var saved := StrOrEmpty(values, "output_dir");
      if saved != "" then saved
      else if EnvValue(env, "OUTPUT_DIR") != "" then EnvValue(env, "OUTPUT_DIR")
      else DefaultOutputDir(home)
    }

    /** `inbox_dir`: the saved setting, else INBOX_DIR, else the Inbox folder of the output directory. */
    function InboxDir(): (r: string)
      reads this
      ensures StrOrEmpty(values, "inbox_dir") != "" ==> r == StrOrEmpty(values, "inbox_dir")
      ensures StrOrEmpty(values, "inbox_dir") == "" && EnvValue(env, "INBOX_DIR") != "" ==> r == env["INBOX_DIR"]
      ensures StrOrEmpty(values, "inbox_dir") == "" && EnvValue(env, "INBOX_DIR") == "" ==>
        r == OutputDir() + "/00-09 System/01 Inbox"
    {
      var saved := StrOrEmpty(values, "inbox_dir");
      if saved != "" then saved
      else if EnvValue(env, "INBOX_DIR") != "" then EnvValue(env, "INBOX_DIR")
      else OutputDir() + "/00-09 System/01 Inbox"
    }

    /** `ai_provider`: the setting, "auto" when it is absent. */
    function AiProvider(): string
      reads this
    {
      StrOr(values, "ai_provider", "auto")
    }

    /**
     * `get_effective_provider`: a setting other than "auto" as it is; under "auto" the
     * first of: a saved Anthropic key, a saved OpenAI key, ANTHROPIC_API_KEY, OPENAI_API_KEY,
     * `claude` on the PATH, Ollama answering at its URL; "keywords" when none holds.
     * `claudeOnPath` and `ollamaAnswers` stand for the two probes.
     */
    function EffectiveProvider(claudeOnPath: bool, ollamaAnswers: string -> bool): (r: string)
      reads this
      ensures AiProvider() != "auto" ==> r == AiProvider()
      ensures AiProvider() == "auto" ==> r in ["anthropic", "openai", "claude-code", "ollama", "keywords"]
      ensures AiProvider() == "auto" ==> (r == "keywords" <==>
        && !SavedKey(values, AnthropicKeyName) && !SavedKey(values, OpenaiKeyName)
        && EnvValue(env, "ANTHROPIC_API_KEY") == "" && EnvValue(env, "OPENAI_API_KEY") == ""
        && !claudeOnPath && !ollamaAnswers(StrOr(values, "ollama_url", "http://localhost:11434") + "/api/tags"))
    {
      var provider := AiProvider();
      if provider != "auto" then provider
      else if SavedKey(values, AnthropicKeyName) then "anthropic"
      else if SavedKey(values, OpenaiKeyName) then "openai"
      else if EnvValue(env, "ANTHROPIC_API_KEY") != "" then "anthropic"
      else if EnvValue(env, "OPENAI_API_KEY") != "" then "openai"
      else if claudeOnPath then "claude-code"
      else if ollamaAnswers(StrOr(values, "ollama_url", "http://localhost:11434") + "/api/tags") then "ollama"
      else "keywords"
    }

    /** The sources "auto" tries, in `get_effective_provider`'s order, each with the provider it selects. */
    function AutoSources(claudeOnPath: bool, ollamaAnswers: string -> bool): seq<(bool, string)>
      reads this
    {
      [(SavedKey(values, AnthropicKeyName), "anthropic"),
       (SavedKey(values, OpenaiKeyName), "openai"),
       (EnvValue(env, "ANTHROPIC_API_KEY") != "", "anthropic"),
       (EnvValue(env, "OPENAI_API_KEY") != "", "openai"),
       (claudeOnPath, "claude-code"),
       (ollamaAnswers(StrOr(values, "ollama_url", "http://localhost:11434") + "/api/tags"), "ollama")]
    }

    /** `bool(self.get(key))`: a credential found where `get` looks, the keychain first. */
    predicate HasCredential(key: string)
      reads this, keychain
    {
      Truthy(GetSetting(key, JNull))
    }

    /**
     * The provider choice with the saved keys read through `get`, so that a key the
     * keychain holds counts as saved.
     */
    function IntendedEffectiveProvider(claudeOnPath: bool, ollamaAnswers: string -> bool): (r: string)
      reads this, keychain
      ensures AiProvider() != "auto" ==> r == AiProvider()
      ensures AiProvider() == "auto" && keychain.Lookup(AnthropicKeyName).Some? ==> r == "anthropic"
      ensures AiProvider() == "auto" && !HasCredential(AnthropicKeyName) && keychain.Lookup(OpenaiKeyName).Some? ==>
        r == "openai"
      ensures AiProvider() == "auto" ==> (r == "keywords" <==>
        && !HasCredential(AnthropicKeyName) && !HasCredential(OpenaiKeyName)
        && EnvValue(env, "ANTHROPIC_API_KEY") == "" && EnvValue(env, "OPENAI_API_KEY") == ""
        && !claudeOnPath && !ollamaAnswers(StrOr(values, "ollama_url", "http://localhost:11434") + "/api/tags"))
    {
      var provider := AiProvider();
      if provider != "auto" then provider
      else if HasCredential(AnthropicKeyName) then "anthropic"
      else if HasCredential(OpenaiKeyName) then "openai"
      else if EnvValue(env, "ANTHROPIC_API_KEY") != "" then "anthropic"
      else if EnvValue(env, "OPENAI_API_KEY") != "" then "openai"
      else if claudeOnPath then "claude-code"
      else if ollamaAnswers(StrOr(values, "ollama_url", "http://localhost:11434") + "/api/tags") then "ollama"
      else "keywords"
    }
  }

  /**
   * `get_effective_provider` as written misses a key the keychain holds: once `set` or the
   * migration has moved the Anthropic key there, its in-memory copy is blank, and with no
   * other source "auto" falls through to "keywords" although `get` returns the key.
   */
  lemma KeychainKeyIgnored(s: Settings, claudeOnPath: bool, ollamaAnswers: string -> bool)
    requires s.AiProvider() == "auto"
    requires Get(s.values, AnthropicKeyName) == Some(JStr("")) && Get(s.values, OpenaiKeyName) == Some(JStr(""))
    requires s.keychain.Lookup(AnthropicKeyName).Some?
    requires EnvValue(s.env, "ANTHROPIC_API_KEY") == "" && EnvValue(s.env, "OPENAI_API_KEY") == ""
    requires !claudeOnPath && !ollamaAnswers(StrOr(s.values, "ollama_url", "http://localhost:11434") + "/api/tags")
    ensures s.HasCredential(AnthropicKeyName)
    ensures s.EffectiveProvider(claudeOnPath, ollamaAnswers) == "keywords"
    ensures s.IntendedEffectiveProvider(claudeOnPath, ollamaAnswers) == "anthropic"
  {
  }

  /** A key kept in memory (the keychain refused it) is seen by both readings alike. */
  lemma MemoryKeySeenAlike(s: Settings, claudeOnPath: bool, ollamaAnswers: string -> bool)
    requires !s.keychain.available
    ensures s.IntendedEffectiveProvider(claudeOnPath, ollamaAnswers) == s.EffectiveProvider(claudeOnPath, ollamaAnswers)
  {
  }

  /** One step of the migration: a truthy key the keychain accepts is blanked in memory. */
  function MigrateStep(values: Dict<Json>, secrets: map<string, string>, available: bool, key: string)
    : (r: (bool, (Dict<Json>, map<string, string>)))
    ensures r.0 <==> Get(values, key).Some? && Truthy(Get(values, key).value)
                     && Stored(secrets, available, key, Get(values, key).value).0
    ensures r.0 ==> r.1 == (Put(values, key, JStr("")), Stored(secrets, available, key, Get(values, key).value).1)
    ensures !r.0 ==> r.1 == (values, secrets)
  {
    var g: Option<Json> := Get(values, key);
    if g.Some? && Truthy(g.value) then
      var (ok, after) := Stored(secrets, available, key, g.value);
      if ok then (true, (Put(values, key, JStr("")), after)) else (false, (values, secrets))
    else (false, (values, secrets))
  }

  /** `os.environ.get(name)`, with "" for a variable that is not set. */
  function EnvValue(env: map<string, string>, name: string): (r: string)
    ensures name in env ==> r == env[name]
    ensures name !in env ==> r == ""
  {
    if name in env then env[name] else ""
  }

  /** `self._settings.get(key)` is truthy. */
  predicate SavedKey(values: Dict<Json>, key: string)
  {
    var g: Option<Json> := Get(values, key);
    g.Some? && Truthy(g.value)
  }

  /** The provider of the first source that applies, `otherwise` when none does. */
  function FirstApplying(sources: seq<(bool, string)>, otherwise: string): (r: string)
    ensures (forall j :: 0 <= j < |sources| ==> !sources[j].0) ==> r == otherwise
    ensures forall k :: 0 <= k < |sources| && sources[k].0 && (forall j :: 0 <= j < k ==> !sources[j].0) ==>
      r == sources[k].1
  {
    if sources == [] then otherwise
    else if sources[0].0 then sources[0].1
    else
      var rest := FirstApplying(sources[1..], otherwise);
      assert forall j :: 0 <= j < |sources| - 1 ==> sources[1..][j] == sources[j + 1];
      rest
  }

  /** Six sources tried in order, as a chain of conditionals. */
  lemma FirstOfSix(a: bool, b: bool, c: bool, d: bool, e: bool, f: bool,
                   pa: string, pb: string, pc: string, pd: string, pe: string, pf: string, otherwise: string)
    ensures FirstApplying([(a, pa), (b, pb), (c, pc), (d, pd), (e, pe), (f, pf)], otherwise)
         == if a then pa else if b then pb else if c then pc else if d then pd else if e then pe else if f then pf else otherwise
  {
    var sources := [(a, pa), (b, pb), (c, pc), (d, pd), (e, pe), (f, pf)];
    var r := FirstApplying(sources, otherwise);
    if a {
      assert r == sources[0].1;
    } else if b {
      assert r == sources[1].1;
    } else if c {
      assert r == sources[2].1;
    } else if d {
      assert r == sources[3].1;
    } else if e {
      assert r == sources[4].1;
    } else if f {
      assert r == sources[5].1;
    } else {
      assert forall j :: 0 <= j < |sources| ==> !sources[j].0;
    }
  }

  /** Under "auto", `get_effective_provider` selects the provider of the first of its sources that applies. */
  lemma ProviderTryOrder(s: Settings, claudeOnPath: bool, ollamaAnswers: string -> bool)
    requires s.AiProvider() == "auto"
    ensures s.EffectiveProvider(claudeOnPath, ollamaAnswers) == FirstApplying(s.AutoSources(claudeOnPath, ollamaAnswers), "keywords")
  {
    var values, env := s.values, s.env;
    FirstOfSix(SavedKey(values, AnthropicKeyName), SavedKey(values, OpenaiKeyName),
               EnvValue(env, "ANTHROPIC_API_KEY") != "", EnvValue(env, "OPENAI_API_KEY") != "", claudeOnPath,
               ollamaAnswers(StrOr(values, "ollama_url", "http://localhost:11434") + "/api/tags"),
               "anthropic", "openai", "anthropic", "openai", "claude-code", "ollama", "keywords");
  }

  /**
   * The rungs of the "auto" order one by one: a saved Anthropic key, a saved OpenAI key,
   * ANTHROPIC_API_KEY, OPENAI_API_KEY, `claude` on the PATH, an answering Ollama; each
   * selects its provider when every earlier one fails.
   */
  lemma ProviderRungs(s: Settings, claudeOnPath: bool, ollamaAnswers: string -> bool)
    requires s.AiProvider() == "auto"
    ensures SavedKey(s.values, AnthropicKeyName) ==> s.EffectiveProvider(claudeOnPath, ollamaAnswers) == "anthropic"
    ensures !SavedKey(s.values, AnthropicKeyName) && SavedKey(s.values, OpenaiKeyName) ==> s.EffectiveProvider(claudeOnPath, ollamaAnswers) == "openai"
    ensures (&& !SavedKey(s.values, AnthropicKeyName)
             && !SavedKey(s.values, OpenaiKeyName)
             && EnvValue(s.env, "ANTHROPIC_API_KEY") != "") ==>
      s.EffectiveProvider(claudeOnPath, ollamaAnswers) == "anthropic"
    ensures (&& !SavedKey(s.values, AnthropicKeyName)
             && !SavedKey(s.values, OpenaiKeyName)
             && EnvValue(s.env, "ANTHROPIC_API_KEY") == ""
             && EnvValue(s.env, "OPENAI_API_KEY") != "") ==>
      s.EffectiveProvider(claudeOnPath, ollamaAnswers) == "openai"
    ensures (&& !SavedKey(s.values, AnthropicKeyName)
             && !SavedKey(s.values, OpenaiKeyName)
             && EnvValue(s.env, "ANTHROPIC_API_KEY") == ""
             && EnvValue(s.env, "OPENAI_API_KEY") == ""
             && claudeOnPath) ==>
      s.EffectiveProvider(claudeOnPath, ollamaAnswers) == "claude-code"
    ensures (&& !SavedKey(s.values, AnthropicKeyName)
             && !SavedKey(s.values, OpenaiKeyName)
             && EnvValue(s.env, "ANTHROPIC_API_KEY") == ""
             && EnvValue(s.env, "OPENAI_API_KEY") == ""
             && !claudeOnPath
             && ollamaAnswers(StrOr(s.values, "ollama_url", "http://localhost:11434") + "/api/tags")) ==>
      s.EffectiveProvider(claudeOnPath, ollamaAnswers) == "ollama"
  {
    ProviderTryOrder(s, claudeOnPath, ollamaAnswers);
  }
}
