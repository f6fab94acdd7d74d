/**
 * Path helpers and the encryption-key bootstrap of the command-line tool.
 * A path is the list of its components; the base directories the operating
 * system reports are parameters, and the secret store is an object whose
 * `load` and `store` answers are fixed when it is made.
 */
module Utils {
  import opened Wrappers

  /** The application identifier used to name the tool's directories. */
  const AppIdentifier := "dev.lbeernaert.you-have-mail-cli"

  /** A filesystem path as its list of components. */
  type Path = seq<string>

  /** `Path::join` with a relative component. */
  function Join(p: Path, component: string): (r: Path)
    ensures |r| == |p| + 1 && r[..|p|] == p && r[|p|] == component
  {
    p + [component]
  }

  /** `get_config_file_path`: the file `config` inside `dir`. */
  function GetConfigFilePath(dir: Path): (r: Path)
    ensures |r| == |dir| + 1 && r[..|dir|] == dir && r[|dir|] == "config"
  {
    Join(dir, "config")
  }

  /**
   * `get_default_config_dir`, given what the platform reports as its local
   * configuration directory: that directory joined with the application
   * identifier, or an error when there is none.
   */
  function GetDefaultConfigDir(configLocalDir: Option<Path>): (r: Result<Path>)
    ensures r.Success? <==> configLocalDir.Some?
    ensures r.Success? ==> |r.value| >= 1 && r.value[..|r.value| - 1] == configLocalDir.value && r.value[|r.value| - 1] == AppIdentifier
    ensures r.Failure? ==> r.error == "Failed to get configuration directory"
  {
    if configLocalDir.None? then Failure("Failed to get configuration directory")
    else Success(Join(configLocalDir.value, AppIdentifier))
  }

  /** `get_default_log_dir`, given the platform's data directory. */
  function GetDefaultLogDir(dataDir: Option<Path>): (r: Result<Path>)
    ensures r.Success? <==> dataDir.Some?
    ensures r.Success? ==> |r.value| >= 1 && r.value[..|r.value| - 1] == dataDir.value && r.value[|r.value| - 1] == AppIdentifier
    ensures r.Failure? ==> r.error == "Failed to get data directory"
  {
    if dataDir.None? then Failure("Failed to get data directory")
    else Success(Join(dataDir.value, AppIdentifier))
  }

  /** Distinct directories give distinct configuration files. */
  lemma ConfigFilePathInjective(a: Path, b: Path)
    requires GetConfigFilePath(a) == GetConfigFilePath(b)
    ensures a == b
  {
    assert a == GetConfigFilePath(a)[..|a|];
    assert b == GetConfigFilePath(b)[..|b|];
  }

  /** The key that encrypts the tool's saved state. */
  datatype EncryptionKey = EncryptionKey(material: seq<bv8>)

  /** `GetSecretKeyState`. */
  datatype GetSecretKeyState = New(key: EncryptionKey) | Existing(key: EncryptionKey)

  /**
   * A secret store (`dyn Secrets`). `key` is what `load` finds; `loadError`
   * and `storeError`, when present, are the errors the backing store reports;
   * `stores` records every `store` call, in order.
   */
  class SecretStore {
    var key: Option<EncryptionKey>
    const loadError: Option<string>
    const storeError: Option<string>
    var stores: seq<EncryptionKey>

    constructor (key: Option<EncryptionKey>, loadError: Option<string>, storeError: Option<string>)
      ensures this.key == key && this.loadError == loadError && this.storeError == storeError
      ensures stores == []
    {
      this.key := key;
      this.loadError := loadError;
      this.storeError := storeError;
      stores := [];
    }

    /** `Secrets::load`. */
    method Load() returns (r: Result<Option<EncryptionKey>>)
      ensures loadError.Some? ==> r == Failure(loadError.value)
      ensures loadError.None? ==> r == Success(key)
    {
      r := if loadError.Some? then Failure(loadError.value) else Success(key);
    }

    /**
     * `Secrets::store`: on success the store holds `k` from then on. A failed
     * store is taken to leave the content as it was.
     */
    method Store(k: EncryptionKey) returns (r: Result<()>)
      modifies this
      ensures stores == old(stores) + [k]
      ensures storeError.Some? ==> r == Failure(storeError.value) && key == old(key)
      ensures storeError.None? ==> r == Success(()) && key == Some(k)
    {
      stores := stores + [k];
      if storeError.Some? {
        r := Failure(storeError.value);
      } else {
        key := Some(k);
        r := Success(());
      }
    }
  }

  /**
   * `get_or_create_secret_key`: reuse the stored key if there is one;
   * otherwise store `newKey` (the freshly generated key) and return it as new.
   * Errors of `load` and `store` propagate. On success the store holds the
   * returned key, so the next start finds it as `Existing`.
   */
  method GetOrCreateSecretKey(secrets: SecretStore, newKey: EncryptionKey) returns (r: Result<GetSecretKeyState>)
    modifies secrets
    ensures secrets.loadError.Some? ==>
      r == Failure(secrets.loadError.value) && secrets.stores == old(secrets.stores) && secrets.key == old(secrets.key)
    ensures secrets.loadError.None? && old(secrets.key).Some? ==>
      r == Success(Existing(old(secrets.key).value)) && secrets.stores == old(secrets.stores) && secrets.key == old(secrets.key)
    ensures secrets.loadError.None? && old(secrets.key).None? ==>
      && secrets.stores == old(secrets.stores) + [newKey]
      && (secrets.storeError.Some? ==> r == Failure(secrets.storeError.value) && secrets.key == old(secrets.key))
      && (secrets.storeError.None? ==> r == Success(New(newKey)))
    ensures r.Success? ==> secrets.key == Some(r.value.key)
  {
    var loaded := secrets.Load();
    if loaded.Failure? {
      return Failure(loaded.error);
    }
    if loaded.value.Some? {
      return Success(Existing(loaded.value.value));
    }
    var stored := secrets.Store(newKey);
    if stored.Failure? {
      return Failure(stored.error);
    }
    r := Success(New(newKey));
  }
}
