/**
 * The credentials access manager of the sign-on daemon
 * (SignonDaemonNS::CredentialsAccessManager): the single object that
 * decides when the credentials storage may be used.  It opens the
 * metadata DB, opens the secrets DB (directly in plaintext mode, on the
 * encrypted file system once it is mounted otherwise), closes it again
 * when the last authorized key goes away or the file system unmounts,
 * forwards key events to the key authorizer, and answers the objects that
 * asked to be told when the secure storage becomes available.
 *
 * The credentials DB, the crypto file-system manager and the key handler
 * are collaborators whose internals are not modelled: the DB is its
 * metadata path and the path of the secrets DB when one is open, the file
 * system is its paths and mount state, the key handler is the sets of
 * inserted and authorized keys, and every outcome of theirs (a DB that
 * fails to open, an unmount that fails, ...) is a parameter of the
 * operation that meets it.  Requests to the collaborators (a mount, an
 * authorization query, a posted event, ...) are appended to an output
 * log.
 */
module CredentialsAccess {
  import opened Common

  /** QDir::separator() on the platforms the daemon runs on. */
  const Separator: char := '/'

  // The daemon's default configuration values (signond-common.h)
  const DefaultStoragePath: string := "/home/user/.signon"
  const DefaultDbName: string := "signon.db"
  const DefaultFileSystemName: string := "signonfs"
  const DefaultFileSystemType: string := "ext2"
  const DefaultUseEncryption: bool := true
  const MinimumDbSize: nat := 8

  /** The suffix of the plaintext secrets DB next to the metadata DB. */
  const SecretsSuffix: string := ".creds"

  datatype CamError =
    | NoError
    | NotInitialized
    | AlreadyInitialized
    | CredentialsDbNotMounted
    | CredentialsDbUnmountFailed
    | CredentialsDbSetupFailed
    | CredentialsDbConnectionError
    | CredentialsDbDeletionFailed

  /** CAMConfiguration */
  datatype CamConfiguration = CamConfiguration(
    storagePath: string,
    dbName: string,
    useEncryption: bool,
    fileSystemType: string,
    fileSystemSize: nat,
    encryptionPassphrase: seq<Byte>)
  {
    /** The metadata DB: the DB name inside the storage directory. */
    function MetadataDBPath(): string
    {
      storagePath + [Separator] + dbName
    }

    /** The encrypted file system: a fixed name inside the storage directory. */
    function EncryptedFSPath(): string
    {
      storagePath + [Separator] + DefaultFileSystemName
    }

    /** The secrets DB of plaintext mode: the metadata DB's path with a suffix. */
    function PlaintextSecretsPath(): string
    {
      MetadataDBPath() + SecretsSuffix
    }
  }

  /** The configuration a default-constructed CAMConfiguration holds. */
  function DefaultConfiguration(): (cfg: CamConfiguration)
    ensures cfg.MetadataDBPath() == "/home/user/.signon/signon.db"
    ensures cfg.EncryptedFSPath() == "/home/user/.signon/signonfs"
    ensures cfg.PlaintextSecretsPath() == "/home/user/.signon/signon.db.creds"
    ensures cfg.useEncryption && cfg.fileSystemType == "ext2" && cfg.fileSystemSize == 8
    ensures cfg.encryptionPassphrase == []
  {
    CamConfiguration(DefaultStoragePath, DefaultDbName, DefaultUseEncryption,
                     DefaultFileSystemType, MinimumDbSize, [])
  }

  /**
   * The metadata DB, the plaintext secrets DB and the encrypted file system
   * all live directly in the storage directory, and the two DBs never share
   * a path; the file system is distinct from the metadata DB unless the DB
   * is given the file system's own name.
   */
  lemma ConfigurationPaths(cfg: CamConfiguration)
    ensures var n := |cfg.storagePath| + 1;
            cfg.MetadataDBPath()[..n] == cfg.storagePath + [Separator] &&
            cfg.PlaintextSecretsPath()[..n] == cfg.storagePath + [Separator] &&
            cfg.EncryptedFSPath()[..n] == cfg.storagePath + [Separator]
    ensures cfg.PlaintextSecretsPath() != cfg.MetadataDBPath()
    ensures cfg.MetadataDBPath() == cfg.EncryptedFSPath() <==> cfg.dbName == DefaultFileSystemName
  {
    var prefix := cfg.storagePath + [Separator];
    assert cfg.MetadataDBPath() == prefix + cfg.dbName;
    assert cfg.EncryptedFSPath() == prefix + DefaultFileSystemName;
    assert cfg.PlaintextSecretsPath() == prefix + (cfg.dbName + SecretsSuffix);
    if cfg.MetadataDBPath() == cfg.EncryptedFSPath() {
      assert cfg.dbName == cfg.MetadataDBPath()[|prefix|..];
    }
    assert |cfg.PlaintextSecretsPath()| == |cfg.MetadataDBPath()| + 6;
  }

  /** The path openSecretsDB opens, given where the encrypted file system is mounted. */
  function SecretsDBPath(cfg: CamConfiguration, mountPath: string): (p: string)
    ensures !cfg.useEncryption ==> p == cfg.PlaintextSecretsPath()
    ensures cfg.useEncryption ==>
              |p| == |mountPath| + 1 + |cfg.dbName| &&
              p[..|mountPath| + 1] == mountPath + [Separator] && p[|mountPath| + 1..] == cfg.dbName
  {
    if cfg.useEncryption then
      var p := mountPath + [Separator] + cfg.dbName;
      assert p[..|mountPath| + 1] == mountPath + [Separator];
      p
    else cfg.PlaintextSecretsPath()
  }

  /** A credentials DB: its metadata path, and the path of its secrets DB while that is open. */
  datatype CredentialsDb = CredentialsDb(metadataPath: string, secretsPath: Option<string>)
  {
    predicate SecretsOpen()
    {
      secretsPath.Some?
    }
  }

  /** The crypto file-system manager. */
  datatype CryptoFs = CryptoFs(fileSystemPath: string, fileSystemSize: nat, fileSystemType: string,
                               mountPath: string, mounted: bool)

  /** A key (a byte string, as SignOn::Key is). */
  type Key = seq<Byte>

  datatype QueryReason = KeyInserted | StorageNeeded

  /** KeyHandler::AuthorizeFlags */
  datatype AuthorizeFlags = NoFlags | FormatStorage

  /** The key authorizer's answer to a query. */
  datatype AuthorizerAnswer = Denied | Granted | Exclusive | OtherAnswer(code: int)

  /** The key authorizer in use: the daemon's default one, or one supplied by an extension. */
  datatype KeyAuthorizer = DefaultKeyAuthorizer | ExtensionKeyAuthorizer(id: nat)

  /**
   * A loaded plugin, as its interface casts see it: not an extension, an
   * extension that may supply a key manager, or a second-generation
   * extension that may also supply a key authorizer.
   */
  datatype Plugin =
    | NotAnExtension
    | Extension(keyManager: Option<nat>)
    | Extension2(keyManager: Option<nat>, keyAuthorizer: Option<nat>)

  datatype SecureStorageEventType = StorageAvailable | StorageNotAvailable

  /**
   * An event delivered to the manager: a "secure storage not available"
   * notice from a sender (None once the sender is gone), or anything else.
   */
  datatype CamEvent = StorageNotAvailableEvent(sender: Option<nat>) | OtherEvent

  /** The requests the manager makes of its collaborators. */
  datatype CamOutput =
    | InitializeKeyHandler
    | AuthorizationQuery(queriedKey: Option<Key>, reason: QueryReason)
    | AuthorizeKey(key: Key, flags: AuthorizeFlags)
    | RevokeKey(key: Key)
    | MountFileSystem
    | UnmountFileSystem
    | DeleteFileSystem
    | RemoveFile(path: string)
    | PostEvent(receiver: nat, eventType: SecureStorageEventType)
    | DisconnectKeyManagers

  /** How an authorizer answer is acted on: not at all, or an authorization with these flags. */
  function AuthorizeFlagsFor(answer: AuthorizerAnswer): (flags: Option<AuthorizeFlags>)
    ensures flags.None? <==> answer == Denied
    ensures flags == Some(FormatStorage) <==> answer == Exclusive
    ensures flags.Some? ==> flags.value == FormatStorage || flags.value == NoFlags
  {
    if answer == Denied then None
    else if answer == Exclusive then Some(FormatStorage)
    else Some(NoFlags)
  }

  function AuthorizationRequests(key: Key, answer: AuthorizerAnswer): seq<CamOutput>
  {
    match AuthorizeFlagsFor(answer)
    case None => []
    case Some(flags) => [AuthorizeKey(key, flags)]
  }

  /** The event the waiting senders are sent: AVAILABLE only with a DB whose secrets DB is open. */
  function AvailabilityOf(db: Option<CredentialsDb>): (t: SecureStorageEventType)
    ensures t == StorageAvailable <==> db.Some? && db.value.SecretsOpen()
  {
    if db.Some? && db.value.SecretsOpen() then StorageAvailable else StorageNotAvailable
  }

  /** The events posted to the queued senders, in queue order; senders that are gone are skipped. */
  function Replies(queue: seq<Option<nat>>, t: SecureStorageEventType): seq<CamOutput>
  {
    if queue == [] then []
    else
      var last := queue[|queue| - 1];
      Replies(queue[..|queue| - 1], t) + (if last.Some? then [PostEvent(last.value, t)] else [])
  }

  /** Every event posted while draining the queue is of the same type. */
  lemma {:induction false} RepliesAllOfType(queue: seq<Option<nat>>, t: SecureStorageEventType)
    ensures forall e :: e in Replies(queue, t) ==> e.PostEvent? && e.eventType == t
  {
    if queue != [] {
      RepliesAllOfType(queue[..|queue| - 1], t);
    }
  }

  /**
   * Draining the queue posts exactly one event per live queue entry (a
   * sender queued twice is told twice) and skips the entries whose sender
   * is gone.
   */
  lemma {:induction false} RepliesOnePerSender(queue: seq<Option<nat>>, t: SecureStorageEventType, receiver: nat)
    ensures multiset(Replies(queue, t))[PostEvent(receiver, t)] == multiset(queue)[Some(receiver)]
    ensures |Replies(queue, t)| == |queue| - multiset(queue)[None]
  {
    if queue != [] {
      var front := queue[..|queue| - 1];
      var last := queue[|queue| - 1];
      assert queue == front + [last];
      RepliesOnePerSender(front, t, receiver);
      assert multiset(queue) == multiset(front) + multiset{last};
      var tail := if last.Some? then [PostEvent(last.value, t)] else [];
      assert Replies(queue, t) == Replies(front, t) + tail;
      assert multiset(Replies(queue, t)) == multiset(Replies(front, t)) + multiset(tail);
    }
  }

  /**
   * deleteCredentialsSystem as written removes, in plaintext mode, the
   * file named by the bare DB name.  As a path string that is never the
   * plaintext secrets DB nor the metadata DB of the configuration; the
   * name is resolved against the daemon's working directory.
   */
  function DeletionTargetAsWritten(cfg: CamConfiguration): string
  {
    cfg.dbName
  }

  /** A relative file name as the file system resolves it from a working directory. */
  function Resolve(workingDir: string, name: string): string
  {
    workingDir + [Separator] + name
  }

  /**
   * The as-written target differs as a path string from both DB paths;
   * once resolved, it is the metadata DB exactly when the working
   * directory is the storage directory.
   */
  lemma DeletionTargetMissesStorage(cfg: CamConfiguration, workingDir: string)
    ensures DeletionTargetAsWritten(cfg) != cfg.PlaintextSecretsPath()
    ensures DeletionTargetAsWritten(cfg) != cfg.MetadataDBPath()
    ensures Resolve(workingDir, DeletionTargetAsWritten(cfg)) == cfg.MetadataDBPath() <==> workingDir == cfg.storagePath
  {
    assert |cfg.MetadataDBPath()| == |cfg.storagePath| + 1 + |cfg.dbName|;
    assert |cfg.PlaintextSecretsPath()| == |cfg.MetadataDBPath()| + |SecretsSuffix|;
    var resolved := Resolve(workingDir, cfg.dbName);
    if resolved == cfg.MetadataDBPath() {
      assert |workingDir| == |cfg.storagePath|;
      assert workingDir == resolved[..|workingDir|] == cfg.storagePath;
    }
  }

  class CredentialsAccessManager {
    var isInitialized: bool
    var systemOpened: bool
    var error: CamError
    var config: CamConfiguration
    /** The credentials DB object, created when the system is opened. */
    var db: Option<CredentialsDb>
    /** The crypto file-system manager, present while initialized with encryption. */
    var crypto: Option<CryptoFs>
    var keyAuthorizer: Option<KeyAuthorizer>
    var keyManagers: seq<nat>
    /** The key handler's inserted and authorized keys. */
    var inserted: set<Key>
    var authorized: set<Key>
    /** The senders waiting to hear about the secure storage, oldest first. */
    var notifiers: seq<Option<nat>>
    var outputs: seq<CamOutput>

    ghost predicate Valid()
      reads this
    {
      (crypto.Some? <==> isInitialized && config.useEncryption) &&
      (isInitialized && config.useEncryption ==> keyAuthorizer.Some?) &&
      (systemOpened ==> isInitialized && db.Some?)
    }

    /** Whether the secrets DB can be found (isSecretsDBOpen on the DB object). */
    predicate SecretsOpen()
      reads this
    {
      db.Some? && db.value.SecretsOpen()
    }

    constructor ()
      ensures Valid()
      ensures !isInitialized && !systemOpened && error == NoError && config == DefaultConfiguration()
      ensures db.None? && crypto.None? && keyAuthorizer.None? && keyManagers == []
      ensures inserted == {} && authorized == {} && notifiers == [] && outputs == []
    {
      isInitialized := false;
      systemOpened := false;
      error := NoError;
      config := DefaultConfiguration();
      db := None;
      crypto := None;
      keyAuthorizer := None;
      keyManagers := [];
      inserted := {};
      authorized := {};
      notifiers := [];
      outputs := [];
    }

    /**
     * init.  A second call fails with AlreadyInitialized before anything is
     * stored.  Otherwise the configuration is kept even when the storage
     * directory cannot be created (`storageDirOk`); with encryption the
     * crypto manager is set up for the configured file system (mounted at
     * `mountPath`, already mounted or not), the default key authorizer is
     * installed when no extension supplied one, and the key handler is
     * started.
     */
    method Init(cfg: CamConfiguration, storageDirOk: bool, mountPath: string, alreadyMounted: bool) returns (ok: bool)
      requires Valid()
      modifies this`error, this`config, this`crypto, this`keyAuthorizer, this`isInitialized, this`outputs
      ensures Valid()
      ensures old(isInitialized) ==>
                !ok && error == AlreadyInitialized && config == old(config) && isInitialized &&
                crypto == old(crypto) && keyAuthorizer == old(keyAuthorizer) && outputs == old(outputs)
      ensures !old(isInitialized) ==> config == cfg && ok == storageDirOk && isInitialized == ok
      ensures !old(isInitialized) && !storageDirOk ==>
                error == CredentialsDbSetupFailed && crypto.None? && keyAuthorizer == old(keyAuthorizer) &&
                outputs == old(outputs)
      ensures !old(isInitialized) && storageDirOk ==>
                error == NoError &&
                crypto == (if cfg.useEncryption
                           then Some(CryptoFs(cfg.EncryptedFSPath(), cfg.fileSystemSize, cfg.fileSystemType,
                                              mountPath, alreadyMounted))
                           else None) &&
                keyAuthorizer == (if cfg.useEncryption && old(keyAuthorizer).None? then Some(DefaultKeyAuthorizer)
                                  else old(keyAuthorizer)) &&
                outputs == old(outputs) + (if cfg.useEncryption then [InitializeKeyHandler] else [])
    {
      if isInitialized {
        error := AlreadyInitialized;
        return false;
      }
      config := cfg;
      if !storageDirOk {
        error := CredentialsDbSetupFailed;
        return false;
      }
      if config.useEncryption {
        crypto := Some(CryptoFs(config.EncryptedFSPath(), config.fileSystemSize, config.fileSystemType,
                                mountPath, alreadyMounted));
        if keyAuthorizer.None? {
          keyAuthorizer := Some(DefaultKeyAuthorizer);
        }
        outputs := outputs + [InitializeKeyHandler];
      }
      isInitialized := true;
      error := NoError;
      return true;
    }

    /**
     * finalize: closes an opened system (`unmountOk` is the unmount's
     * outcome), drops the crypto manager, disconnects the key managers and
     * returns to the uninitialized state.
     */
    method Finalize(unmountOk: bool)
      requires Valid()
      modifies this`error, this`db, this`crypto, this`systemOpened, this`isInitialized, this`outputs
      ensures Valid()
      ensures !isInitialized && !systemOpened && error == NoError && crypto.None?
      ensures db == (if old(systemOpened) then None else old(db))
      ensures outputs == old(outputs) +
                (if old(systemOpened) && old(SecretsOpen()) && config.useEncryption then [UnmountFileSystem] else []) +
                [DisconnectKeyManagers]
    {
      if systemOpened {
        var _ := CloseCredentialsSystem(unmountOk);
      }
      crypto := None;
      outputs := outputs + [DisconnectKeyManagers];
      isInitialized := false;
      error := NoError;
    }

    method AddKeyManager(keyManager: nat)
      modifies this`keyManagers
      ensures keyManagers == old(keyManagers) + [keyManager]
    {
      keyManagers := keyManagers + [keyManager];
    }

    /**
     * initExtension: takes the plugin's key manager, and its key
     * authorizer when none is set yet; answers whether it took anything.
     */
    method InitExtension(plugin: Plugin) returns (inUse: bool)
      requires Valid()
      modifies this`keyManagers, this`keyAuthorizer
      ensures Valid()
      ensures keyManagers == old(keyManagers) +
                (if !plugin.NotAnExtension? && plugin.keyManager.Some? then [plugin.keyManager.value] else [])
      ensures keyAuthorizer ==
                (if plugin.Extension2? && plugin.keyAuthorizer.Some? && old(keyAuthorizer).None?
                 then Some(ExtensionKeyAuthorizer(plugin.keyAuthorizer.value))
                 else old(keyAuthorizer))
      ensures inUse <==> keyManagers != old(keyManagers) || keyAuthorizer != old(keyAuthorizer)
    {
      inUse := false;
      if plugin.NotAnExtension? {
        return false;
      }
      if plugin.keyManager.Some? {
        AddKeyManager(plugin.keyManager.value);
        inUse := true;
      }
      if plugin.Extension2? && plugin.keyAuthorizer.Some? {
        if keyAuthorizer.None? {
          keyAuthorizer := Some(ExtensionKeyAuthorizer(plugin.keyAuthorizer.value));
          inUse := true;
        }
      }
      assert keyManagers != old(keyManagers) <==> |keyManagers| != |old(keyManagers)|;
    }

    /**
     * openSecretsDB (`openOk` is whether the DB object managed to open the
     * file).  With encryption the file system must be mounted already.
     */
    method OpenSecretsDB(openOk: bool) returns (ok: bool)
      requires Valid() && db.Some? && (config.useEncryption ==> crypto.Some?)
      modifies this`db, this`error
      ensures Valid()
      ensures config.useEncryption && !crypto.value.mounted ==>
                !ok && error == CredentialsDbNotMounted && db == old(db)
      ensures !(config.useEncryption && !crypto.value.mounted) ==>
                ok == openOk &&
                db == (if ok then Some(old(db).value.(secretsPath := Some(SecretsPathNow()))) else old(db)) &&
                error == (if ok then NoError else old(error))
    {
      if config.useEncryption && !crypto.value.mounted {
        error := CredentialsDbNotMounted;
        return false;
      }
      var dbPath := SecretsPathNow();
      if !openOk {
        return false;
      }
      db := Some(db.value.(secretsPath := Some(dbPath)));
      error := NoError;
      return true;
    }

    /** The secrets DB's path under the current configuration and mount point. */
    function SecretsPathNow(): (p: string)
      reads this
      requires config.useEncryption ==> crypto.Some?
      ensures !config.useEncryption ==> p == config.PlaintextSecretsPath()
    {
      SecretsDBPath(config, if crypto.Some? then crypto.value.mountPath else [])
    }

    /**
     * closeSecretsDB: closes the secrets DB and, with encryption, unmounts
     * the file system (`unmountOk` is the unmount's outcome).
     */
    method CloseSecretsDB(unmountOk: bool) returns (ok: bool)
      requires Valid() && db.Some? && (config.useEncryption ==> crypto.Some?)
      modifies this`db, this`crypto, this`error, this`outputs
      ensures Valid()
      ensures db == Some(old(db).value.(secretsPath := None))
      ensures ok == (!config.useEncryption || unmountOk)
      ensures outputs == old(outputs) + (if config.useEncryption then [UnmountFileSystem] else [])
      ensures crypto == (if config.useEncryption && unmountOk then Some(old(crypto).value.(mounted := false))
                         else old(crypto))
      ensures error == (if ok then old(error) else CredentialsDbUnmountFailed)
    {
      db := Some(db.value.(secretsPath := None));
      if config.useEncryption {
        outputs := outputs + [UnmountFileSystem];
        if !unmountOk {
          error := CredentialsDbUnmountFailed;
          return false;
        }
        crypto := Some(crypto.value.(mounted := false));
      }
      return true;
    }

    /**
     * openCredentialsSystem.  It succeeds exactly when the metadata DB
     * opens (`metadataOk`); the secrets DB is then opened at once in
     * plaintext mode or on a mounted file system (`secretsOk` is its
     * outcome, and a failure does not fail the call), and otherwise a mount
     * is requested.
     */
    method OpenCredentialsSystem(metadataOk: bool, secretsOk: bool) returns (ok: bool)
      requires Valid()
      modifies this`error, this`db, this`systemOpened, this`outputs
      ensures Valid()
      ensures !old(isInitialized) ==>
                !ok && error == NotInitialized && db == old(db) && systemOpened == old(systemOpened) &&
                outputs == old(outputs)
      ensures old(isInitialized) ==> ok == metadataOk && db.Some? && db.value.metadataPath == config.MetadataDBPath()
      ensures old(isInitialized) && !metadataOk ==>
                error == CredentialsDbConnectionError && !db.value.SecretsOpen() &&
                systemOpened == old(systemOpened) && outputs == old(outputs)
      ensures old(isInitialized) && metadataOk && (crypto.None? || crypto.value.mounted) ==>
                systemOpened && outputs == old(outputs) &&
                db.value.secretsPath == (if secretsOk then Some(SecretsPathNow()) else None) &&
                error == (if secretsOk then NoError else old(error))
      ensures old(isInitialized) && metadataOk && crypto.Some? && !crypto.value.mounted ==>
                systemOpened && outputs == old(outputs) + [MountFileSystem] &&
                !db.value.SecretsOpen() && error == old(error)
    {
      if !isInitialized {
        error := NotInitialized;
        return false;
      }
      db := Some(CredentialsDb(config.MetadataDBPath(), None));
      if !metadataOk {
        error := CredentialsDbConnectionError;
        return false;
      }
      systemOpened := true;
      if crypto.None? || crypto.value.mounted {
        var _ := OpenSecretsDB(secretsOk);
      } else {
        outputs := outputs + [MountFileSystem];
      }
      return true;
    }

    /**
     * closeCredentialsSystem: nothing to do when not opened; otherwise the
     * system ends up closed with no error recorded, and the call fails only
     * when unmounting the file system under an open secrets DB failed.
     */
    method CloseCredentialsSystem(unmountOk: bool) returns (ok: bool)
      requires Valid()
      modifies this`error, this`db, this`crypto, this`systemOpened, this`outputs
      ensures Valid()
      ensures !old(isInitialized) ==>
                !ok && error == NotInitialized && db == old(db) && crypto == old(crypto) &&
                systemOpened == old(systemOpened) && outputs == old(outputs)
      ensures old(isInitialized) && !old(systemOpened) ==>
                ok && error == old(error) && db == old(db) && crypto == old(crypto) && !systemOpened &&
                outputs == old(outputs)
      ensures old(isInitialized) && old(systemOpened) ==>
                !systemOpened && db.None? && error == NoError &&
                ok == !(old(SecretsOpen()) && config.useEncryption && !unmountOk) &&
                outputs == old(outputs) + (if old(SecretsOpen()) && config.useEncryption then [UnmountFileSystem] else []) &&
                crypto == (if old(SecretsOpen()) && config.useEncryption && unmountOk
                           then Some(old(crypto).value.(mounted := false)) else old(crypto))
    {
      if !isInitialized {
        error := NotInitialized;
        return false;
      }
      if !systemOpened {
        return true;
      }
      var allClosed := true;
      if db.value.SecretsOpen() {
        var closed := CloseSecretsDB(unmountOk);
        if !closed {
          allClosed := false;
        }
      }
      db := None;
      error := NoError;
      systemOpened := false;
      return allClosed;
    }

    /**
     * deleteCredentialsSystem: closes an opened system first and gives up
     * if that fails; then deletes the encrypted file system, or in
     * plaintext mode removes the secrets DB file when it exists
     * (`fileExists`).  `deleteOk` is the deletion's outcome.
     */
    method DeleteCredentialsSystem(unmountOk: bool, fileExists: bool, deleteOk: bool) returns (ok: bool)
      requires Valid()
      modifies this`error, this`db, this`crypto, this`systemOpened, this`outputs
      ensures Valid()
      ensures !old(isInitialized) ==>
                !ok && error == NotInitialized && db == old(db) && crypto == old(crypto) &&
                systemOpened == old(systemOpened) && outputs == old(outputs)
      ensures old(isInitialized) ==>
                !systemOpened && db == (if old(systemOpened) then None else old(db))
      ensures old(isInitialized) && old(systemOpened) && old(SecretsOpen()) && config.useEncryption && !unmountOk ==>
                !ok && error == NoError && outputs == old(outputs) + [UnmountFileSystem] && crypto == old(crypto)
      ensures old(isInitialized) && !(old(systemOpened) && old(SecretsOpen()) && config.useEncryption && !unmountOk) ==>
                var closing := if old(systemOpened) && old(SecretsOpen()) && config.useEncryption
                               then [UnmountFileSystem] else [];
                outputs == old(outputs) + closing +
                           (if config.useEncryption then [DeleteFileSystem]
                            else if fileExists then [RemoveFile(config.PlaintextSecretsPath())]
                            else []) &&
                ok == (config.useEncryption || fileExists ==> deleteOk) &&
                error == (if ok then NoError else CredentialsDbDeletionFailed)
    {
      if !isInitialized {
        error := NotInitialized;
        return false;
      }
      if systemOpened {
        var closed := CloseCredentialsSystem(unmountOk);
        if !closed {
          return false;
        }
      }
      error := NoError;
      if config.useEncryption {
        outputs := outputs + [DeleteFileSystem];
        if !deleteOk {
          error := CredentialsDbDeletionFailed;
        }
      } else {
        if fileExists {
          outputs := outputs + [RemoveFile(config.PlaintextSecretsPath())];
          if !deleteOk {
            error := CredentialsDbDeletionFailed;
          }
        }
      }
      return error == NoError;
    }

    /** credentialsDB: no handle before init. */
    method CredentialsDB() returns (handle: Option<CredentialsDb>)
      modifies this`error
      ensures !isInitialized ==> handle.None? && error == NotInitialized
      ensures isInitialized ==> handle == db && error == old(error)
    {
      if !isInitialized {
        error := NotInitialized;
        return None;
      }
      return db;
    }

    /** onKeyInserted: a key not yet authorized is put to the key authorizer. */
    method OnKeyInserted(key: Key)
      requires Valid() && isInitialized && config.useEncryption
      modifies this`inserted, this`outputs
      ensures inserted == old(inserted) + {key}
      ensures outputs == old(outputs) + (if key in authorized then [] else [AuthorizationQuery(Some(key), KeyInserted)])
    {
      inserted := inserted + {key};
      if key !in authorized {
        outputs := outputs + [AuthorizationQuery(Some(key), KeyInserted)];
      }
    }

    /** onKeyRemoved: only an authorized key has its authorization revoked (`revokeOk` is the outcome). */
    method OnKeyRemoved(key: Key, revokeOk: bool)
      requires Valid() && isInitialized && config.useEncryption
      modifies this`inserted, this`authorized, this`outputs
      ensures inserted == old(inserted) - {key}
      ensures outputs == old(outputs) + (if key in old(authorized) then [RevokeKey(key)] else [])
      ensures authorized == (if key in old(authorized) && revokeOk then old(authorized) - {key} else old(authorized))
    {
      inserted := inserted - {key};
      if key in authorized {
        outputs := outputs + [RevokeKey(key)];
        if revokeOk {
          authorized := authorized - {key};
        }
      }
    }

    /**
     * onLastAuthorizedKeyRemoved: the secure storage is closed when the
     * secrets DB is open or the file system is mounted.
     */
    method OnLastAuthorizedKeyRemoved(key: Key, unmountOk: bool)
      requires Valid() && isInitialized && config.useEncryption && db.Some?
      modifies this`db, this`crypto, this`error, this`outputs
      ensures Valid()
      ensures old(SecretsOpen()) || old(crypto).value.mounted ==>
                db == Some(old(db).value.(secretsPath := None)) &&
                outputs == old(outputs) + [UnmountFileSystem] &&
                crypto == (if unmountOk then Some(old(crypto).value.(mounted := false)) else old(crypto)) &&
                error == (if unmountOk then old(error) else CredentialsDbUnmountFailed)
      ensures !(old(SecretsOpen()) || old(crypto).value.mounted) ==>
                db == old(db) && crypto == old(crypto) && error == old(error) && outputs == old(outputs)
    {
      if db.value.SecretsOpen() || crypto.value.mounted {
        var _ := CloseSecretsDB(unmountOk);
      }
    }

    /**
     * onKeyAuthorizationQueried: any answer but Denied authorizes the key,
     * with FormatStorage for Exclusive (`authorizeOk` is the key handler's
     * outcome); every answer then drains the queue of waiting senders.
     */
    method OnKeyAuthorizationQueried(key: Key, answer: AuthorizerAnswer, authorizeOk: bool)
      requires Valid()
      modifies this`authorized, this`outputs, this`notifiers
      ensures authorized == (if answer != Denied && authorizeOk then old(authorized) + {key} else old(authorized))
      ensures outputs == old(outputs) + AuthorizationRequests(key, answer) + Replies(old(notifiers), AvailabilityOf(db))
      ensures notifiers == []
    {
      if answer != Denied {
        var flags := if answer == Exclusive then FormatStorage else NoFlags;
        outputs := outputs + [AuthorizeKey(key, flags)];
        if authorizeOk {
          authorized := authorized + {key};
        }
      }
      ReplyToSecureStorageEventNotifiers();
    }

    /**
     * replyToSecureStorageEventNotifiers: posts one event to every queued
     * sender still alive, AVAILABLE when the secrets DB is open, and
     * empties the queue.
     */
    method ReplyToSecureStorageEventNotifiers()
      modifies this`outputs, this`notifiers
      ensures outputs == old(outputs) + Replies(old(notifiers), AvailabilityOf(db))
      ensures notifiers == []
    {
      var eventType := if db.Some? && db.value.SecretsOpen() then StorageAvailable else StorageNotAvailable;
      assert eventType == AvailabilityOf(db);
      var i := 0;
      while i < |notifiers|
        invariant 0 <= i <= |notifiers| && notifiers == old(notifiers)
        invariant outputs == old(outputs) + Replies(notifiers[..i], eventType)
      {
        assert notifiers[..i + 1][..i] == notifiers[..i];
        assert Replies(notifiers[..i + 1], eventType) ==
               Replies(notifiers[..i], eventType) + (if notifiers[i].Some? then [PostEvent(notifiers[i].value, eventType)] else []);
        var sender := notifiers[i];
        if sender.Some? {
          outputs := outputs + [PostEvent(sender.value, eventType)];
        }
        i := i + 1;
      }
      assert notifiers[..|notifiers|] == notifiers;
      notifiers := [];
    }

    /**
     * customEvent: a "not available" notice always queues its sender; the
     * queue is answered at once when there is no DB or the secrets DB is in
     * fact open, and otherwise the key authorizer is asked for storage.
     * Any other event is left to the base class.
     */
    method CustomEvent(event: CamEvent)
      requires Valid()
      requires event.StorageNotAvailableEvent? && db.Some? && !db.value.SecretsOpen() ==> keyAuthorizer.Some?
      modifies this`notifiers, this`outputs
      ensures event.OtherEvent? ==> notifiers == old(notifiers) && outputs == old(outputs)
      ensures event.StorageNotAvailableEvent? && !(db.Some? && !db.value.SecretsOpen()) ==>
                notifiers == [] &&
                outputs == old(outputs) + Replies(old(notifiers) + [event.sender], AvailabilityOf(db))
      ensures event.StorageNotAvailableEvent? && db.Some? && !db.value.SecretsOpen() ==>
                notifiers == old(notifiers) + [event.sender] &&
                outputs == old(outputs) + [AuthorizationQuery(None, StorageNeeded)]
    {
      if event.OtherEvent? {
        return;
      }
      notifiers := notifiers + [event.sender];
      if db.None? {
        ReplyToSecureStorageEventNotifiers();
        return;
      }
      if db.value.SecretsOpen() {
        ReplyToSecureStorageEventNotifiers();
        return;
      }
      outputs := outputs + [AuthorizationQuery(None, StorageNeeded)];
    }

    /**
     * onEncryptedFSMounted: once the file system is mounted, an opened
     * system whose secrets DB is closed opens it (`secretsOk` is the
     * outcome).
     */
    method OnEncryptedFSMounted(secretsOk: bool)
      requires Valid() && crypto.Some?
      modifies this`crypto, this`db, this`error
      ensures Valid()
      ensures crypto == Some(old(crypto).value.(mounted := true))
      ensures !systemOpened || old(SecretsOpen()) ==> db == old(db) && error == old(error)
      ensures systemOpened && !old(SecretsOpen()) ==>
                db == (if secretsOk then Some(old(db).value.(secretsPath := Some(SecretsPathNow()))) else old(db)) &&
                error == (if secretsOk then NoError else old(error))
    {
      crypto := Some(crypto.value.(mounted := true));
      if !systemOpened {
        return;
      }
      if !db.value.SecretsOpen() {
        var _ := OpenSecretsDB(secretsOk);
      }
    }

    /** onEncryptedFSUnmounting: an opened system closes its secrets DB before the file system goes. */
    method OnEncryptedFSUnmounting()
      requires Valid()
      modifies this`db
      ensures Valid()
      ensures systemOpened && old(SecretsOpen()) ==> db == Some(old(db).value.(secretsPath := None))
      ensures !(systemOpened && old(SecretsOpen())) ==> db == old(db)
    {
      if !systemOpened {
        return;
      }
      if db.value.SecretsOpen() {
        db := Some(db.value.(secretsPath := None));
      }
    }
  }
}
