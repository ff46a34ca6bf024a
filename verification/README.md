# Sign-on daemon core, modelled in Dafny

This project models the core of the accounts-sso sign-on daemon
(`signond`) and of two of its authentication plugins, and proves
properties of that model:

- **CredentialsAccess** (`credentials_access_manager.dfy`): the
  credentials access manager. It is initialised with a configuration,
  opens and closes the credentials system (the metadata DB plus a
  secrets DB), and deletes the system. It follows the key handler's
  events: a key is inserted, authorized, revoked, or the last authorized
  key is removed. It also follows the encrypted file system's mount and
  unmount. When asked, it tells the objects waiting for the secure
  storage whether that storage is available.
- **Identity** (`signon_identity.dfy`): the daemon's identity object.
  It queries, stores, removes, verifies and signs out one credentials
  record, which includes the empty-secret rule, owner-list augmentation,
  insert versus update, the id reset on error and the credentials cache.
  It also covers the two signon-ui flows, requesting a credentials update
  and verifying the user, with the bounded retry chain of the verify
  flow.
- **AuthSessionAdaptor** (`auth_session_adaptor.dfy`): the guard checks
  of an authentication session's D-Bus adaptor, which are the owner check
  and the method/mechanism check.
- **BlobIO** (`blob_io_handler.dfy`): the paged transfer of session-data
  blobs between the daemon and plugin processes.
- **OAuthUtil** (`oauth_util.dfy`): the OAuth helper functions. These are
  percent-encoding and decoding, query extraction, parameter ordering and
  the signature base string of section 3.4.1 of RFC 5849.
- **OAuthAccountPlugin** (`oauth_account_plugin.dfy`): the OAuth
  account plugin's login (with retries), auth, logout and custom
  requests.
- **PasswordPlugin** (`password_plugin.dfy`): the password plugin. It
  answers with a stored secret or asks the UI. Its processing flag
  guarantees at most one terminal reply per `process`.
- **Common** (`common.dfy`): the shared option type, the byte type and
  decimal formatting, plus the signon-ui query error codes.

## How the model is built

- **Objects that change state.** Each object whose fields the source
  updates in place is a Dafny `class`. The manager, the identity, the
  credentials cache, the blob handler and both plugins are classes. Their
  methods state the whole new state, and each method's `modifies` clause
  names the only fields it may change.
- **Collaborators.** The credentials DB, the crypto file-system manager,
  the key handler, the encryptor, signon-ui, the access-control lookups
  and the OAuth network layer are collaborators. Each of their answers is
  a parameter of the operation that meets it. Examples are `metadataOk`,
  `unmountOk`, `lookup`, `decoded`, `reply` and `backend`.
- **Output logs.** Every request to a collaborator and every reply or
  signal is appended to an output log. Examples are a mount, an
  authorization query, a DB insert, a DB password check, a D-Bus error
  reply and an `infoUpdated` signal. Status reads, such as the DB's
  error flag or whether the secrets DB is open, are parameters instead.
- **Pure code** is written as functions, with lemmas relating them:
  - the adaptor's checks;
  - the OAuth helpers;
  - the UI-reply classification;
  - the verify-flow decision.
- **Loops** are methods with loop invariants, proved against a
  specification function. These are `pageByteArray`, `sendData`,
  `getQuery`, the three loops of `createSignatureBaseString`, the login
  retry loop and the notifier queue drain.

Two behaviours of the code worth knowing:

- `customEvent` queries the key authorizer for storage on every "secure
  storage not available" notice. It never checks whether a query is
  already outstanding (src/signond/credentialsaccessmanager.cpp:536-554,
  `CredentialsAccessManager.CustomEvent`).
- `deleteCredentialsSystem` on an initialised system that was never
  opened still deletes the file system, or the file in plaintext mode
  (src/signond/credentialsaccessmanager.cpp:406-429,
  `CredentialsAccessManager.DeleteCredentialsSystem`).

## Model

| member | source | states |
|---|---|---|
| CredentialsAccess.DefaultConfiguration | src/signond/credentialsaccessmanager.cpp:52-59 | the default configuration puts the metadata DB at /home/user/.signon/signon.db, the file system at /home/user/.signon/signonfs and the plaintext secrets at signon.db.creds; it uses encryption with an ext2 file system of 8 and an empty passphrase |
| CredentialsAccess.ConfigurationPaths | src/signond/credentialsaccessmanager.cpp:85-95 | the metadata DB, plaintext secrets DB and encrypted FS all lie directly in the storage directory; the two DB paths never coincide; the FS path equals the metadata path exactly when the DB is named "signonfs" |
| CredentialsAccess.SecretsDBPath | src/signond/credentialsaccessmanager.cpp:269-290 | the secrets DB is the mount path + '/' + DB name with encryption, and the metadata DB path + ".creds" without it |
| CredentialsAccess.AuthorizeFlagsFor | src/signond/credentialsaccessmanager.cpp:477-487 | a Denied answer authorizes nothing; Exclusive and only Exclusive authorizes with FormatStorage; any other answer authorizes with no flags |
| CredentialsAccess.AvailabilityOf | src/signond/credentialsaccessmanager.cpp:502-504 | the waiting senders hear AVAILABLE exactly when a DB exists and its secrets DB is open |
| CredentialsAccess.RepliesAllOfType | src/signond/credentialsaccessmanager.cpp:498-521 | every event posted while draining the queue is an event of the one type chosen before the drain |
| CredentialsAccess.RepliesOnePerSender | src/signond/credentialsaccessmanager.cpp:498-521 | the drain posts to each live sender once per queue entry and skips vanished senders: the post count equals the queue length minus the dead entries |
| CredentialsAccess.DeletionTargetMissesStorage | src/signond/credentialsaccessmanager.cpp:420-425 | the file the as-written plaintext deletion removes (the bare DB name) differs as a path string from both the plaintext secrets DB and the metadata DB; resolved against the working directory, it names the metadata DB exactly when the working directory is the storage directory |
| CredentialsAccess.CredentialsAccessManager.constructor | src/signond/credentialsaccessmanager.cpp:101-114 | a new manager is uninitialised and not opened; it has no error, the default configuration, no DB, FS manager or authorizer, and empty key sets, queue and log |
| CredentialsAccess.CredentialsAccessManager.Init | src/signond/credentialsaccessmanager.cpp:147-215 | a second init fails with AlreadyInitialized and changes nothing else; otherwise the configuration is kept, a storage-dir failure is CredentialsDbSetupFailed, and with encryption the FS manager is set up for the configured FS, the default authorizer is installed if none was supplied, and the key handler is started; the manager's invariant is kept |
| CredentialsAccess.CredentialsAccessManager.Finalize | src/signond/credentialsaccessmanager.cpp:131-145 | an opened system is closed first; afterwards the manager is uninitialised and not opened, with no FS manager; the key managers are disconnected |
| CredentialsAccess.CredentialsAccessManager.AddKeyManager | src/signond/credentialsaccessmanager.cpp:217-221 | the key manager is appended to the list |
| CredentialsAccess.CredentialsAccessManager.InitExtension | src/signond/credentialsaccessmanager.cpp:223-263 | the extension's key manager is taken; its key authorizer is taken only when none is set; the result is true exactly when something was taken |
| CredentialsAccess.CredentialsAccessManager.OpenSecretsDB | src/signond/credentialsaccessmanager.cpp:265-299 | with encryption and an unmounted FS the call fails with CredentialsDbNotMounted and opens nothing; otherwise it succeeds exactly when the DB opens, then the secrets DB is open at SecretsDBPath and the error is cleared |
| CredentialsAccess.CredentialsAccessManager.CloseSecretsDB | src/signond/credentialsaccessmanager.cpp:306-318 | the secrets DB is closed; with encryption an unmount is requested, and its failure is CredentialsDbUnmountFailed |
| CredentialsAccess.CredentialsAccessManager.OpenCredentialsSystem | src/signond/credentialsaccessmanager.cpp:338-386 | it fails with NotInitialized before init; otherwise it succeeds exactly when the metadata DB opens; then the secrets DB is opened at once (plaintext, or FS mounted) or a mount is requested, and a secrets-DB failure does not fail the call |
| CredentialsAccess.CredentialsAccessManager.CloseCredentialsSystem | src/signond/credentialsaccessmanager.cpp:388-404 | it is a no-op success when not opened; otherwise the system ends closed with no DB and no error, failing only when unmounting under an open secrets DB fails |
| CredentialsAccess.CredentialsAccessManager.DeleteCredentialsSystem | src/signond/credentialsaccessmanager.cpp:406-429 | a failed close aborts; the encrypted FS is deleted, or in plaintext mode the existing plaintext secrets DB file is removed; a failed deletion is CredentialsDbDeletionFailed (this is the corrected deletion target) |
| CredentialsAccess.CredentialsAccessManager.CredentialsDB | src/signond/credentialsaccessmanager.cpp:431-436 | there is no handle and the error is NotInitialized before init; otherwise the call returns the current DB |
| CredentialsAccess.CredentialsAccessManager.OnKeyInserted | src/signond/credentialsaccessmanager.cpp:443-450 | the key is recorded as inserted; a key that is not authorized is queried with reason KeyInserted |
| CredentialsAccess.CredentialsAccessManager.OnKeyRemoved | src/signond/credentialsaccessmanager.cpp:461-470 | the key is no longer inserted; only an authorized key is revoked, and it leaves the authorized set when revocation succeeds |
| CredentialsAccess.CredentialsAccessManager.OnLastAuthorizedKeyRemoved | src/signond/credentialsaccessmanager.cpp:452-459 | the secure storage is closed (secrets DB closed, unmount requested) exactly when the secrets DB is open or the FS is mounted |
| CredentialsAccess.CredentialsAccessManager.OnKeyAuthorizationQueried | src/signond/credentialsaccessmanager.cpp:472-490 | any answer but Denied authorizes the key with AuthorizeFlagsFor's flags; every answer then answers and empties the waiting queue |
| CredentialsAccess.CredentialsAccessManager.ReplyToSecureStorageEventNotifiers | src/signond/credentialsaccessmanager.cpp:498-521 | every live queued sender, in order, is posted AvailabilityOf(db), and the queue is emptied |
| CredentialsAccess.CredentialsAccessManager.CustomEvent | src/signond/credentialsaccessmanager.cpp:523-557 | a not-available notice queues its sender; it is answered at once without a DB or with an open secrets DB, and otherwise the authorizer is asked for storage; other events change nothing |
| CredentialsAccess.CredentialsAccessManager.OnEncryptedFSMounted | src/signond/credentialsaccessmanager.cpp:559-573 | the FS is marked mounted; an opened system whose secrets DB is closed opens it |
| CredentialsAccess.CredentialsAccessManager.OnEncryptedFSUnmounting | src/signond/credentialsaccessmanager.cpp:575-585 | an opened system closes its secrets DB; nothing else changes |
| Identity.ClassifyUiReply | src/signond/signonidentity.cpp:559-588 | a missing or failed UI reply is a cancellation, and a reply without an error code is an internal error; the code is then read both ways: NONE accepts, CANCELED cancels, FORGOT_PASSWORD is recognised only in the verify flow, and any other code fails carrying that code |
| Identity.VerdictError | src/signond/signonidentity.cpp:637-669 | a cancellation replies OPERATION_CANCELED, forgot-password replies FORGOT_PASSWORD, a failed code replies INTERNAL_SERVER with the code, and a missing code replies INTERNAL_SERVER without one |
| Identity.VerifyDecision | src/signond/signonidentity.cpp:671-709 | with a DB, a held record and a password in an accepted reply, it asks again exactly when the passwords differ and the confirm count is above 0 (with the count lowered by one and the NOT_AUTHORIZED message), and otherwise answers whether the passwords match; a missing DB is STORE_FAILED, and no password key or no held record is INTERNAL_SERVER |
| Identity.VerifyRetriesBounded | src/signond/signonidentity.cpp:683-701 | whatever the user types, with signon-ui returning the confirm count unchanged, the verify flow queries the UI at most confirm count + 1 times; the right password ends it at once with true |
| Identity.QueryDecision | src/signond/signonidentity.cpp:590-622 | the id is answered exactly when an accepted reply carries a password, a DB exists, a record is held and the update succeeded; with no DB the reply is STORE_FAILED; every other accepted reply (no password, no held record, a failed update) is INTERNAL_SERVER; the query flow never replies FORGOT_PASSWORD |
| Identity.StoredInfo | src/signond/signonidentity.cpp:419-429 | the stored record is the client's record with the decoded secret as password and the caller's token, if any, appended to the owners; no other field changes |
| Identity.EffectiveStoreSecret | src/signond/signonidentity.cpp:416-431 | the secret is stored exactly when the client asks for it and the decoded secret is not empty |
| Identity.DeprecatedInfo | src/signond/signonidentity.cpp:473-491 | the access-control list gains the caller's token; a new record takes it as its owner list too; a held record keeps its id, store flag and owners and takes the request's other fields |
| Identity.AuthCoreCache.Insert | src/signond/signonidentity.cpp:528-533 | the cache maps the key to the new entry and keeps every other entry |
| Identity.SignonIdentity.constructor | src/signond/signonidentity.cpp:53-60 | a new identity has the given id, holds no record and may be disposed of |
| Identity.SignonIdentity.LoadInfo | src/signond/signonidentity.cpp:157-176 | the DB is asked for the record, with or without its password as the caller says; a DB error yields not-ok and an empty record, and nothing is held; otherwise the record is held and returned |
| Identity.SignonIdentity.QueryInfo | src/signond/signonidentity.cpp:250-276 | with the system closed the reply is INTERNAL_SERVER; otherwise the DB is asked for the record without its password, and a DB error is CREDENTIALS_NOT_AVAILABLE and a never-stored record IDENTITY_NOT_FOUND, with no result; otherwise the record is returned; the held record is the DB's answer, none after an error |
| Identity.SignonIdentity.RequestCredentialsUpdate | src/signond/signonidentity.cpp:210-248 | it always returns 0; the record is read without its password and held (none after a DB error); a lookup failure is IDENTITY_NOT_FOUND and a record that does not store passwords is STORE_FAILED, neither asking the UI; otherwise it sends a password query with the user name, message and caption, and pins the identity |
| Identity.SignonIdentity.QueryUserPassword | src/signond/signonidentity.cpp:278-286 | it sends the parameters to the UI for the verify slot and pins the identity |
| Identity.SignonIdentity.VerifyUser | src/signond/signonidentity.cpp:288-321 | it always returns false; the record is read with its password and held (none after a DB error); a lookup failure is IDENTITY_NOT_FOUND, and an unstored or empty password is CREDENTIALS_NOT_AVAILABLE without a UI query; otherwise the caller's parameters are sent with the query flag, user name and caption set, and the identity is pinned |
| Identity.SignonIdentity.VerifySecret | src/signond/signonidentity.cpp:323-352 | the result is true exactly when the system is open, the secret decodes, the record loads and the DB reports a match; a decode failure is ENCRYPTION_FAILED and touches nothing; otherwise the record is read with its password and held (none after a DB error), a lookup failure is CREDENTIALS_NOT_AVAILABLE, and after a successful lookup the DB is asked to check the decoded secret against the record's id and user name |
| Identity.SignonIdentity.Remove | src/signond/signonidentity.cpp:354-368 | the record is deleted and IdentityRemoved is signalled; a missing DB or a failed delete is REMOVE_FAILED |
| Identity.SignonIdentity.SignOut | src/signond/signonidentity.cpp:370-392 | it always returns true; a stored identity clears its data (when a DB exists) and signals IdentitySignedOut, and a new identity does nothing |
| Identity.SignonIdentity.StoreInfo | src/signond/signonidentity.cpp:504-545 | without a DB it returns NEW and changes nothing; a new record is inserted, taking the DB's id, and an existing one is updated; an error on a new record resets the id to NEW; success caches the credentials under the default method when the secrets DB is closed, signals DataUpdated and drops the held record |
| Identity.SignonIdentity.Store | src/signond/signonidentity.cpp:394-441 | a decode failure is ENCRYPTION_FAILED, returns NEW and touches nothing; otherwise StoredInfo is stored with EffectiveStoreSecret, the id becomes StoreInfo's result, and a NEW id is STORE_FAILED |
| Identity.SignonIdentity.StoreCredentials | src/signond/signonidentity.cpp:443-502 | a decode failure is ENCRYPTION_FAILED; otherwise DeprecatedInfo becomes the held record and is stored with the caller's store flag, even with an empty secret; the id is unchanged without a DB, and a NEW id afterwards is STORE_FAILED |
| Identity.SignonIdentity.QueryUiSlot | src/signond/signonidentity.cpp:547-623 | the identity is unpinned; an accepted password updates the held record, which is dropped; the reply is QueryDecision's |
| Identity.SignonIdentity.VerifyUiSlot | src/signond/signonidentity.cpp:625-710 | it does what VerifyDecision says: a retry re-queries the UI, keeps the record and stays pinned; an answer is replied, unpins the identity and drops the record when it is the comparison |
| AuthSessionAdaptor.QueryAvailableMechanisms | src/signond/signonauthsessionadaptor.cpp:47-62 | the call is forwarded with the wanted mechanisms exactly when the caller owns the session, and otherwise is PERMISSION_DENIED |
| AuthSessionAdaptor.Process | src/signond/signonauthsessionadaptor.cpp:64-104 | the call is forwarded exactly when the owner calls and the check (for a stored identity with a readable DB) does not refuse, with the mechanism as rewritten by the check; METHOD_OR_MECHANISM_NOT_ALLOWED happens exactly when the check refuses, and PERMISSION_DENIED exactly when it does not and the caller is not the owner |
| AuthSessionAdaptor.Cancel | src/signond/signonauthsessionadaptor.cpp:106-117 | the call is forwarded exactly for the owner, and silently ignored otherwise |
| AuthSessionAdaptor.SetId | src/signond/signonauthsessionadaptor.cpp:119-135 | the call is forwarded with the id exactly when the caller owns the session and may use the identity, and silently ignored otherwise |
| AuthSessionAdaptor.ProcessWithoutMechanismCheck | src/signond/signonauthsessionadaptor.cpp:70-101 | for a new identity or a null DB only the owner check applies, and for a new identity the stored check is irrelevant |
| AuthSessionAdaptor.MechanismCheckPrecedesOwnerCheck | src/signond/signonauthsessionadaptor.cpp:70-87 | a refused mechanism on a stored identity is reported as such whoever calls |
| AuthSessionAdaptor.OnlyOwnerIsForwarded | src/signond/signonauthsessionadaptor.cpp:47-135 | no call from a non-owner ever reaches the session |
| BlobIO.Pages | lib/plugins/signon-plugins-common/SignOn/blobiohandler.cpp:163-179 | an empty blob, and only an empty blob, has no pages |
| BlobIO.PagesConcat | lib/plugins/signon-plugins-common/SignOn/blobiohandler.cpp:163-179 | the pages concatenate back to the blob |
| BlobIO.PagesShape | lib/plugins/signon-plugins-common/SignOn/blobiohandler.cpp:163-179 | every page is non-empty and at most PageSize bytes, and all but the last are full |
| BlobIO.PageByteArray | lib/plugins/signon-plugins-common/SignOn/blobiohandler.cpp:163-179 | the page-reading loop yields exactly Pages(data) |
| BlobIO.ReadStepOutcome | lib/plugins/signon-plugins-common/SignOn/blobiohandler.cpp:108-132 | the fragment is appended; an empty fragment short of the size, and only that, is a read error that stops notification; reaching exactly the size delivers the whole buffer, and notification stops for multi-page blobs |
| BlobIO.ReadFragmentsDelivers | lib/plugins/signon-plugins-common/SignOn/blobiohandler.cpp:93-132 | non-empty fragments that add up to what is missing are collected silently and delivered once as one blob |
| BlobIO.PagedTransferRoundTrip | lib/plugins/signon-plugins-common/SignOn/blobiohandler.cpp:54-179 | a receiver told the size and fed the sender's pages delivers exactly the sent blob, once, with no error |
| BlobIO.BlobIOHandler.constructor | lib/plugins/signon-plugins-common/SignOn/blobiohandler.cpp:35-44 | a new handler has no notifier, an empty buffer, size -1 and notification off |
| BlobIO.BlobIOHandler.SetReadChannelSocketNotifier | lib/plugins/signon-plugins-common/SignOn/blobiohandler.cpp:46-52 | a null notifier is ignored; otherwise it replaces the old one |
| BlobIO.BlobIOHandler.SetReadNotificationEnabled | lib/plugins/signon-plugins-common/SignOn/blobiohandler.cpp:74-91 | read notification is on exactly as asked |
| BlobIO.BlobIOHandler.SendData | lib/plugins/signon-plugins-common/SignOn/blobiohandler.cpp:54-72 | without a write channel it fails and writes nothing; otherwise it writes the size and then every page of Pages(blob) in order |
| BlobIO.BlobIOHandler.ReadBlob | lib/plugins/signon-plugins-common/SignOn/blobiohandler.cpp:108-132 | the handler's state and signals follow ReadStep, the one-read function ReadStepOutcome describes |
| BlobIO.BlobIOHandler.ReceiveData | lib/plugins/signon-plugins-common/SignOn/blobiohandler.cpp:93-106 | the buffer is reset to the announced size, notification is turned on for multi-page blobs, and the handler reads at once as ReadStep says |
| OAuthUtil.EncodeParam | src/plugins/oauth/oauth-util.c:70-77 | null stays null; an encoding holds only unreserved bytes and upper-case %XY escapes, and no NUL |
| OAuthUtil.DecodeParam | src/plugins/oauth/oauth-util.c:84-91 | null stays null; the decoding is null exactly when an escape is malformed (cut short, a non-hexadecimal digit, or NUL); a decoding is never longer than its input and has no NUL |
| OAuthUtil.UnescapeDefined | src/plugins/oauth/oauth-util.c:84-91 | unescaping fails exactly on a string with an escape that is cut short, has a non-hexadecimal digit or stands for NUL |
| OAuthUtil.DecodeEncodeRoundTrip | src/plugins/oauth/oauth-util.c:70-91 | decoding the encoding of any C string gives the string back |
| OAuthUtil.UnescapeEscape | src/plugins/oauth/oauth-util.c:70-91 | unescaping undoes escaping for every NUL-free byte string |
| OAuthUtil.EscapeLength | src/plugins/oauth/oauth-util.c:40-76 | escaping never shortens; the length is kept exactly when every byte is unreserved, and then the string is unchanged |
| OAuthUtil.EscapeFixedPoint | src/plugins/oauth/oauth-util.c:40-76 | a string is its own encoding exactly when it consists of unreserved bytes |
| OAuthUtil.WellEncodedBytes | src/plugins/oauth/oauth-util.c:40-76 | an encoding contains no '&', '=' or NUL |
| OAuthUtil.NormalizeUrl | src/plugins/oauth/oauth-util.c:98-121 | normalisation is not implemented: the URL, or null, is returned as it is |
| OAuthUtil.QueryOf | src/plugins/oauth/oauth-util.c:129-147 | there is a query exactly when the URL holds a '?', and it is what follows the first '?' |
| OAuthUtil.GetQuery | src/plugins/oauth/oauth-util.c:129-147 | the scanning loop returns null for a null URL and QueryOf otherwise |
| OAuthUtil.AsciiUpper | src/plugins/oauth/oauth-util.c:251 | the result has the same length with each byte upper-cased |
| OAuthUtil.StrCmpZero | src/plugins/oauth/oauth-util.c:199-205 | the byte comparison is 0 exactly for equal strings |
| OAuthUtil.StrCmpAntisymmetric | src/plugins/oauth/oauth-util.c:199-205 | swapping the arguments negates the comparison |
| OAuthUtil.StrCmpTransitive | src/plugins/oauth/oauth-util.c:199-205 | the comparison's order is transitive |
| OAuthUtil.ParamCompare | src/plugins/oauth/oauth-util.c:193-206 | parameters compare by name, then by value, in -1..1, and are equal exactly when both name and value are |
| OAuthUtil.ParamCompareAntisymmetric | src/plugins/oauth/oauth-util.c:193-206 | swapping the parameters negates the comparison |
| OAuthUtil.ParamLeTotal | src/plugins/oauth/oauth-util.c:193-206 | the parameter order is total and antisymmetric |
| OAuthUtil.ParamLeTransitive | src/plugins/oauth/oauth-util.c:193-206 | the parameter order is transitive |
| OAuthUtil.InsertParamPermutes | src/plugins/oauth/oauth-util.c:284 | inserting adds exactly the one parameter |
| OAuthUtil.InsertParamSorted | src/plugins/oauth/oauth-util.c:284 | inserting into a sorted list keeps it sorted |
| OAuthUtil.SortParamsSorted | src/plugins/oauth/oauth-util.c:284 | the sorted parameters are in non-decreasing order and are a permutation of the input |
| OAuthUtil.SortedPermutationUnique | src/plugins/oauth/oauth-util.c:284 | two sorted permutations of the same parameters are equal, so the order of the sort's input does not matter |
| OAuthUtil.EncodeRequestParameters | src/plugins/oauth/oauth-util.c:258-269 | the request parameters are copied in order, each with its name and value encoded |
| OAuthUtil.AppendHeaderFields | src/plugins/oauth/oauth-util.c:270-281 | the authorization header fields are appended after the request parameters, in order and unencoded |
| OAuthUtil.JoinParameterString | src/plugins/oauth/oauth-util.c:285-301 | the joined string is null exactly when there are no parameters, and otherwise the name=value pairs in order separated by '&' |
| OAuthUtil.CreateSignatureBaseString | src/plugins/oauth/oauth-util.c:222-321 | the loops compute SignatureBaseString: null for a null method or URL or a URL with a query, otherwise the upper-cased method, the encoded URL and the encoded sorted pair list joined by '&' |
| OAuthUtil.NoParametersEndsWithSeparator | src/plugins/oauth/oauth-util.c:287-312 | with no parameters the base string ends with the '&' after the encoded URL |
| OAuthUtil.BaseStringSections | src/plugins/oauth/oauth-util.c:283-312 | the encoded URL and parameter list hold no '&', so the base string's three sections can be told apart, and the list is sorted and a permutation of all parameters |
| OAuthAccountPlugin.PluginName | src/plugins/oauth/oauth-accountplugin.c:408-411 | the plugin's name is "OAuthAccount", whatever the plugin object |
| OAuthAccountPlugin.WithNul | src/plugins/oauth/oauth-accountplugin.c:91-93 | a result string is copied with one terminating NUL |
| OAuthAccountPlugin.LoginAsWritten | src/plugins/oauth/oauth-accountplugin.c:52-121 | the login as written: a GError leaves no result and its code; a result comes with no GError; without retries a result comes with NONE, with retries with NONE or a stale GENERAL |
| OAuthAccountPlugin.AttemptResponse | src/plugins/oauth/oauth-accountplugin.c:86-107 | a success (no GError and a result) gives the result with NONE; otherwise there is no result and the code is the GError's, or GENERAL when there is no GError |
| OAuthAccountPlugin.LoginAsWrittenSingleAttempt | src/plugins/oauth/oauth-accountplugin.c:65-107 | without retries the login as written gives exactly the attempt's response |
| OAuthAccountPlugin.LoginAsWrittenKeepsStaleError | src/plugins/oauth/oauth-accountplugin.c:86-116 | with retries, a failure without a GError followed by a success returns the token together with the GENERAL code |
| OAuthAccountPlugin.SsoNokiaAccountPlugin.constructor | src/plugins/oauth/oauth-accountplugin.c:330-354 | a new plugin has no access token and no proxy |
| OAuthAccountPlugin.SsoNokiaAccountPlugin.Login | src/plugins/oauth/oauth-accountplugin.c:52-121 | the last attempt alone decides the response; every earlier attempt failed without a GError; there is at least one attempt and at most the retry limit, and the loop stops early only on a success or a GError (with the error code reset on success) |
| OAuthAccountPlugin.SsoNokiaAccountPlugin.Auth | src/plugins/oauth/oauth-accountplugin.c:133-166 | the stored access token (or an empty string) is returned NUL-terminated, with NONE and no GError |
| OAuthAccountPlugin.SsoNokiaAccountPlugin.Logout | src/plugins/oauth/oauth-accountplugin.c:168-217 | a GError from token deletion gives its code and no data; otherwise an empty string with NONE |
| OAuthAccountPlugin.SsoNokiaAccountPlugin.CustomRequest | src/plugins/oauth/oauth-accountplugin.c:219-317 | a setter without a request is INVALID_PARAMETER; a setter's failure is GENERAL; an unknown id up to SetEnd is INVALID_CUSTOM_FUNC; a getter with no result is NOT_INITIALIZED; the no-op and the setters answer an empty string and the token-info getter answers its result |
| OAuthAccountPlugin.SsoNokiaAccountPlugin.SetProxy | src/plugins/oauth/oauth-accountplugin.c:413-418 | the proxy is replaced by the argument |
| PasswordPlugin.PluginType | src/plugins/password/passwordplugin.cpp:42-45 | the plugin's type is "password" |
| PasswordPlugin.Mechanisms | src/plugins/password/passwordplugin.cpp:47-52 | the plugin offers exactly one mechanism, named like its type |
| PasswordPlugin.ProcessSignal | src/plugins/password/passwordplugin.cpp:62-93 | a non-empty secret gives a result with that secret and the user name when set; otherwise a UI request for the password, asking for the user name exactly when none is known |
| PasswordPlugin.UserActionSignal | src/plugins/password/passwordplugin.cpp:95-115 | the reply is always terminal: the UI's credentials exactly on NONE, SessionCanceled exactly on CANCELED, and otherwise a UserInteraction error naming the code |
| PasswordPlugin.UserInteractionMessageIdentifiesCode | src/plugins/password/passwordplugin.cpp:110-112 | different UI error codes give different error messages |
| PasswordPlugin.TerminalCountAppend | src/plugins/password/passwordplugin.cpp:117-133 | appending a signal raises the count of terminal replies exactly when it is a result or an error |
| PasswordPlugin.PasswordPlugin.constructor | src/plugins/password/passwordplugin.cpp:31-35 | a new plugin is not processing and has emitted nothing |
| PasswordPlugin.PasswordPlugin.ReplyError | src/plugins/password/passwordplugin.cpp:117-124 | the error is emitted only while processing, and processing ends; at most one terminal reply per round is kept |
| PasswordPlugin.PasswordPlugin.ReplyResult | src/plugins/password/passwordplugin.cpp:126-133 | the result is emitted only while processing, and processing ends; at most one terminal reply per round is kept |
| PasswordPlugin.PasswordPlugin.Cancel | src/plugins/password/passwordplugin.cpp:54-57 | a SessionCanceled error is emitted, and added to the round, only while processing; the round stays the tail of the signals with at most one terminal reply |
| PasswordPlugin.PasswordPlugin.Process | src/plugins/password/passwordplugin.cpp:62-93 | it starts a new round and emits ProcessSignal, and stays processing exactly when it asked the UI |
| PasswordPlugin.PasswordPlugin.UserActionFinished | src/plugins/password/passwordplugin.cpp:95-115 | the round's one terminal reply, UserActionSignal, is emitted and added to the round only while processing, and processing ends; the round stays the tail of the signals with at most one terminal reply |

## Left out

- **D-Bus plumbing** (replies, delayed replies, message construction,
  object registration) is not modelled. Replies and signals are entries
  of an output log.
- **The idle-disposal timer** (`keepInUse`) is not modelled; only the
  auto-destruct flag is.
- **signon-ui's asynchronous call** and its watcher are not modelled.
  The UI's reply is a parameter of the slot that receives it.
- **Foreign calls.** The encryptor, the access-control lookups
  (peer pid, AID token, identity permission) and the CredentialsDB's SQL
  are foreign calls. Their results are parameters (`decoded`,
  `idToken`, `lookup`, `write`, `matches`, `removeOk`, `mayUseIdentity`,
  `check`).
- **SignonIdentity's `addReference`/`removeReference`** forward to the DB
  and are not part of this model.
- **Crypto and key-handler internals.** The crypto file-system manager's
  mount, format and delete, and the key handler's internals, are not
  modelled. Their outcomes are flags, and the handler is two key sets.
  The AegisFS storage path build option and `isCredentialsSystemReady`/
  `keysAvailable` are not part of this model.
- **`CAMConfiguration::serialize`** is a logging dump and is not
  modelled.
- **Qt event posting** is not modelled. A posted event is an output
  entry, and a vanished sender is `None`.
- **Null dereferences are excluded by `requires`.** The source
  dereferences a pointer that can be null in three places, and the
  model's preconditions exclude each:
  - `CustomEvent` with no key authorizer;
  - `OnLastAuthorizedKeyRemoved` with no DB object;
  - `queryInfo` and `verifySecret` with a null DB handle, which appear
    in the model as a lookup result.
- **The byte format of blobs.** The QDataStream serialisation of a
  session-data map into a blob is treated as an opaque byte string.
- **`createSignature`** (HMAC-SHA1 and base64 through OpenSSL/GLib) is
  not modelled.
- **`emptyArray`** (memory freeing) is not modelled.
- **OAuth plugin internals.** The network functions of the OAuth account
  plugin, and the fields of the plugin object that only they read
  (base URL, consumer credentials, nonce, ...), are not part of this
  model. Plugin class initialisation and finalisation are not modelled
  beyond the constructor.
- **Plugin glue.** The password plugin's and the OAuth plugin's
  registration macros and the `oauthplugin.cpp` glue are not modelled.
- PasswordPlugin.PasswordPlugin.Process: the processing flag is a field
  of the plugin object. In the source it is a file-level static shared by
  all instances.
- PasswordPlugin.ProcessSignal: does not carry over the UI session
  data the daemon passed in. Only the user-name and password properties
  are modelled.
- CredentialsAccess.CredentialsAccessManager.Finalize: sets the crypto
  file-system manager to none. The source deletes it without clearing
  the pointer, and `init` sets it again only under encryption. So init
  with encryption, finalize, init without encryption and finalize again
  deletes the same manager twice. The model does not capture this
  dangling pointer.
- OAuthUtil.CreateSignatureBaseString: parameter names and values are
  byte strings, never null. In the source they are `char*`
  (oauth-util.h:24-25). A null one stays null through `encodeParam`,
  reaches `strcmp` in `paramCompare`, and cuts the "name=value" pair
  short in `g_strconcat`. None of that is modelled.
- OAuthAccountPlugin.SsoNokiaAccountPlugin.Login: the account is never
  null. For a null account the source returns a null response
  (oauth-accountplugin.c:60); that path is not modelled.
- OAuthAccountPlugin.SsoNokiaAccountPlugin.Auth: the account is never
  null. For a null account the source returns a null response
  (oauth-accountplugin.c:138); that path is not modelled.
- Identity.SignonIdentity.VerifySecret: `verifySecret` calls
  `queryInfo(ok)` with the default `queryPassword`, which is declared in
  signonidentity.h. That header is not part of this model, and the model
  takes the default to be true.
- Identity.ToInt: reads a text value as 0. QVariant would parse
  numeric text.
- Identity.ClassifyUiReply: takes the signon-ui error-code constants
  (NONE, CANCELED, FORGOT_PASSWORD) and the NOT_AUTHORIZED message id
  from a header that is not part of this model. The values in
  `common.dfy` were chosen only to be distinct.
- **Error message texts.** Error replies carry their D-Bus error name
  and, for a failed UI code, that code. The human-readable message texts
  are not modelled.
- **Fixed-width integers.** Identity ids, sizes and counts are unbounded
  integers; the source's 32-bit types never wrap in the paths modelled.

## Findings

| source | as written | input that shows it | evidently intended | confidence | as-written member | corrected member |
|---|---|---|---|---|---|---|
| src/plugins/oauth/oauth-accountplugin.c:86-116 | a successful login pass stores the result but leaves `response_error` as an earlier failed pass set it | with SSO_MAX_RETRIES 2, attempt 1 fails with no GError and attempt 2 returns "tok": the response holds "tok" and also SSO_ERROR_GENERAL | a successful attempt reports SSO_ERROR_NONE, as it does on the first attempt | high, not executed | OAuthAccountPlugin.LoginAsWrittenKeepsStaleError | OAuthAccountPlugin.SsoNokiaAccountPlugin.Login |
| src/signond/credentialsaccessmanager.cpp:420-425 | in plaintext mode `QFile(m_dbName)` is removed; this is the bare DB name, resolved against the working directory | any configuration, e.g. the default: it removes "signon.db" in the working directory and leaves "/home/user/.signon/signon.db.creds" behind | the plaintext secrets DB, i.e. metadataDBPath() + ".creds", is removed | medium, not executed | CredentialsAccess.DeletionTargetMissesStorage | CredentialsAccess.CredentialsAccessManager.DeleteCredentialsSystem |
