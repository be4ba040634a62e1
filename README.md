# kkey client core, modelled in Dafny

kkey is a password-vault client: the user types a server address and an encryption key,
presses Connect, and the client fetches the server list and the encrypted vault, decrypts
it with the key and shows the password entries. Adding, editing or deleting an entry
updates the in-memory list and immediately syncs: the whole list, tombstones included, is
serialised, encrypted and posted back. All of this logic lives inside the UI handlers of
`App.kt`. This project lifts it into three components and proves what they do:

- `address.dfy` (module `Address`): server-address normalisation (trim, drop one trailing
  `/`, add `http://` unless the text starts with `http`, add `:7347` when the part after the
  first `://` has no `:`) and the three request URLs. `text.dfy` (module `Text`) models the
  Kotlin string functions it uses (`trim`, `isBlank`, `removeSuffix`, `startsWith`,
  `indexOf`, `substringAfter`), with Kotlin's JVM notion of whitespace.
- `entries.dfy` (module `Entries`): the `PasswordEntry` record and the list operations
  create (append), edit (map by id), soft-delete (map by id, setting the tombstone) and the
  active listing (filter on not deleted), as pure functions with lemmas.
- `session.dfy` (module `Session`): the session state (`isConnected`, `errorMessage`,
  `passwordEntries`, `decryptedData`, the fetched envelope, the server list, the address and
  the key) as a class whose handler methods are proved against specification functions
  (`AfterConnect`, `AfterDataFetch`, `SyncPost`, `AfterSync`), and lemmas about those
  functions: connected iff the server list answered 2xx, when entries are replaced, which
  outcomes leave an error message, and that sync is a full replace carrying tombstones.

HTTP replies are inputs (`Reply`: an exception with its message, or a status code, the text
the status renders as, and a body). The platform's `decrypt` and `encrypt` and the JSON
encoder and decoder are function-typed parameters the model does not look inside. The
clock value and the new entry's id are parameters.

The precise Connect outcome differs slightly from a loose reading "on failure an error is
shown": a non-2xx reply to the data fetch, or a blank key, leaves no error message and
keeps the entries; the model follows the code (`ConnectErrorCases`).

## Model

| member | source | states |
|---|---|---|
| `Text.IsWhitespace` | composeApp/src/commonMain/kotlin/omniaetern/kkey/compose/App.kt:127 | the characters `trim` and `isBlank` treat as whitespace: Kotlin's JVM `Char.isWhitespace`, i.e. U+0009..U+000D, U+001C..U+0020, U+00A0, U+1680, U+2000..U+200A, U+2028, U+2029, U+202F, U+205F and U+3000 |
| `Text.IsBlank` | composeApp/src/commonMain/kotlin/omniaetern/kkey/compose/App.kt:150 | `isBlank`: the text is empty or every character in it is whitespace |
| `Text.StartsWith` | composeApp/src/commonMain/kotlin/omniaetern/kkey/compose/App.kt:131 | `startsWith`: the prefix is no longer than the text and equals its first characters |
| `Text.EndsWith` | composeApp/src/commonMain/kotlin/omniaetern/kkey/compose/App.kt:127 | `endsWith`, as `removeSuffix` uses it: the suffix is no longer than the text and equals its last characters |
| `Text.SkipLeading` | composeApp/src/commonMain/kotlin/omniaetern/kkey/compose/App.kt:127 | the start index of `trim`: everything before it (from `from`) is whitespace and the character at it is not |
| `Text.SkipTrailing` | composeApp/src/commonMain/kotlin/omniaetern/kkey/compose/App.kt:127 | the end index of `trim`: everything from it to `end` is whitespace and the character before it is not (unless it reached the start) |
| `Text.Trim` | composeApp/src/commonMain/kotlin/omniaetern/kkey/compose/App.kt:127 | `trim` yields a text no longer than the input that neither starts nor ends with whitespace |
| `Text.TrimCutsOnlyWhitespace` | composeApp/src/commonMain/kotlin/omniaetern/kkey/compose/App.kt:127 | `trim` yields a factor of the input with a blank prefix and a blank suffix around it (with `Text.Trim` this fixes the result) |
| `Text.TrimKeepsTrimmed` | composeApp/src/commonMain/kotlin/omniaetern/kkey/compose/App.kt:127 | a text that starts and ends with non-whitespace is its own trim |
| `Text.RemoveSuffix` | composeApp/src/commonMain/kotlin/omniaetern/kkey/compose/App.kt:127 | `removeSuffix` undoes an appended suffix when the text ends with it, and is the identity otherwise |
| `Text.IndexOfFrom` | composeApp/src/commonMain/kotlin/omniaetern/kkey/compose/App.kt:134 | the search returns an occurrence at or after `from` with none between `from` and it, or none exists |
| `Text.IndexOf` | composeApp/src/commonMain/kotlin/omniaetern/kkey/compose/App.kt:134 | `indexOf` returns the first occurrence of the pattern, or reports that there is none |
| `Text.SubstringAfter` | composeApp/src/commonMain/kotlin/omniaetern/kkey/compose/App.kt:134 | `substringAfter` is the whole text when the delimiter is missing, otherwise what follows its first occurrence |
| `Text.BlankIffTrimsToEmpty` | composeApp/src/commonMain/kotlin/omniaetern/kkey/compose/App.kt:150 | the key is blank (`isNotBlank` fails) exactly when it trims to the empty text |
| `Address.Clean` | composeApp/src/commonMain/kotlin/omniaetern/kkey/compose/App.kt:127 | the cleaned address is the trimmed text less exactly one trailing `/`, when there is one |
| `Address.WithScheme` | composeApp/src/commonMain/kotlin/omniaetern/kkey/compose/App.kt:130-131 | the result starts with `http`: the cleaned text itself if it does, `http://` followed by it otherwise |
| `Address.Normalize` | composeApp/src/commonMain/kotlin/omniaetern/kkey/compose/App.kt:127-136 | the normalised address always starts with `http` |
| `Address.HasPort` | composeApp/src/commonMain/kotlin/omniaetern/kkey/compose/App.kt:134 | the test before adding the default port: the text after the first `://` (all of it when there is none) contains `:` |
| `Address.ServerListUrl` | composeApp/src/commonMain/kotlin/omniaetern/kkey/compose/App.kt:138 | the server-list URL is the normalised address followed by `/fetch/server-list` |
| `Address.DataUrl` | composeApp/src/commonMain/kotlin/omniaetern/kkey/compose/App.kt:146 | the data URL is the normalised address followed by `/fetch/data` |
| `Address.UpdateUrl` | composeApp/src/commonMain/kotlin/omniaetern/kkey/compose/App.kt:210 | the update URL is the normalised address followed by `/update` |
| `Address.NormalizePortRule` | composeApp/src/commonMain/kotlin/omniaetern/kkey/compose/App.kt:134-136 | `:7347` is appended exactly when the text after the first `://` (the whole text when there is none) has no `:`; otherwise the schemed address is used unchanged |
| `Address.AppendPortKeepsSeparator` | composeApp/src/commonMain/kotlin/omniaetern/kkey/compose/App.kt:134-136 | appending `:7347` neither creates a `://` nor moves the first one |
| `Address.AppendPortGivesPort` | composeApp/src/commonMain/kotlin/omniaetern/kkey/compose/App.kt:134-136 | after `:7347` is appended the part after the first `://` contains `:` |
| `Address.NormalizeHasPort` | composeApp/src/commonMain/kotlin/omniaetern/kkey/compose/App.kt:134-136 | in every normalised address the part after the first `://` contains `:` |
| `Address.SchemelessHttpPrefix` | composeApp/src/commonMain/kotlin/omniaetern/kkey/compose/App.kt:130-136 | a cleaned address starting with `http` but without `://` gets no scheme; the result is it, plus `:7347` when it has no `:`, and still has no `://` |
| `Address.NoColonNoSeparator` | composeApp/src/commonMain/kotlin/omniaetern/kkey/compose/App.kt:134 | a text without `:` has no `://`, so `substringAfter` returns all of it |
| `Address.HttpbinExample` | composeApp/src/commonMain/kotlin/omniaetern/kkey/compose/App.kt:127-136 | `httpbin.org` normalises to `httpbin.org:7347`, with no scheme |
| `Address.DefaultAddressExample` | composeApp/src/commonMain/kotlin/omniaetern/kkey/compose/App.kt:51 | the initial address `localhost:7347` normalises to `http://localhost:7347` |
| `Address.CleanExample` | composeApp/src/commonMain/kotlin/omniaetern/kkey/compose/App.kt:127 | ` example.com/ ` cleans to `example.com` |
| `Address.BlanksAndSlashExample` | composeApp/src/commonMain/kotlin/omniaetern/kkey/compose/App.kt:127-136 | ` example.com/ ` normalises to `http://example.com:7347` |
| `Address.NormalizeFixpoint` | composeApp/src/commonMain/kotlin/omniaetern/kkey/compose/App.kt:127-136 | a normalised address ending in neither whitespace nor `/` is unchanged by normalising again |
| `Entries.Create` | composeApp/src/commonMain/kotlin/omniaetern/kkey/compose/App.kt:445-456 | create appends exactly one entry, with the given fields, `lastModified = now`, `deleted = false`, `version = 1`, after all earlier entries, which are unchanged and in order |
| `Entries.Edit` | composeApp/src/commonMain/kotlin/omniaetern/kkey/compose/App.kt:458-468 | edit keeps length and order; every entry with the id gets the new name, password, url, description and `lastModified = now`, keeping id, tombstone and version; all others are unchanged |
| `Entries.SoftDelete` | composeApp/src/commonMain/kotlin/omniaetern/kkey/compose/App.kt:365-371 | soft-delete keeps length and order; every entry with the id becomes the same entry with `deleted = true` and `lastModified = now`; all others are unchanged |
| `Entries.Active` | composeApp/src/commonMain/kotlin/omniaetern/kkey/compose/App.kt:228 | the active list holds exactly the entries that are not deleted, and is no longer than the full list |
| `Entries.ActiveAppend` | composeApp/src/commonMain/kotlin/omniaetern/kkey/compose/App.kt:228 | the active list is the order-preserving filter: it distributes over concatenation |
| `Entries.CreateIsShownLast` | composeApp/src/commonMain/kotlin/omniaetern/kkey/compose/App.kt:391 | after create, the shown list is the previous one plus the new entry at the end, and the shown count grows by one |
| `Entries.EditCommutesWithActive` | composeApp/src/commonMain/kotlin/omniaetern/kkey/compose/App.kt:458-468 | editing then listing equals listing then editing; the shown count is unchanged |
| `Entries.SoftDeleteHidesFromActive` | composeApp/src/commonMain/kotlin/omniaetern/kkey/compose/App.kt:365-371 | after soft-deleting an id, the shown list is the previous shown list without that id; no shown entry has it |
| `Entries.SoftDeleteRetainsTombstone` | composeApp/src/commonMain/kotlin/omniaetern/kkey/compose/App.kt:365-371 | every entry with the deleted id stays in the full list as its tombstone, which is not shown |
| `Entries.UnknownIdIsNoOp` | composeApp/src/commonMain/kotlin/omniaetern/kkey/compose/App.kt:458-468 | editing or deleting an id no entry carries leaves the list as it is |
| `Entries.SoftDeleteTwice` | composeApp/src/commonMain/kotlin/omniaetern/kkey/compose/App.kt:365-371 | deleting an id twice equals deleting it once at the later time |
| `Session.PlatformDecryptResult` | composeApp/src/jvmMain/kotlin/omniaetern/kkey/compose/Platform.jvm.kt:12-27 | the platform decrypt returns the plaintext, or `Decryption Error: ` followed by the exception message when anything throws |
| `Session.PlatformDecrypt` | composeApp/src/jvmMain/kotlin/omniaetern/kkey/compose/Platform.jvm.kt:12-27 | the platform decrypt as the three-argument function Connect calls, over a cipher that yields a plaintext or throws |
| `Session.DecryptFailureRecognised` | composeApp/src/jvmMain/kotlin/omniaetern/kkey/compose/Platform.jvm.kt:25-27 | the platform decrypt's failure text always starts with `Decryption Error`, the prefix Connect tests (App.kt:156) |
| `Session.PlatformDecryptOutcome` | composeApp/src/commonMain/kotlin/omniaetern/kkey/compose/App.kt:150-162 | with both fetches 2xx and a non-blank key, a throwing cipher leaves the session connected with `Decryption Error: ` plus the message shown and the entries kept; a plaintext that is not error-like and parses is loaded |
| `Session.AfterDataFetch` | composeApp/src/commonMain/kotlin/omniaetern/kkey/compose/App.kt:145-167 | the data-fetch step branch by branch: a throw gives `Data fetch error: ` plus the message; non-2xx changes nothing; 2xx stores the envelope and, with a non-blank key, decrypts; an error-like result becomes the message; otherwise the text is kept and parsed into the entries, or a parse failure gives `Data fetch error: ` |
| `Session.AfterConnect` | composeApp/src/commonMain/kotlin/omniaetern/kkey/compose/App.kt:123-174 | the Connect handler branch by branch: the message is cleared; a throw gives `Connection failed: ` plus the message; non-2xx gives `Error <status> at <server-list URL>`; 2xx stores the list, runs the data fetch and connects |
| `Session.ConnectRequests` | composeApp/src/commonMain/kotlin/omniaetern/kkey/compose/App.kt:138-147 | Connect requests the server-list URL and, once that answered 2xx, the data URL |
| `Session.LoadsEntries` | composeApp/src/commonMain/kotlin/omniaetern/kkey/compose/App.kt:148-159 | the condition under which Connect replaces the entries: both fetches 2xx, key not blank, decrypt result not error-like, and it parses |
| `Session.ConnectFails` | composeApp/src/commonMain/kotlin/omniaetern/kkey/compose/App.kt:141-174 | the condition under which Connect leaves an error message |
| `Session.RequestUrlsShareBase` | composeApp/src/commonMain/kotlin/omniaetern/kkey/compose/App.kt:205-210 | the URLs Connect requests (App.kt:138, 146) and the one sync posts to are the same normalised base, which starts with `http` and has a port after its first `://`, followed by `/fetch/server-list`, `/fetch/data` and `/update` respectively; the data URL is requested only after a 2xx |
| `Session.ConnectedIffServerListOk` | composeApp/src/commonMain/kotlin/omniaetern/kkey/compose/App.kt:141-171 | Connect leaves the session connected exactly when it was or the server list answered 200..299, whatever the data fetch or decrypt did |
| `Session.ConnectEntries` | composeApp/src/commonMain/kotlin/omniaetern/kkey/compose/App.kt:148-162 | the entries are replaced by the parsed vault (with the decrypted text kept and no error) exactly when both fetches are 2xx, the key is not blank, the decrypt reported no error and its text parsed; otherwise they are kept |
| `Session.ConnectErrorCases` | composeApp/src/commonMain/kotlin/omniaetern/kkey/compose/App.kt:141-174 | Connect leaves an error message exactly when the server list failed, the data fetch threw, or (key not blank, data 2xx) the decrypt reported an error or its text did not parse; then no entries are loaded |
| `Session.DecryptErrorSurfaced` | composeApp/src/commonMain/kotlin/omniaetern/kkey/compose/App.kt:156-162 | a decrypt error is shown verbatim as the error message while the session is connected and entries and decrypted text are unchanged |
| `Session.SyncPost` | composeApp/src/commonMain/kotlin/omniaetern/kkey/compose/App.kt:201-213 | the POST a sync sends: the whole entry list encoded, encrypted under the key, to the update URL |
| `Session.AfterSync` | composeApp/src/commonMain/kotlin/omniaetern/kkey/compose/App.kt:199-221 | after a sync only the error message differs: cleared on 2xx, `Sync failed: <status>` otherwise, `Sync error: ` plus the message on a throw |
| `Session.SyncIsFullReplace` | composeApp/src/commonMain/kotlin/omniaetern/kkey/compose/App.kt:197-225 | sync posts to the update URL the encryption of the encoding of the whole current entry list under the key, and changes only the error message, which is cleared exactly on a 2xx reply |
| `Session.DeleteThenSyncPushesTombstone` | composeApp/src/commonMain/kotlin/omniaetern/kkey/compose/App.kt:365-372 | after a delete, the list the following sync pushes still holds the tombstone while no shown entry has the id |
| `Session.Session.constructor` | composeApp/src/commonMain/kotlin/omniaetern/kkey/compose/App.kt:51-59 | a new session has address `localhost:7347`, an empty key, no entries, no error and is disconnected |
| `Session.Session.SetAddress` | composeApp/src/commonMain/kotlin/omniaetern/kkey/compose/App.kt:95 | typing in the address field changes only the address |
| `Session.Session.SetKey` | composeApp/src/commonMain/kotlin/omniaetern/kkey/compose/App.kt:106 | typing in the key field changes only the key |
| `Session.Session.Connect` | composeApp/src/commonMain/kotlin/omniaetern/kkey/compose/App.kt:121-177 | the URLs requested are `ConnectRequests` and the state after the handler is `AfterConnect` of the state before; connected iff it was or the server list answered 2xx |
| `Session.Session.FetchData` | composeApp/src/commonMain/kotlin/omniaetern/kkey/compose/App.kt:145-167 | the state after the data fetch is `AfterDataFetch` of the state before |
| `Session.Session.Sync` | composeApp/src/commonMain/kotlin/omniaetern/kkey/compose/App.kt:196-225 | the POST sent is `SyncPost` of the state before and the state after is `AfterSync` of it |
| `Session.Session.AddEntry` | composeApp/src/commonMain/kotlin/omniaetern/kkey/compose/App.kt:444-456 | saving the Add dialog sets the entries to `Create` of the old entries and changes nothing else; the shown list gains the new entry at its end |
| `Session.Session.EditEntry` | composeApp/src/commonMain/kotlin/omniaetern/kkey/compose/App.kt:457-468 | saving the Edit dialog sets the entries to `Edit` of the old entries and changes nothing else; the shown list is the edited old shown list |
| `Session.Session.DeleteEntry` | composeApp/src/commonMain/kotlin/omniaetern/kkey/compose/App.kt:364-371 | the Delete button sets the entries to `SoftDelete` of the old entries and changes nothing else; the shown list is the old shown list without that id |
| `Session.Session.Disconnect` | composeApp/src/commonMain/kotlin/omniaetern/kkey/compose/App.kt:252 | Disconnect only clears the connected flag; key, entries and everything else are kept |

## Left out

- The Compose UI (layout, dialogs, text fields, icons, the password show/hide toggle, the dialog flags `showAddDialog` and `editingEntry`) and the window bootstrap in `main.kt`: presentation only.
- The Ktor HTTP client, the coroutines started with `scope.launch` and the `isLoading` flag that disables the buttons: network I/O and concurrency. Each exchange is an input `Reply`; a reply whose body cannot be read (server-list text, data JSON) is given as `Failed`, which is how the source's exception handlers see it. The rendering of a status as text (Ktor's `HttpStatusCode.toString`) is part of the input.
- The cryptography in `Platform.jvm.kt` and `Platform.android.kt` (SHA-256 key derivation, AES-GCM with a 12-byte IV and a 128-bit tag, Base64): library calls that are not visible. `decrypt` and `encrypt` are function parameters; only decrypt's failure convention is modelled (`PlatformDecryptResult`, `PlatformDecrypt`). Encrypt's failure result `("", "")` is one of the values the `encrypt` parameter may return, and sync posts it like any other.
- `Platform.ios.kt`, `Platform.js.kt` (constant stubs) and `Platform.kt` (the interface only).
- kotlinx JSON encoding and decoding of `List<PasswordEntry>` and `SecureRequest`: library code. Decoding is a parameter returning the entries or an exception message; encoding is a parameter returning text.
- The clock and id generation (platform-name hash plus milliseconds): `now` and the new id are parameters. Ids are not assumed unique; the by-id operations act on every matching entry.
- Entries.Edit and Entries.SoftDelete read the clock once per operation and stamp every matching entry with the same `now`; the source reads the clock once per matching entry, so two entries sharing an id may get different `lastModified` values there but never here.
- Strings are sequences of Unicode scalar values here, while Kotlin strings are UTF-16 code units: a character above U+FFFF is one element here and two in Kotlin, and lone surrogates cannot be represented. Indices returned by `Text.IndexOf` differ after such a character; the results of trimming, `removeSuffix` and `substringAfter` do not, since every whitespace character, `:` and `/` lie below U+FFFF.
- The sync that every add, edit and delete starts (App.kt:372, 472) is a separate call to `Session.Session.Sync` after the entry method; `Session.DeleteThenSyncPushesTombstone` states the combination for delete.
- The `lastModified` and `version` fields are Kotlin `Long` and `Int`; they are unbounded integers here, which changes nothing since the model never does arithmetic on them.
- `e.message` may be `null` in Kotlin, rendered as `null` in the message text; the model's message is an arbitrary string, which includes that rendering.
