/**
 * The client's session state and the Connect, sync, entry-editing and Disconnect handlers.
 * The HTTP replies, the platform's decrypt/encrypt and the JSON (de)serialisation are
 * inputs: replies are values, the others are functions the model does not look inside.
 */
module Session {
  import opened Wrappers
  import opened Text
  import opened Address
  import opened Entries

  /** The encrypted vault as exchanged with the server: ciphertext and IV, both base64 text. */
  datatype SecureRequest = SecureRequest(encryptedData: string, iv: string)

  /**
   * What one HTTP exchange produced: either an exception was thrown (by the request, or by
   * reading the body) with its message, or a response arrived with a status code, the text
   * the status renders as, and the body.
   */
  datatype Reply<T> = Failed(message: string) | Received(status: int, statusText: string, body: T)

  /** A POST the client sends: where to, and what. */
  datatype Post = Post(url: string, body: SecureRequest)

  /** Every piece of session state the handlers read or write. */
  datatype SessionState = SessionState(
    address: string,
    key: string,
    serverList: string,
    fetchedData: Option<SecureRequest>,
    decryptedData: Option<string>,
    passwordEntries: seq<PasswordEntry>,
    errorMessage: Option<string>,
    isConnected: bool)

  const DefaultAddress := "localhost:7347"
  const DecryptionErrorPrefix := "Decryption Error"

  predicate IsSuccess(status: int) {
    200 <= status <= 299
  }

  predicate Succeeded<T>(reply: Reply<T>) {
    reply.Received? && IsSuccess(reply.status)
  }

  /** The platform decrypt's convention: a failure comes back as text starting "Decryption Error: ". */
  function PlatformDecryptResult(outcome: Result<string>): string {
    match outcome
    case Ok(plaintext) => plaintext
    case Err(message) => "Decryption Error: " + message
  }

  /** The platform decrypt built on a cipher that either yields the plaintext or throws. */
  function PlatformDecrypt(cipher: (string, string, string) -> Result<string>): (string, string, string) -> string {
    (encryptedData, iv, password) => PlatformDecryptResult(cipher(encryptedData, iv, password))
  }

  /** Every failure reported by the platform decrypt is recognised as one by the session. */
  lemma DecryptFailureRecognised(message: string)
    ensures StartsWith(PlatformDecryptResult(Err(message)), DecryptionErrorPrefix)
  {
    assert PlatformDecryptResult(Err(message))[..|DecryptionErrorPrefix|] == DecryptionErrorPrefix;
  }

  /**
   * The state after the data fetch that Connect makes once the server list answered 2xx:
   * a thrown exception or a failed body parse is reported as a data-fetch error; a non-2xx
   * data status, or a blank key, silently leaves the entries alone; a "Decryption Error"
   * result is reported verbatim; otherwise the decrypted text is kept and parsed into the entries.
   */
  function AfterDataFetch(s: SessionState, dataReply: Reply<SecureRequest>,
                          decrypt: (string, string, string) -> string,
                          parse: string -> Result<seq<PasswordEntry>>): SessionState
  {
    match dataReply
    case Failed(message) => s.(errorMessage := Some("Data fetch error: " + message))
    case Received(status, _, envelope) =>
      if !IsSuccess(status) then s
      else
        var fetched := s.(fetchedData := Some(envelope));
        if IsBlank(s.key) then fetched
        else
          var decrypted := decrypt(envelope.encryptedData, envelope.iv, s.key);
          if StartsWith(decrypted, DecryptionErrorPrefix) then fetched.(errorMessage := Some(decrypted))
          else
            var kept := fetched.(decryptedData := Some(decrypted));
            match parse(decrypted)
            case Ok(entries) => kept.(passwordEntries := entries)
            case Err(message) => kept.(errorMessage := Some("Data fetch error: " + message))
  }

  /** The state after Connect, given the two replies and the platform functions. */
  function AfterConnect(s: SessionState, serverListReply: Reply<string>, dataReply: Reply<SecureRequest>,
                        decrypt: (string, string, string) -> string,
                        parse: string -> Result<seq<PasswordEntry>>): SessionState
  {
    var cleared := s.(errorMessage := None);
    match serverListReply
    case Failed(message) => cleared.(errorMessage := Some("Connection failed: " + message))
    case Received(status, statusText, list) =>
      if IsSuccess(status) then
        AfterDataFetch(cleared.(serverList := list), dataReply, decrypt, parse).(isConnected := true)
      else
        cleared.(errorMessage := Some("Error " + statusText + " at " + ServerListUrl(s.address)))
  }

  /** The text the platform decrypt returns for the fetched envelope under the session key. */
  function Decrypted(s: SessionState, dataReply: Reply<SecureRequest>,
                     decrypt: (string, string, string) -> string): string
    requires dataReply.Received?
  {
    decrypt(dataReply.body.encryptedData, dataReply.body.iv, s.key)
  }

  /**
   * When Connect replaces the entries: both fetches answered 2xx, the key is not blank, the
   * decrypt did not report an error and its text parsed.
   */
  predicate LoadsEntries(s: SessionState, serverListReply: Reply<string>, dataReply: Reply<SecureRequest>,
                         decrypt: (string, string, string) -> string,
                         parse: string -> Result<seq<PasswordEntry>>)
  {
    Succeeded(serverListReply) && Succeeded(dataReply) && !IsBlank(s.key)
    && !StartsWith(Decrypted(s, dataReply, decrypt), DecryptionErrorPrefix)
    && parse(Decrypted(s, dataReply, decrypt)).Ok?
  }

  /**
   * When Connect leaves an error message: the server list failed, or the data fetch threw,
   * or, with a non-blank key, the decrypt reported an error or its text did not parse.
   */
  predicate ConnectFails(s: SessionState, serverListReply: Reply<string>, dataReply: Reply<SecureRequest>,
                         decrypt: (string, string, string) -> string,
                         parse: string -> Result<seq<PasswordEntry>>)
  {
    !Succeeded(serverListReply) || dataReply.Failed?
    || (Succeeded(dataReply) && !IsBlank(s.key)
        && (StartsWith(Decrypted(s, dataReply, decrypt), DecryptionErrorPrefix)
            || parse(Decrypted(s, dataReply, decrypt)).Err?))
  }

  /** Connect marks the session connected exactly when the server list answered 2xx, whatever the data fetch did. */
  lemma ConnectedIffServerListOk(s: SessionState, serverListReply: Reply<string>, dataReply: Reply<SecureRequest>,
                                 decrypt: (string, string, string) -> string,
                                 parse: string -> Result<seq<PasswordEntry>>)
    ensures AfterConnect(s, serverListReply, dataReply, decrypt, parse).isConnected
        == (s.isConnected || Succeeded(serverListReply))
  {
  }

  /** Connect replaces the entries with the parsed vault when it loads one, and otherwise keeps them. */
  lemma ConnectEntries(s: SessionState, serverListReply: Reply<string>, dataReply: Reply<SecureRequest>,
                       decrypt: (string, string, string) -> string,
                       parse: string -> Result<seq<PasswordEntry>>)
    ensures var t := AfterConnect(s, serverListReply, dataReply, decrypt, parse);
      if LoadsEntries(s, serverListReply, dataReply, decrypt, parse)
      then t.passwordEntries == parse(Decrypted(s, dataReply, decrypt)).value
        && t.decryptedData == Some(Decrypted(s, dataReply, decrypt))
        && t.errorMessage == None
      else t.passwordEntries == s.passwordEntries
  {
  }

  /** Connect leaves an error message exactly in the failing cases, and never loads entries then. */
  lemma ConnectErrorCases(s: SessionState, serverListReply: Reply<string>, dataReply: Reply<SecureRequest>,
                          decrypt: (string, string, string) -> string,
                          parse: string -> Result<seq<PasswordEntry>>)
    ensures var t := AfterConnect(s, serverListReply, dataReply, decrypt, parse);
      t.errorMessage.Some? == ConnectFails(s, serverListReply, dataReply, decrypt, parse)
    ensures ConnectFails(s, serverListReply, dataReply, decrypt, parse)
        ==> !LoadsEntries(s, serverListReply, dataReply, decrypt, parse)
  {
  }

  /**
   * A decrypt that reports an error leaves the session connected but with that report as the
   * error message and with the entries and the decrypted text untouched.
   */
  lemma DecryptErrorSurfaced(s: SessionState, serverListReply: Reply<string>, dataReply: Reply<SecureRequest>,
                             decrypt: (string, string, string) -> string,
                             parse: string -> Result<seq<PasswordEntry>>)
    requires Succeeded(serverListReply) && Succeeded(dataReply) && !IsBlank(s.key)
    requires StartsWith(Decrypted(s, dataReply, decrypt), DecryptionErrorPrefix)
    ensures var t := AfterConnect(s, serverListReply, dataReply, decrypt, parse);
      t.isConnected && t.errorMessage == Some(Decrypted(s, dataReply, decrypt))
      && t.passwordEntries == s.passwordEntries && t.decryptedData == s.decryptedData
  {
  }

  /**
   * Connect over the platform decrypt: when the cipher throws, the session connects, shows
   * "Decryption Error: " and the exception's message, and keeps its entries; when it yields a
   * plaintext that does not look like an error and parses, the parsed entries are loaded.
   */
  lemma PlatformDecryptOutcome(s: SessionState, serverListReply: Reply<string>, dataReply: Reply<SecureRequest>,
                               cipher: (string, string, string) -> Result<string>,
                               parse: string -> Result<seq<PasswordEntry>>)
    requires Succeeded(serverListReply) && Succeeded(dataReply) && !IsBlank(s.key)
    ensures var t := AfterConnect(s, serverListReply, dataReply, PlatformDecrypt(cipher), parse);
      match cipher(dataReply.body.encryptedData, dataReply.body.iv, s.key)
      case Err(message) =>
        t.isConnected && t.errorMessage == Some("Decryption Error: " + message)
        && t.passwordEntries == s.passwordEntries
      case Ok(plaintext) =>
        !StartsWith(plaintext, DecryptionErrorPrefix) && parse(plaintext).Ok?
        ==> t.isConnected && t.errorMessage == None && t.passwordEntries == parse(plaintext).value
  {
    var outcome := cipher(dataReply.body.encryptedData, dataReply.body.iv, s.key);
    assert Decrypted(s, dataReply, PlatformDecrypt(cipher)) == PlatformDecryptResult(outcome);
    if outcome.Err? {
      DecryptFailureRecognised(outcome.message);
    }
  }

  /** The URLs Connect requests: the server list, then, once that answered 2xx, the data. */
  function ConnectRequests(s: SessionState, serverListReply: Reply<string>): seq<string> {
    [ServerListUrl(s.address)] + (if Succeeded(serverListReply) then [DataUrl(s.address)] else [])
  }

  /**
   * Connect and sync talk to the same normalised base: it starts with "http" and has a port
   * after its first "://", and every request is that base followed by its own path.
   */
  lemma RequestUrlsShareBase(s: SessionState, serverListReply: Reply<string>,
                             encode: seq<PasswordEntry> -> string,
                             encrypt: (string, string) -> (string, string))
    ensures var base := Normalize(s.address);
      var gets := ConnectRequests(s, serverListReply);
      var post := SyncPost(s, encode, encrypt).url;
      StartsWith(base, "http") && HasPort(base)
      && |gets| == (if Succeeded(serverListReply) then 2 else 1)
      && (forall u :: u in gets + [post] ==> StartsWith(u, base))
      && gets[0][|base|..] == ServerListPath
      && (Succeeded(serverListReply) ==> gets[1][|base|..] == DataPath)
      && post[|base|..] == UpdatePath
  {
    NormalizeHasPort(s.address);
  }

  /** The POST a sync sends: the whole entry list, tombstones included, encoded, encrypted, to the update URL. */
  function SyncPost(s: SessionState, encode: seq<PasswordEntry> -> string,
                    encrypt: (string, string) -> (string, string)): Post
  {
    var sealed := encrypt(encode(s.passwordEntries), s.key);
    Post(UpdateUrl(s.address), SecureRequest(sealed.0, sealed.1))
  }

  /** The state after a sync: only the error message changes, set on a thrown exception or a non-2xx reply. */
  function AfterSync(s: SessionState, reply: Reply<()>): SessionState {
    match reply
    case Failed(message) => s.(errorMessage := Some("Sync error: " + message))
    case Received(status, statusText, _) =>
      s.(errorMessage := if IsSuccess(status) then None else Some("Sync failed: " + statusText))
  }

  /**
   * Sync is a full replace: what it pushes depends only on the current entries, key and
   * address, never on what the server held; and it changes nothing but the error message.
   */
  lemma SyncIsFullReplace(s: SessionState, encode: seq<PasswordEntry> -> string,
                          encrypt: (string, string) -> (string, string), reply: Reply<()>)
    ensures SyncPost(s, encode, encrypt).body.encryptedData == encrypt(encode(s.passwordEntries), s.key).0
    ensures SyncPost(s, encode, encrypt).body.iv == encrypt(encode(s.passwordEntries), s.key).1
    ensures SyncPost(s, encode, encrypt).url == Normalize(s.address) + UpdatePath
    ensures AfterSync(s, reply) == s.(errorMessage := AfterSync(s, reply).errorMessage)
    ensures AfterSync(s, reply).errorMessage.None? <==> Succeeded(reply)
  {
  }

  /**
   * Deleting an entry and then syncing pushes a list that still holds the entry as a
   * tombstone, while the shown list no longer has its id.
   */
  lemma DeleteThenSyncPushesTombstone(s: SessionState, id: string, now: int, e: PasswordEntry,
                                      encode: seq<PasswordEntry> -> string,
                                      encrypt: (string, string) -> (string, string))
    requires e in s.passwordEntries && e.id == id
    ensures var deleted := s.(passwordEntries := SoftDelete(s.passwordEntries, id, now));
      e.(deleted := true, lastModified := now) in deleted.passwordEntries
      && SyncPost(deleted, encode, encrypt).body.encryptedData
         == encrypt(encode(SoftDelete(s.passwordEntries, id, now)), s.key).0
      && forall a :: a in Active(deleted.passwordEntries) ==> a.id != id
  {
    SoftDeleteRetainsTombstone(s.passwordEntries, id, now, e);
    SoftDeleteHidesFromActive(s.passwordEntries, id, now);
  }

  /** The session object the UI holds: one mutable field per piece of state. */
  class Session {
    var address: string
    var key: string
    var serverList: string
    var fetchedData: Option<SecureRequest>
    var decryptedData: Option<string>
    var passwordEntries: seq<PasswordEntry>
    var errorMessage: Option<string>
    var isConnected: bool

    function State(): SessionState
      reads this
    {
      SessionState(address, key, serverList, fetchedData, decryptedData, passwordEntries, errorMessage, isConnected)
    }

    /** The entries shown, and counted, in the connected view. */
    function ShownEntries(): seq<PasswordEntry>
      reads this
    {
      Active(passwordEntries)
    }

    /** A fresh session: the default address, no key, no entries, not connected. */
    constructor ()
      ensures State() == SessionState(DefaultAddress, "", "", None, None, [], None, false)
    {
      address := DefaultAddress;
      key := "";
      serverList := "";
      fetchedData := None;
      decryptedData := None;
      passwordEntries := [];
      errorMessage := None;
      isConnected := false;
    }

    method SetAddress(text: string)
      modifies this
      ensures State() == old(State()).(address := text)
    {
      address := text;
    }

    method SetKey(text: string)
      modifies this
      ensures State() == old(State()).(key := text)
    {
      key := text;
    }

    /** The Connect button's handler, step by step. */
    method Connect(serverListReply: Reply<string>, dataReply: Reply<SecureRequest>,
                   decrypt: (string, string, string) -> string,
                   parse: string -> Result<seq<PasswordEntry>>) returns (gets: seq<string>)
      modifies this
      ensures gets == ConnectRequests(old(State()), serverListReply)
      ensures State() == AfterConnect(old(State()), serverListReply, dataReply, decrypt, parse)
      ensures isConnected == (old(isConnected) || Succeeded(serverListReply))
    {
      ghost var before := State();
      errorMessage := None;
      var targetUrl := ServerListUrl(address);
      gets := [targetUrl];
      match serverListReply {
        case Failed(message) =>
          errorMessage := Some("Connection failed: " + message);
        case Received(status, statusText, list) =>
          if IsSuccess(status) {
            serverList := list;
            assert State() == before.(errorMessage := None).(serverList := list);
            gets := gets + [DataUrl(address)];
            FetchData(dataReply, decrypt, parse);
            ghost var fetched := State();
            isConnected := true;
            assert State() == fetched.(isConnected := true);
          } else {
            errorMessage := Some("Error " + statusText + " at " + targetUrl);
          }
      }
    }

    /** The data fetch inside Connect, with its own exception handler. */
    method FetchData(dataReply: Reply<SecureRequest>, decrypt: (string, string, string) -> string,
                     parse: string -> Result<seq<PasswordEntry>>)
      modifies this
      ensures State() == AfterDataFetch(old(State()), dataReply, decrypt, parse)
    {
      match dataReply {
        case Failed(message) =>
          errorMessage := Some("Data fetch error: " + message);
        case Received(status, _, envelope) =>
          if IsSuccess(status) {
            fetchedData := Some(envelope);
            if !IsBlank(key) {
              var decrypted := decrypt(envelope.encryptedData, envelope.iv, key);
              if !StartsWith(decrypted, DecryptionErrorPrefix) {
                decryptedData := Some(decrypted);
                match parse(decrypted) {
                  case Ok(entries) => passwordEntries := entries;
                  case Err(message) => errorMessage := Some("Data fetch error: " + message);
                }
              } else {
                errorMessage := Some(decrypted);
              }
            }
          }
      }
    }

    /** The sync handler: builds and sends the POST, then records the outcome of the reply. */
    method Sync(encode: seq<PasswordEntry> -> string, encrypt: (string, string) -> (string, string),
                reply: Reply<()>) returns (request: Post)
      modifies this
      ensures request == SyncPost(old(State()), encode, encrypt)
      ensures State() == AfterSync(old(State()), reply)
    {
      errorMessage := None;
      var json := encode(passwordEntries);
      var sealed := encrypt(json, key);
      var body := SecureRequest(sealed.0, sealed.1);
      request := Post(UpdateUrl(address), body);
      match reply {
        case Failed(message) =>
          errorMessage := Some("Sync error: " + message);
        case Received(status, statusText, _) =>
          if !IsSuccess(status) {
            errorMessage := Some("Sync failed: " + statusText);
          }
      }
    }

    /** Saving the Add dialog: the new entry is appended (the caller then syncs). */
    method AddEntry(id: string, name: string, password: string, url: string, description: string, now: int)
      modifies this
      ensures State() == old(State()).(passwordEntries := Create(old(passwordEntries), id, name, password, url, description, now))
      ensures ShownEntries() == old(ShownEntries()) + [PasswordEntry(id, name, password, url, description, now, false, 1)]
    {
      CreateIsShownLast(passwordEntries, id, name, password, url, description, now);
      passwordEntries := Create(passwordEntries, id, name, password, url, description, now);
    }

    /** Saving the Edit dialog for the entry with the given id (the caller then syncs). */
    method EditEntry(id: string, name: string, password: string, url: string, description: string, now: int)
      modifies this
      ensures State() == old(State()).(passwordEntries := Edit(old(passwordEntries), id, name, password, url, description, now))
      ensures ShownEntries() == Edit(old(ShownEntries()), id, name, password, url, description, now)
    {
      EditCommutesWithActive(passwordEntries, id, name, password, url, description, now);
      passwordEntries := Edit(passwordEntries, id, name, password, url, description, now);
    }

    /** The row's Delete button: the entry becomes a tombstone (the caller then syncs). */
    method DeleteEntry(id: string, now: int)
      modifies this
      ensures State() == old(State()).(passwordEntries := SoftDelete(old(passwordEntries), id, now))
      ensures ShownEntries() == WithoutId(old(ShownEntries()), id)
    {
      SoftDeleteHidesFromActive(passwordEntries, id, now);
      passwordEntries := SoftDelete(passwordEntries, id, now);
    }

    /** The Disconnect button: only the connected flag is cleared; key and entries are kept. */
    method Disconnect()
      modifies this
      ensures State() == old(State()).(isConnected := false)
    {
      isConnected := false;
    }
  }
}
