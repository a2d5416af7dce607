/**
 * The iOS app's service objects: the HTTP `ConnectionManager` with its
 * recent-connection list, the `ChatService` message list, and the
 * `NoiseManager` key loaded from or created in the keychain. HTTP replies,
 * dates, URL parsing, key validity and key generation are inputs; the
 * keychain is a map from account to data.
 */
module IOSServices {
  import opened Wrappers
  import opened Json
  import opened NoiseStub

  const MaxRecent: nat := 5

  datatype RecentConnection = RecentConnection(deviceName: string, serverURL: string, lastConnected: int)

  /**
   * `saveConnection`'s list update: the new entry first, the previous list
   * after it in order, and its last entry dropped when that makes more
   * than five. Nothing is de-duplicated.
   */
  function SaveConnection(recent: seq<RecentConnection>, entry: RecentConnection): (r: seq<RecentConnection>)
    ensures |r| >= 1 && r[0] == entry
  {
    if |recent| + 1 > MaxRecent then ([entry] + recent)[..|recent|] else [entry] + recent
  }

  /** The front is the new entry, the rest is the old list in order, and five entries stay five. */
  lemma SaveConnectionShape(recent: seq<RecentConnection>, entry: RecentConnection)
    ensures var r := SaveConnection(recent, entry);
            r[1..] == recent[..|r| - 1]
            && |r| == (if |recent| < MaxRecent then |recent| + 1 else |recent|)
            && (|recent| <= MaxRecent ==> |r| <= MaxRecent)
  {
    var r := SaveConnection(recent, entry);
    assert r[1..] == recent[..|r| - 1];
  }

  /** Saving the same entry twice lists it twice. */
  lemma SaveConnectionKeepsDuplicates(recent: seq<RecentConnection>, entry: RecentConnection)
    requires |recent| + 2 <= MaxRecent
    ensures var r := SaveConnection(SaveConnection(recent, entry), entry);
            |r| == |recent| + 2 && r[0] == entry && r[1] == entry
  {
  }

  /** What the connect request's completion handler receives. */
  datatype ConnectOutcome =
    | TransportFailed(description: string)  // `error` is set
    | Responded(status: Option<nat>)        // the status of an HTTP response, if it is one

  const DeviceName: string := "Mac Studio"

  class ConnectionManager {
    var isConnected: bool
    var recentConnections: seq<RecentConnection>
    var connectionError: Option<string>
    /** `serverURL`, as its absolute string. */
    var serverURL: Option<string>
    /** The list last encoded under "recentConnections". */
    var persisted: Option<seq<RecentConnection>>

    /** `init`: the stored list, when it decodes. */
    constructor (stored: Option<seq<RecentConnection>>)
      ensures recentConnections == stored.GetOr([]) && persisted == stored
      ensures !isConnected && connectionError.None? && serverURL.None?
    {
      isConnected := false;
      recentConnections := stored.GetOr([]);
      connectionError := None;
      serverURL := None;
      persisted := stored;
    }

    /**
     * `connectToServer` with the request's outcome: an error, a 200
     * response (the connection is saved at `now`), or anything else.
     */
    method ConnectToServer(url: string, outcome: ConnectOutcome, now: int)
      modifies this
      ensures serverURL == Some(url)
      ensures outcome.TransportFailed? ==>
                !isConnected && connectionError == Some(outcome.description)
                && recentConnections == old(recentConnections) && persisted == old(persisted)
      ensures outcome == Responded(Some(200)) ==>
                isConnected && connectionError.None?
                && recentConnections == SaveConnection(old(recentConnections), RecentConnection(DeviceName, url, now))
                && persisted == Some(recentConnections)
      ensures outcome.Responded? && outcome != Responded(Some(200)) ==>
                !isConnected && connectionError == Some("Failed to connect to server")
                && recentConnections == old(recentConnections) && persisted == old(persisted)
    {
      serverURL := Some(url);
      match outcome {
        case TransportFailed(description) =>
          connectionError := Some(description);
          isConnected := false;
        case Responded(status) =>
          if status == Some(200) {
            isConnected := true;
            SaveConnectionEntry(url, now);
            connectionError := None;
          } else {
            connectionError := Some("Failed to connect to server");
            isConnected := false;
          }
      }
    }

    /** `saveConnection`: insert at the front, drop the last past five, persist. */
    method SaveConnectionEntry(url: string, now: int)
      modifies this
      ensures recentConnections == SaveConnection(old(recentConnections), RecentConnection(DeviceName, url, now))
      ensures persisted == Some(recentConnections)
      ensures isConnected == old(isConnected) && connectionError == old(connectionError) && serverURL == old(serverURL)
    {
      ghost var before := recentConnections;
      var entry := RecentConnection(DeviceName, url, now);
      recentConnections := [entry] + recentConnections;
      if |recentConnections| > MaxRecent {
        recentConnections := recentConnections[..|recentConnections| - 1];
      }
      assert recentConnections == SaveConnection(before, entry);
      persisted := Some(recentConnections);
    }

    /** `connect(to:)`: `parsed` is `URL(string:)` of the entry's text; without one nothing happens. */
    method ConnectTo(connection: RecentConnection, parsed: Option<string>, outcome: ConnectOutcome, now: int)
      modifies this
      ensures parsed.None? ==>
                isConnected == old(isConnected) && recentConnections == old(recentConnections)
                && connectionError == old(connectionError) && serverURL == old(serverURL) && persisted == old(persisted)
      ensures parsed.Some? ==> serverURL == parsed
      ensures parsed.Some? ==> (isConnected <==> outcome == Responded(Some(200)))
    {
      if parsed.Some? {
        ConnectToServer(parsed.value, outcome, now);
      }
    }

    /** `disconnect`: the list is kept. */
    method Disconnect()
      modifies this
      ensures !isConnected && serverURL.None?
      ensures recentConnections == old(recentConnections) && persisted == old(persisted)
      ensures connectionError == old(connectionError)
    {
      isConnected := false;
      serverURL := None;
    }
  }

  datatype ChatMessage = ChatMessage(content: string, isUser: bool)

  /** An `NSError` of the chat service, or another error, with its `localizedDescription`. */
  datatype ChatError = ChatError(code: Option<int>, description: string)

  /** What the chat request came back with. */
  datatype ChatReply =
    | RequestFailed(description: string)                     // `URLSession` threw
    | HttpResponse(status: Option<nat>, body: Result<Json, string>)  // the parse error's description on failure

  /** `sendToServer`'s classification of the reply. */
  function SendToServer(reply: ChatReply): (r: Result<string, ChatError>)
    ensures reply.HttpResponse? && reply.status != Some(200) ==>
              r == Failure(ChatError(Some(2), "Invalid response from server"))
    ensures r.Success? <==> reply.HttpResponse? && reply.status == Some(200) && reply.body.Success?
                            && GetString(reply.body.value, "response").Some?
    ensures r.Success? ==> Some(r.value) == GetString(reply.body.value, "response")
    ensures reply.HttpResponse? && reply.status == Some(200) && reply.body.Success?
            && GetString(reply.body.value, "response").None? ==>
              r == Failure(ChatError(Some(3), "Invalid response format"))
  {
    match reply
    case RequestFailed(d) => Failure(ChatError(None, d))
    case HttpResponse(status, body) =>
      if status != Some(200) then Failure(ChatError(Some(2), "Invalid response from server"))
      else if body.Failure? then Failure(ChatError(None, body.error))
      else if GetString(body.value, "response").Some? then Success(GetString(body.value, "response").value)
      else Failure(ChatError(Some(3), "Invalid response format"))
  }

  /** The message shown for a failed send. */
  function ErrorMessage(e: ChatError): (m: ChatMessage)
    ensures !m.isUser && m.content == "Error: " + e.description
  {
    ChatMessage("Error: " + e.description, false)
  }

  class ChatService {
    var messages: seq<ChatMessage>
    var isLoading: bool
    var lastTTFT: Option<int>

    constructor ()
      ensures messages == [] && !isLoading && lastTTFT.None?
    {
      messages := [];
      isLoading := false;
      lastTTFT := None;
    }

    /**
     * `sendMessage`. `serverURL` is the connection manager's base URL,
     * `reply` what the request yields, `start` and `end` the clock (in
     * milliseconds) before the request and after it. `loadingDuringRequest`
     * is the `isLoading` flag while the request is out.
     */
    method SendMessage(text: string, serverURL: Option<string>, reply: ChatReply, start: int, end: int)
      returns (loadingDuringRequest: bool)
      modifies this
      ensures loadingDuringRequest && !isLoading
      ensures |messages| == |old(messages)| + 2
      ensures messages[..|old(messages)| + 1] == old(messages) + [ChatMessage(text, true)]
      ensures serverURL.None? ==>
                messages[|messages| - 1] == ErrorMessage(ChatError(Some(1), "Not connected to server"))
                && lastTTFT == old(lastTTFT)
      ensures serverURL.Some? && SendToServer(reply).Success? ==>
                messages[|messages| - 1] == ChatMessage(SendToServer(reply).value, false)
                && lastTTFT == Some(end - start)
      ensures serverURL.Some? && SendToServer(reply).Failure? ==>
                messages[|messages| - 1] == ErrorMessage(SendToServer(reply).error)
                && lastTTFT == old(lastTTFT)
    {
      messages := messages + [ChatMessage(text, true)];
      ghost var afterUser := messages;
      isLoading := true;
      loadingDuringRequest := isLoading;
      var result: Result<string, ChatError>;
      if serverURL.Some? {
        result := SendToServer(reply);
      } else {
        result := Failure(ChatError(Some(1), "Not connected to server"));
      }
      if result.Success? {
        lastTTFT := Some(end - start);
        messages := messages + [ChatMessage(result.value, false)];
      } else {
        messages := messages + [ErrorMessage(result.error)];
      }
      assert messages[..|old(messages)| + 1] == afterUser;
      isLoading := false;
    }
  }

  /** The keychain: generic-password items by account. */
  class Keychain {
    var items: map<string, seq<Byte>>

    constructor (items: map<string, seq<Byte>>)
      ensures this.items == items
    {
      this.items := items;
    }

    /** `KeychainHelper.save`: delete the account's item, then add the new one. */
    method Save(account: string, data: seq<Byte>)
      modifies this
      ensures items == old(items)[account := data]
      ensures forall a :: a != account ==> (a in items <==> a in old(items))
    {
      items := map a | a in items && a != account :: items[a];
      items := items[account := data];
    }

    /** `KeychainHelper.load`. */
    function Load(account: string): (r: Option<seq<Byte>>)
      reads this
      ensures r.Some? <==> account in items
      ensures r.Some? ==> r.value == items[account]
    {
      if account in items then Some(items[account]) else None
    }
  }

  const KeyAccount: string := "noisePrivateKey"

  /**
   * `loadOrGenerateKey` on the stored data: a stored key that is valid is
   * used and nothing is saved; otherwise the generated key is used and
   * saved.
   */
  function LoadOrGenerate(stored: Option<seq<Byte>>, isValid: seq<Byte> -> bool, generated: seq<Byte>)
    : (r: (seq<Byte>, bool))
    ensures stored.Some? && isValid(stored.value) ==> r == (stored.value, false)
    ensures !(stored.Some? && isValid(stored.value)) ==> r == (generated, true)
  {
    if stored.Some? && isValid(stored.value) then (stored.value, false) else (generated, true)
  }

  /** An init over the keychain a first init left behind loads the same key and saves nothing. */
  lemma SecondInitSameKey(store: map<string, seq<Byte>>, isValid: seq<Byte> -> bool, g1: seq<Byte>, g2: seq<Byte>)
    requires isValid(g1)
    ensures var (k1, saved) := LoadOrGenerate(if KeyAccount in store then Some(store[KeyAccount]) else None, isValid, g1);
            var after := if saved then store[KeyAccount := k1] else store;
            LoadOrGenerate(Some(after[KeyAccount]), isValid, g2) == (k1, false)
            && KeyAccount in after
  {
  }

  class KeyManager {
    var privateKey: Option<seq<Byte>>
    const keychain: Keychain

    /**
     * `init`, which runs `loadOrGenerateKey`. `isValid` stands for
     * `PrivateKey(rawRepresentation:)` succeeding and `generated` for the
     * raw form of `PrivateKey()`, which is always a valid key.
     */
    constructor (keychain: Keychain, isValid: seq<Byte> -> bool, generated: seq<Byte>)
      requires isValid(generated)
      modifies keychain
      ensures this.keychain == keychain
      ensures var (key, save) := LoadOrGenerate(old(keychain.Load(KeyAccount)), isValid, generated);
              privateKey == Some(key)
              && keychain.items == (if save then old(keychain.items)[KeyAccount := key] else old(keychain.items))
      ensures privateKey.Some? && isValid(privateKey.value)
    {
      this.keychain := keychain;
      var stored := keychain.Load(KeyAccount);
      var key: Option<seq<Byte>> := None;
      if stored.Some? && isValid(stored.value) {
        key := stored;
      }
      if key.None? {
        key := Some(generated);
        keychain.Save(KeyAccount, generated);
      }
      privateKey := key;
    }

    /** `publicKey`: `derive` stands for the Curve25519 public-key derivation. */
    function PublicKey(derive: seq<Byte> -> seq<Byte>): (r: Option<seq<Byte>>)
      reads this
      ensures r.None? <==> privateKey.None?
      ensures r.Some? ==> r.value == derive(privateKey.value)
    {
      if privateKey.Some? then Some(derive(privateKey.value)) else None
    }
  }
}
