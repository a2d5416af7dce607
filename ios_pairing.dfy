/**
 * The iOS app's pairing client (the `ConnectionManager` of the single-file
 * app, its QR scanner hook and its chat view's message handler). WebRTC is
 * reduced to whether a data channel exists and whether the answer was
 * accepted; JSON decoding of inbound messages is an input, and outbound
 * messages are kept as the JSON objects written.
 */
module PairingApp {
  import opened Wrappers
  import opened Json

  /** How many recent servers the list keeps once it has grown past this. */
  const MaxRecent: nat := 5

  datatype ChatMessage = ChatMessage(text: string, isUser: bool)

  /**
   * The recent list after connecting to `server`: a server already listed
   * leaves it alone; a new one is inserted at the front and, when the list
   * then holds more than five, the last entry is dropped.
   */
  function AddRecent(recent: seq<string>, server: string): (r: seq<string>)
    ensures server in r
  {
    if server in recent then recent
    else if |recent| + 1 > MaxRecent then
      var r := ([server] + recent)[..|recent|];
      assert r[0] == server;
      r
    else [server] + recent
  }

  predicate NoDuplicates(s: seq<string>) {
    forall i, j :: 0 <= i < j < |s| ==> s[i] != s[j]
  }

  /** A new server is first, followed by the previous entries in order; a known one changes nothing. */
  lemma AddRecentShape(recent: seq<string>, server: string)
    requires |recent| <= MaxRecent
    ensures server in recent ==> AddRecent(recent, server) == recent
    ensures server !in recent ==>
              var r := AddRecent(recent, server);
              |r| >= 1 && r[0] == server && r[1..] == recent[..|r| - 1]
              && |r| == if |recent| < MaxRecent then |recent| + 1 else MaxRecent
  {
    if server !in recent {
      var r := AddRecent(recent, server);
      assert r[1..] == recent[..|r| - 1];
    }
  }

  /** At most five entries stay at most five, and without duplicates stay without. */
  lemma AddRecentBounded(recent: seq<string>, server: string)
    ensures |recent| <= MaxRecent ==> |AddRecent(recent, server)| <= MaxRecent
    ensures NoDuplicates(recent) ==> NoDuplicates(AddRecent(recent, server))
    ensures |AddRecent(recent, server)| >= |recent|
  {
    if server !in recent && NoDuplicates(recent) {
      var r := AddRecent(recent, server);
      forall i, j | 0 <= i < j < |r| ensures r[i] != r[j] {
        assert r[j] == recent[j - 1];
        if i > 0 {
          assert r[i] == recent[i - 1];
        }
      }
    }
  }

  /** The message `sendMessage` writes. */
  function ChatRequest(text: string): (j: Json)
    ensures j.JObj? && j.fields.Keys == {"op", "prompt", "model"}
    ensures GetString(j, "op") == Some("chat") && GetString(j, "prompt") == Some(text) && GetString(j, "model") == Some("")
  {
    StrObject(map["op" := "chat", "prompt" := text, "model" := ""])
  }

  /** The message `sendNoiseInit` writes: the base64 text of no bytes. */
  function NoiseInit(): (j: Json)
    ensures j.JObj? && j.fields.Keys == {"op", "noise_init"}
    ensures GetString(j, "op") == Some("noise_init") && GetString(j, "noise_init") == Some("")
  {
    StrObject(map["op" := "noise_init", "noise_init" := ""])
  }

  /** Where the offer is posted. */
  function SignalingURL(serverURL: string): (u: string)
    ensures |u| == |serverURL| + |"/signaling/offer"| && u[..|serverURL|] == serverURL
  {
    serverURL + "/signaling/offer"
  }

  class ConnectionManager {
    var isConnected: bool
    var serverInfo: Option<string>
    var recentConnections: seq<string>
    var serverURL: Option<string>
    var serverPublicKey: Option<string>
    /** The value stored under "recentConnections". */
    var persisted: Option<seq<string>>
    /** Whether `dataChannel` is set. */
    var hasChannel: bool
    /** Every message written to the data channel. */
    var sent: seq<Json>

    /** `init`: the list persisted earlier, if there is one. */
    constructor (saved: Option<seq<string>>)
      ensures recentConnections == saved.GetOr([]) && persisted == saved
      ensures !isConnected && serverInfo.None? && serverURL.None? && serverPublicKey.None?
      ensures !hasChannel && sent == []
    {
      isConnected := false;
      serverInfo := None;
      recentConnections := saved.GetOr([]);
      serverURL := None;
      serverPublicKey := None;
      persisted := saved;
      hasChannel := false;
      sent := [];
    }

    /**
     * `connectWithQRData`. `channelCreated` is whether the new peer
     * connection yielded a data channel; the offer it then posts is
     * answered through `OnAnswer`.
     */
    method ConnectWithQRData(server: string, publicKey: string, channelCreated: bool)
      modifies this
      ensures serverURL == Some("http://" + server) && serverPublicKey == Some(publicKey) && serverInfo == Some(server)
      ensures recentConnections == AddRecent(old(recentConnections), server)
      ensures server in old(recentConnections) ==> persisted == old(persisted)
      ensures server !in old(recentConnections) ==> persisted == Some(recentConnections)
      ensures hasChannel == channelCreated
      ensures isConnected == old(isConnected) && sent == old(sent)
    {
      serverURL := Some("http://" + server);
      serverPublicKey := Some(publicKey);
      serverInfo := Some(server);
      if server !in recentConnections {
        var before := recentConnections;
        recentConnections := [server] + recentConnections;
        if |recentConnections| > MaxRecent {
          recentConnections := recentConnections[..|recentConnections| - 1];
        }
        assert recentConnections == AddRecent(before, server);
        persisted := Some(recentConnections);
      }
      hasChannel := channelCreated;
    }

    /** `connectToServer`: a recent server is reconnected without a public key. */
    method ConnectToServer(server: string, channelCreated: bool)
      modifies this
      ensures serverURL == Some("http://" + server) && serverPublicKey == Some("") && serverInfo == Some(server)
      ensures recentConnections == AddRecent(old(recentConnections), server)
      ensures server in old(recentConnections) ==> persisted == old(persisted)
      ensures server !in old(recentConnections) ==> persisted == Some(recentConnections)
      ensures hasChannel == channelCreated
      ensures isConnected == old(isConnected) && sent == old(sent)
    {
      ConnectWithQRData(server, "", channelCreated);
    }

    /**
     * The signaling reply: connected only when the URL parses, the reply
     * is an object with an "sdp" string, and the remote description is set
     * without error.
     */
    method OnAnswer(urlParses: bool, reply: Option<Json>, remoteError: bool)
      modifies this
      ensures isConnected == (old(isConnected) || (serverURL.Some? && urlParses && reply.Some?
                                                   && GetString(reply.value, "sdp").Some? && !remoteError))
      ensures serverInfo == old(serverInfo) && recentConnections == old(recentConnections)
      ensures serverURL == old(serverURL) && persisted == old(persisted) && hasChannel == old(hasChannel) && sent == old(sent)
    {
      if serverURL.None? || !urlParses || reply.None? || GetString(reply.value, "sdp").None? {
        return;
      }
      if !remoteError {
        isConnected := true;
      }
    }

    /** `disconnect`: the channel goes and the list stays. */
    method Disconnect()
      modifies this
      ensures !isConnected && serverInfo.None? && !hasChannel
      ensures recentConnections == old(recentConnections) && persisted == old(persisted)
      ensures serverURL == old(serverURL) && sent == old(sent)
    {
      hasChannel := false;
      isConnected := false;
      serverInfo := None;
    }

    /** `sendMessage`: one chat request, when there is a channel. */
    method SendMessage(text: string)
      modifies this
      ensures sent == old(sent) + (if hasChannel then [ChatRequest(text)] else [])
      ensures isConnected == old(isConnected) && hasChannel == old(hasChannel)
      ensures recentConnections == old(recentConnections) && serverInfo == old(serverInfo)
    {
      if hasChannel {
        sent := sent + [ChatRequest(text)];
      }
    }

    /**
     * The data channel's receive handler. `decoded` is the message as JSON
     * (None when it is not UTF-8 or not JSON); `delivered` is the content
     * passed to `onMessageReceived`, if it is called.
     */
    method Receive(decoded: Option<Json>) returns (delivered: Option<string>)
      modifies this
      ensures var op := if decoded.Some? then GetString(decoded.value, "op") else None;
              && (delivered.Some? <==> op == Some("delta") && GetString(decoded.value, "content").Some?)
              && (delivered.Some? ==> delivered == GetString(decoded.value, "content"))
              && sent == old(sent) + (if op == Some("noise_pubkey") && hasChannel then [NoiseInit()] else [])
      ensures isConnected == old(isConnected) && hasChannel == old(hasChannel)
      ensures recentConnections == old(recentConnections) && serverInfo == old(serverInfo)
    {
      delivered := None;
      if decoded.None? {
        return;
      }
      var op := GetString(decoded.value, "op");
      if op.None? {
        return;
      }
      if op.value == "delta" {
        delivered := GetString(decoded.value, "content");
      } else if op.value == "noise_pubkey" {
        SendNoiseInit();
      }
    }

    /** `sendNoiseInit`. */
    method SendNoiseInit()
      modifies this
      ensures sent == old(sent) + (if hasChannel then [NoiseInit()] else [])
      ensures isConnected == old(isConnected) && hasChannel == old(hasChannel)
      ensures recentConnections == old(recentConnections) && serverInfo == old(serverInfo)
    {
      if hasChannel {
        sent := sent + [NoiseInit()];
      }
    }
  }

  /** The QR scanner sheet: only its first scan is handled. */
  class QRScanner {
    var isScanning: bool
    var dismissed: bool
    const manager: ConnectionManager

    constructor (manager: ConnectionManager)
      ensures isScanning && !dismissed && this.manager == manager
    {
      isScanning := true;
      dismissed := false;
      this.manager := manager;
    }

    /**
     * A scanned code, decoded as JSON. It connects only when it has both a
     * "server" and a "publicKey" string; a code seen after the first does
     * nothing.
     */
    method OnScan(code: Option<Json>, channelCreated: bool)
      modifies this, manager
      ensures !isScanning
      ensures var server := if code.Some? then GetString(code.value, "server") else None;
              var key := if code.Some? then GetString(code.value, "publicKey") else None;
              if old(isScanning) && server.Some? && key.Some? then
                && dismissed && manager.serverInfo == server && manager.serverPublicKey == key
                && manager.serverURL == Some("http://" + server.value)
                && manager.recentConnections == AddRecent(old(manager.recentConnections), server.value)
                && (server.value in old(manager.recentConnections) ==> manager.persisted == old(manager.persisted))
                && (server.value !in old(manager.recentConnections) ==> manager.persisted == Some(manager.recentConnections))
                && manager.hasChannel == channelCreated
                && manager.isConnected == old(manager.isConnected) && manager.sent == old(manager.sent)
              else
                dismissed == old(dismissed) && unchanged(manager)
    {
      if !isScanning {
        return;
      }
      isScanning := false;
      if code.None? {
        return;
      }
      var server := GetString(code.value, "server");
      var key := GetString(code.value, "publicKey");
      if server.None? || key.None? {
        return;
      }
      manager.ConnectWithQRData(server.value, key.value, channelCreated);
      dismissed := true;
    }
  }

  /** All the text the chat shows, in order. */
  function Transcript(messages: seq<ChatMessage>): string
    decreases |messages|
  {
    if messages == [] then "" else Transcript(messages[..|messages| - 1]) + messages[|messages| - 1].text
  }

  /** The chat view's list and its handler for received content. */
  class ChatView {
    var messages: seq<ChatMessage>

    constructor ()
      ensures messages == []
    {
      messages := [];
    }

    /** `setupMessageHandler`'s closure: extend the AI's last message, or start one. */
    method OnMessageReceived(content: string)
      modifies this
      ensures old(messages) != [] && !old(messages)[|old(messages)| - 1].isUser ==>
                |messages| == |old(messages)|
                && messages[..|messages| - 1] == old(messages)[..|old(messages)| - 1]
                && messages[|messages| - 1] == ChatMessage(old(messages)[|old(messages)| - 1].text + content, false)
      ensures old(messages) == [] || old(messages)[|old(messages)| - 1].isUser ==>
                messages == old(messages) + [ChatMessage(content, false)]
      ensures messages == AfterContent(old(messages), content)
    {
      if messages != [] && !messages[|messages| - 1].isUser {
        var last := messages[|messages| - 1];
        ghost var init := messages[..|messages| - 1];
        assert messages == init + [last];
        messages := messages[|messages| - 1 := last.(text := last.text + content)];
        assert messages == init + [last.(text := last.text + content)];
      } else {
        messages := messages + [ChatMessage(content, false)];
      }
    }
  }

  /** The list after the handler has received `content`. */
  function AfterContent(messages: seq<ChatMessage>, content: string): (r: seq<ChatMessage>)
    ensures Transcript(r) == Transcript(messages) + content
    ensures r != [] && !r[|r| - 1].isUser
  {
    if messages != [] && !messages[|messages| - 1].isUser
    then messages[..|messages| - 1] + [ChatMessage(messages[|messages| - 1].text + content, false)]
    else messages + [ChatMessage(content, false)]
  }

  function AfterContents(messages: seq<ChatMessage>, pieces: seq<string>): seq<ChatMessage>
    decreases |pieces|
  {
    if pieces == [] then messages else AfterContent(AfterContents(messages, pieces[..|pieces| - 1]), pieces[|pieces| - 1])
  }

  function Concat(pieces: seq<string>): string
    decreases |pieces|
  {
    if pieces == [] then "" else Concat(pieces[..|pieces| - 1]) + pieces[|pieces| - 1]
  }

  /**
   * The deltas of one reply, received after the user's message, build a
   * single AI message holding their concatenation.
   */
  lemma {:induction false} RepliesJoin(history: seq<ChatMessage>, pieces: seq<string>)
    requires history != [] && history[|history| - 1].isUser
    requires pieces != []
    ensures AfterContents(history, pieces) == history + [ChatMessage(Concat(pieces), false)]
    decreases |pieces|
  {
    var init := pieces[..|pieces| - 1];
    if init == [] {
      assert AfterContents(history, pieces) == AfterContent(history, pieces[0]);
      assert Concat(pieces) == "" + pieces[0] == pieces[0];
    } else {
      RepliesJoin(history, init);
      var before := history + [ChatMessage(Concat(init), false)];
      assert before[..|before| - 1] == history;
    }
  }
}
