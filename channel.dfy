/**
 * The data-channel handlers `handleOffer` installs for one peer: the
 * public key on open, the session removed on close, and the op dispatcher
 * on every message, with its one-way `e2eEstablished` flag. JSON decoding
 * of the client's message and encoding of the server's are inputs.
 */
module DataChannelOps {
  import opened Wrappers
  import opened NoiseStub
  import opened ModelManagement
  import opened Relay

  /** `ClientMsg` as decoded: a field the JSON lacks has its zero value. */
  datatype ClientMsg = ClientMsg(op: string, model: string, prompt: string, stream: bool, noiseInit: seq<Byte>)

  /** A `go proxyOllamaStream(dc, peerID, model, prompt, true, isE2E)` launched by a chat message. */
  datatype StreamJob = StreamJob(model: string, prompt: string, isE2E: bool)

  /** `env(k, def)`: the variable's value unless it is empty. */
  function Env(value: string, def: string): (r: string)
    ensures r != "" <==> value != "" || def != ""
    ensures value != "" ==> r == value
    ensures value == "" ==> r == def
  {
    if value != "" then value else def
  }

  /**
   * The active models after a chat touched `model` at `now`: a fresh
   * entry when the warm-up just succeeded, otherwise `UpdateLastUsed` on
   * the entry already there, if any. No other entry changes.
   */
  function TouchedModels(active: map<string, ModelState>, model: string, warmedNow: bool, now: int)
    : (r: map<string, ModelState>)
    ensures r.Keys == active.Keys + (if warmedNow then {model} else {})
    ensures forall m :: m in active && m != model ==> r[m] == active[m]
    ensures model in r ==> r[model].lastUsed == now
    ensures warmedNow ==> r[model] == ModelState(model, now, true)
  {
    if warmedNow then active[model := ModelState(model, now, true)]
    else if model in active then active[model := active[model].(lastUsed := now)]
    else active
  }

  class PeerChannel {
    var e2eEstablished: bool
    var launched: seq<StreamJob>
    const peerID: string
    const dc: DataChannel
    const noise: NoiseManager
    const manager: OllamaManager?
    /** The value of OLLAMA_MODEL. */
    const modelEnv: string
    /** `mustJSON`, as bytes. */
    const encode: ServerMsg -> seq<Byte>

    constructor (peerID: string, dc: DataChannel, noise: NoiseManager, manager: OllamaManager?, modelEnv: string,
                 encode: ServerMsg -> seq<Byte>)
      ensures !e2eEstablished && launched == []
      ensures this.peerID == peerID && this.dc == dc && this.noise == noise && this.manager == manager
      ensures this.modelEnv == modelEnv && this.encode == encode
    {
      e2eEstablished := false;
      launched := [];
      this.peerID := peerID;
      this.dc := dc;
      this.noise := noise;
      this.manager := manager;
      this.modelEnv := modelEnv;
      this.encode := encode;
    }

    /** `dc.OnOpen`: the server's public key, in plain text. */
    method OnOpen()
      modifies dc
      ensures dc.sent == old(dc.sent) + [TextFrame(NoisePubKey(noise.publicKey))]
    {
      dc.SendText(NoisePubKey(noise.publicKey));
    }

    /** `dc.OnClose`: the peer's session is removed. */
    method OnClose()
      modifies noise
      ensures noise.sessions == old(noise.sessions) - {peerID}
    {
      noise.CloseSession(peerID);
    }

    /** The model a chat message runs on: its own, or OLLAMA_MODEL, or "qwen2.5:3b". */
    function ChatModel(cm: ClientMsg): (m: string)
      reads this
      ensures m != ""
      ensures cm.model != "" ==> m == cm.model
      ensures cm.model == "" && modelEnv != "" ==> m == modelEnv
      ensures cm.model == "" && modelEnv == "" ==> m == "qwen2.5:3b"
    {
      if cm.model != "" then cm.model else Env(modelEnv, "qwen2.5:3b")
    }

    /** A chat's model is warmed up if it is cold, then marked as used now. */
    method TouchModel(model: string, warmup: WarmupReply, now: int)
      modifies manager
      ensures manager != null ==>
                var warmedNow := !old(manager.IsWarm(model)) && warmup == Status(200);
                && manager.warmupDone == (if warmedNow then old(manager.warmupDone)[model := true] else old(manager.warmupDone))
                && manager.activeModels == TouchedModels(old(manager.activeModels), model, warmedNow, now)
      ensures manager != null && old(manager.Valid()) ==> manager.Valid()
      ensures manager != null && old(manager.Valid()) && (old(manager.IsWarm(model)) || warmup == Status(200)) ==>
                model in manager.activeModels && manager.activeModels[model].lastUsed == now
    {
      if manager != null {
        var _, _ := manager.WarmupModel(model, warmup, now);
        manager.UpdateLastUsed(model, now);
      }
    }

    /**
     * `dc.OnMessage`. The bytes are decrypted first once end-to-end
     * encryption is on (the stub never fails to), then `decode` stands for
     * `json.Unmarshal`. A chat warms the model up (`warmup` is what that
     * request yields) and launches the stream job; errors are always sent
     * as plain text.
     */
    method OnMessage(data: seq<Byte>, decode: seq<Byte> -> Option<ClientMsg>, warmup: WarmupReply, now: int)
      modifies this, dc, noise, manager
      ensures old(e2eEstablished) ==> e2eEstablished
      ensures var msgData := if old(e2eEstablished) then Cipher(noise.devPlaintext, data) else data;
              match decode(msgData)
              case None =>
                dc.sent == old(dc.sent) + [TextFrame(Error("bad json"))]
                && e2eEstablished == old(e2eEstablished) && launched == old(launched)
              case Some(cm) =>
                if cm.op == "noise_init" then
                  dc.sent == old(dc.sent) + [TextFrame(NoiseResponse(HandshakeAck)), TextFrame(E2EEstablished)]
                  && e2eEstablished && launched == old(launched)
                  && (peerID in old(noise.sessions) ==> noise.sessions == old(noise.sessions))
                  && (peerID !in old(noise.sessions) ==> noise.sessions == old(noise.sessions)[peerID := Session(true)])
                else if cm.op == "ping" then
                  dc.sent == old(dc.sent) + [WireFrame(Pong, old(e2eEstablished), noise.devPlaintext, encode)]
                  && e2eEstablished == old(e2eEstablished) && launched == old(launched)
                else if cm.op == "chat" then
                  dc.sent == old(dc.sent) && e2eEstablished == old(e2eEstablished)
                  && launched == old(launched) + [StreamJob(ChatModel(cm), cm.prompt, old(e2eEstablished))]
                else
                  dc.sent == old(dc.sent) + [TextFrame(Error("unknown op"))]
                  && e2eEstablished == old(e2eEstablished) && launched == old(launched)
      ensures var cm := decode(if old(e2eEstablished) then Cipher(noise.devPlaintext, data) else data);
              !(cm.Some? && cm.value.op == "noise_init") ==> noise.sessions == old(noise.sessions)
      ensures manager != null && old(manager.Valid()) ==> manager.Valid()
      ensures var cm := decode(if old(e2eEstablished) then Cipher(noise.devPlaintext, data) else data);
              !(cm.Some? && cm.value.op == "chat") && manager != null ==> unchanged(manager)
      ensures var cm := decode(if old(e2eEstablished) then Cipher(noise.devPlaintext, data) else data);
              cm.Some? && cm.value.op == "chat" && manager != null ==>
                var model := ChatModel(cm.value);
                var warmedNow := !old(manager.IsWarm(model)) && warmup == Status(200);
                && manager.warmupDone == (if warmedNow then old(manager.warmupDone)[model := true] else old(manager.warmupDone))
                && manager.activeModels == TouchedModels(old(manager.activeModels), model, warmedNow, now)
      ensures var cm := decode(if old(e2eEstablished) then Cipher(noise.devPlaintext, data) else data);
              cm.Some? && cm.value.op == "chat" && manager != null && old(manager.Valid())
              && (old(manager.IsWarm(ChatModel(cm.value))) || warmup == Status(200)) ==>
                ChatModel(cm.value) in manager.activeModels && manager.activeModels[ChatModel(cm.value)].lastUsed == now
    {
      var isE2E := e2eEstablished;
      var msgData: seq<Byte>;
      if isE2E {
        var decrypted, _ := noise.Decrypt(peerID, data);
        msgData := decrypted;
      } else {
        msgData := data;
      }
      var cm := decode(msgData);
      if cm.None? {
        dc.SendText(Error("bad json"));
        return;
      }
      var m := cm.value;
      if m.op == "noise_init" {
        var response, _ := noise.HandleHandshake(peerID, m.noiseInit);
        dc.SendText(NoiseResponse(response));
        e2eEstablished := true;
        dc.SendText(E2EEstablished);
      } else if m.op == "ping" {
        if isE2E {
          var encrypted, _ := noise.Encrypt(peerID, encode(Pong));
          dc.Send(encrypted);
        } else {
          dc.SendText(Pong);
        }
      } else if m.op == "chat" {
        var model := m.model;
        if model == "" {
          model := Env(modelEnv, "qwen2.5:3b");
        }
        TouchModel(model, warmup, now);
        launched := launched + [StreamJob(model, m.prompt, isE2E)];
      } else {
        dc.SendText(Error("unknown op"));
      }
    }
  }

  /**
   * A client that encrypts its message with the same cipher is understood
   * once end-to-end encryption is on, and before it only plain text is.
   */
  lemma ClientMessageRecovered(devPlaintext: bool, e2e: bool, plain: seq<Byte>)
    ensures var onWire := if e2e then Cipher(devPlaintext, plain) else plain;
            (if e2e then Cipher(devPlaintext, onWire) else onWire) == plain
  {
    CipherRoundTrip(devPlaintext, plain);
  }
}
