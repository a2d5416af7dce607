# QuicPair, modelled in Dafny

QuicPair connects an iPhone to a large language model that runs on the
user's own Mac. The pieces are:

- **The Go server** (`server/`). It answers WebRTC offers and speaks a small
  JSON protocol on the "llm" data channel (`noise_init`, `ping`, `chat`). It
  relays Ollama's streamed reply as `delta` messages followed by `done`. It
  records the time to first token (TTFT) and enforces a "strict local"
  policy on peers and browser origins. The same policy's test of the
  Ollama URL sits in a relay branch the server as built never takes. Its "Noise" manager is
  in fact a session table plus an XOR-with-0xAA stub cipher.
- **The iOS clients** (`ios-app/`, `ios/`). These cover the QR pairing and
  the recent-connection lists, the data-channel and HTTP chat clients, the
  first-token timer and the key held in the keychain.
- **The macOS app** (`mac-app/`). This covers the local HTTP server on port
  8888, the Ollama service and its streamed-reply line buffer, the model
  catalogue, and the simple pairing app with its QR connection string and
  its `ifconfig` parser.
- **The test helper** (`scripts/test_automation_helper.swift`). It records
  TTFT measurements and computes their percentiles.

There is one Dafny module per source file, plus four shared modules:

- `Wrappers` holds `Option` and `Result`.
- `Text` holds the string operations of Go's `strings` package and of
  Swift's `components(separatedBy:)`, plus `Utf8Len`, which is Go's `len`
  of a string.
- `Json` holds decoded JSON values.
- `NetIP` models Go's `net.ParseIP`, `To4`, the address classes and
  `SplitHostPort`/`JoinHostPort`. Its IP addresses are byte sequences of
  length 4 or 16. `ParseIP` yields the 16-byte IPv4-mapped form (section
  2.5.5.2 of RFC 4291).

Effects the code cannot see are inputs to the model:

- Objects whose fields the source updates are classes with `modifies`
  clauses. Examples are `NoiseManager`, `OllamaManager`, `TTFTMetrics`, the
  connection managers, `StreamChatDelegate` and `ModelManager`.
- A data channel is the list of frames sent on it.
- Network replies, decoded JSON, clocks (integer nanoseconds on the server,
  milliseconds elsewhere), random keys and the keychain are parameters.
- `json.Unmarshal`, `mustJSON`, `JSONSerialization` and UTF-8 decoding are
  function-typed parameters.

## Model

| member | source | states |
|---|---|---|
| AccessGuard.IsLocalIPRanges | server/main.go:252-258 | `isLocalIP` (corrected CGNAT clause) accepts exactly 127/8, 10/8, 172.16/12, 192.168/16, 169.254/16, 100.64/10, ::1, fc00::/7 and fe80::/10; nil is refused |
| AccessGuard.CgnatAsWrittenNeverFires | server/main.go:257 | on any address ParseIP returns, the CGNAT clause as written (bytes 0 and 1 of the 16-byte slice) is false |
| AccessGuard.IsLocalIPAsWrittenOnParsed | server/main.go:252-258 | on parsed addresses `isLocalIP` as written reduces to loopback, private or link-local unicast |
| AccessGuard.CgnatRefusedAsWritten | server/main.go:252-258 | every 100.64.0.0/10 address in dotted decimal is refused by the test as written and accepted by the corrected one |
| AccessGuard.IsLocalIPAsWrittenGap | server/main.go:252-258 | on parsed addresses `isLocalIP` as written accepts exactly what the corrected test accepts outside 100.64.0.0/10 |
| AccessGuard.IsLocalConnectionSpec | server/main.go:153-188 | with the corrected CGNAT clause: a connection is local iff its RemoteAddr splits into host and port and the host parses to an address `IsLocalIP` accepts or a link-local multicast one |
| AccessGuard.IsLocalConnectionAsWrittenSpec | server/main.go:153-188 | the listener test as written admits exactly the loopback, private, link-local unicast and link-local multicast peers |
| AccessGuard.IsLocalConnectionAsWrittenGap | server/main.go:153-188 | the listener as written admits exactly the peers the corrected one admits outside 100.64.0.0/10 |
| AccessGuard.CgnatPeerDroppedAsWritten | server/main.go:181-185 | a CGNAT peer "a.b.c.d:port" splits into its address and port, is dropped by the listener as written and admitted by the corrected one, passes the corrected `LocalOnly`, and as an origin host is not read as non-local |
| AccessGuard.CgnatSamplePeer | server/main.go:181-185 | the peer "100.64.0.1:41641" fails the listener and the `localOnly` host test as written, and passes both when corrected |
| AccessGuard.CgnatSampleOrigin | server/main.go:203-217 | the origin "http://100.64.0.1:3000" has no allowed prefix and its host fails `isLocalIP` as written (so the source refuses it with 403), while `Cors` lets it through |
| AccessGuard.AcceptLocal | server/main.go:135-151 | with the corrected CGNAT clause: the accepted connection is the first local one; every earlier one, all non-local, is closed in order; with no local one all are closed |
| AccessGuard.UrlHost | server/main.go:538-559 | the host `isLocalURL` inspects: after the first "://", up to the first "/", cut at the first ":" |
| AccessGuard.IsLocalURLHost | server/main.go:538-559 | with the corrected CGNAT clause: a URL that is local without a local prefix has "://" and a dotted-decimal host that parses as IPv4 |
| AccessGuard.IsLocalURLAsWrittenGap | server/main.go:538-559 | `isLocalURL` as written accepts exactly what the corrected test accepts, less the URLs that pass only by a host in 100.64.0.0/10 |
| AccessGuard.HostnameNotLocalURL | server/main.go:538-559 | a URL whose host holds anything but digits and dots, and with no local prefix, is not local |
| AccessGuard.LocalhostLookalikeIsLocal | server/main.go:538-543 | the prefix test is textual: "http://localhost.example.com" is local |
| AccessGuard.Cors | server/main.go:190-230 | with the corrected CGNAT clause: 403 iff strict, the origin is non-empty, not `file://` or a localhost prefix, and its host parses as a non-local IP; otherwise 204 exactly for OPTIONS, else the handler runs |
| AccessGuard.CorsPassesHostNames | server/main.go:203-217 | an origin whose host is a name, not an address, is never refused |
| AccessGuard.LocalOnly | server/main.go:232-250 | with the corrected CGNAT clause: outside strict mode everything passes; in strict mode an unsplittable RemoteAddr gives 400 and a non-local host 403, and it passes iff the host is local |
| AccessGuard.GuardSpec | server/main.go:190-250 | with the corrected CGNAT clause: through `cors(localOnly(mux))` the mux is reached only by non-preflight requests from local peers in strict mode, and an admitted preflight gets 204 |
| AccessGuard.LocalOnlyWithinListener | server/main.go:153-188 | with the corrected CGNAT clause: every peer `localOnly` admits is also admitted by the listener test |
| AccessGuard.LocalOnlyWithinListenerAsWritten | server/main.go:153-188 | as written too: a peer whose host passes `isLocalIP` as written passes `isLocalConnection` as written |
| NoiseStub.XorAllInvolution | server/noise.go:86-91 | XOR with 0xAA twice gives back the input |
| NoiseStub.CipherRoundTrip | server/noise.go:82-104 | Decrypt undoes Encrypt and Encrypt undoes Decrypt, in both modes, and lengths are kept |
| NoiseStub.CipherModes | server/noise.go:83-103 | in plaintext mode both are the identity; otherwise every byte changes |
| NoiseStub.NoiseManager.constructor | server/noise.go:33-50 | no sessions; `devPlaintext` iff devMode and DEV_ALLOW_PLAINTEXT is "1"; the keys are the random inputs |
| NoiseStub.NoiseManager.StartSession | server/noise.go:58-67 | the entry under the id becomes a complete session, replacing any earlier one; nil error |
| NoiseStub.NoiseManager.HandleHandshake | server/noise.go:69-80 | always "HANDSHAKE_ACK" and nil; a complete session is added only when none exists |
| NoiseStub.NoiseManager.Encrypt | server/noise.go:82-92 | the result is the cipher of the text; the session id is ignored and nothing fails |
| NoiseStub.NoiseManager.Decrypt | server/noise.go:94-104 | the same computation as Encrypt, never failing |
| NoiseStub.NoiseManager.CloseSession | server/noise.go:106-111 | exactly the given id is removed |
| NoiseStub.NoiseManager.GetSessionStats | server/noise.go:113-122 | `active_sessions` is the number of sessions and `plaintext_mode` the flag |
| NoiseStub.EncryptThenDecrypt | server/noise.go:82-104 | a message encrypted by one manager is recovered by Decrypt |
| FastOllama.GetFastestModel | server/ollama_fast.go:158-173 | one of the four models: smollm2:135m iff length < 20, gemma3:270m iff 20 <= length < 50, qwen3:1.7b iff 50 <= length < 100, qwen3:4b iff length >= 100 |
| FastOllama.GetFastestModelMonotone | server/ollama_fast.go:158-173 | a longer prompt never gets a smaller model |
| FastOllama.OptimizePromptSpec | server/ollama_fast.go:176-186 | the result is the trimmed prompt, with "?" appended iff it is under 10 bytes and has no "?" |
| FastOllama.OptimizePromptTrimmed | server/ollama_fast.go:176-186 | the result has no white space at either end |
| FastOllama.OptimizePromptIdempotent | server/ollama_fast.go:176-186 | optimising twice is optimising once |
| FastOllama.RequestOptions | server/ollama_fast.go:47-66 | the fixed options, plus num_ctx 512 and num_batch 256 exactly when the prompt is under 50 bytes |
| FastOllama.StreamChat | server/ollama_fast.go:45-119 | the callbacks made for a reply are those the callback specification gives |
| FastOllama.DecodeLoop | server/ollama_fast.go:89-118 | the decode loop's callbacks: each non-empty content, stopping at a done line, EOF or a decode error |
| FastOllama.LineTokens | server/ollama_fast.go:106-111 | a line gives one token with its content exactly when the content is present and non-empty |
| FastOllama.TokensAreContents | server/ollama_fast.go:89-118 | with no decode error, the tokens are the non-empty contents up to and including the first done line, in order |
| FastOllama.TokensNonEmpty | server/ollama_fast.go:106-111 | no token callback carries empty content |
| FastOllama.FailureIsLast | server/ollama_fast.go:98-104 | at most one failure callback, and nothing after it |
| FastOllama.CleanBodyNoFailure | server/ollama_fast.go:98-101 | a body that decodes cleanly up to EOF gives no failure callback |
| FastOllama.DoneStops | server/ollama_fast.go:113-116 | lines after the first done line have no effect |
| FastOllama.RequestFailureSingle | server/ollama_fast.go:69-82 | a request-creation or transport failure gives exactly one failure callback |
| ModelManagement.ContextSize | server/ollama_manager.go:149-163 | num_ctx is 1024, 1536, 2048 or 4096, and 4096 exactly for models outside the four small ones |
| ModelManagement.GetOptimizedSettings | server/ollama_manager.go:139-166 | the keys are the five common ones plus num_gpu for the three GPU models; num_batch 512, repeat_penalty 1.1, temperature 0.7, num_thread 4 or 8, num_ctx the model's ContextSize and num_gpu 1 (all of it as the predicate `OptimizedSettings`) |
| ModelManagement.SmallModelsGetLessContext | server/ollama_manager.go:149-163 | a context under 4096 iff a small model; the GPU models are small and get at least 1536 |
| ModelManagement.OllamaManager.constructor | server/ollama_manager.go:30-44 | empty maps, the given URL, and the invariant holds |
| ModelManagement.OllamaManager.WarmupModel | server/ollama_manager.go:47-104 | no request once warmed up; a 200 marks the model warm and active at `now`; every failure returns its error and leaves both maps unchanged |
| ModelManagement.OllamaManager.UpdateLastUsed | server/ollama_manager.go:169-176 | only an existing entry's lastUsed changes; an absent model is not added |
| ModelManagement.OllamaManager.KeepAlive | server/ollama_manager.go:107-136 | one request per tick until the first tick at which the model is absent or idle for over five minutes |
| ModelManagement.JustUsedKeepsAlive | server/ollama_manager.go:116-119 | a model used at `now` keeps its loop alive for five minutes |
| Relay.DataChannel.SendText | server/main.go:310 | one text frame is appended |
| Relay.DataChannel.Send | server/main.go:369 | one binary frame is appended |
| Relay.FramesAppend | server/main.go:526-536 | framing a concatenation frames each part |
| Relay.WireFrameReadable | server/main.go:526-536 | encrypted frames are binary and plain ones text, and a reader with the same cipher recovers the JSON either way |
| Relay.SendMessage | server/main.go:526-536 | exactly one frame: the JSON text, or its encrypted bytes with E2E |
| Relay.Millis | server/main.go:439 | `Duration.Milliseconds`: whole milliseconds, truncated toward zero |
| Relay.TTFTMetrics.constructor | server/main.go:47-52 | no measurements |
| Relay.TTFTMetrics.Record | server/main.go:54-58 | appends the duration in milliseconds |
| Relay.TTFTMetrics.GetStats | server/main.go:60-70 | the count is the number of measurements, zero exactly when there are none |
| Relay.CountRecords | server/main.go:54-70 | after n Record calls on a fresh store GetStats reports n |
| Relay.RelayCall | server/main.go:428-445 | one callback: an error message for a failure, a delta for non-empty content, and a TTFT only for the first non-empty token |
| Relay.RelayCalls | server/main.go:428-445 | all callbacks relayed: frames of their messages, and the first token's TTFT |
| Relay.ProxyFast | server/main.go:419-449 | the prompt is optimised, an empty or default model replaced by GetFastestModel, each callback relayed, then `done` |
| Relay.RelayReply | server/main.go:428-448 | the frames of the reply's callback messages then `done`, and the first token's TTFT |
| Relay.FastDeltasAreTokens | server/main.go:434-444 | the fast path's deltas are exactly the token callbacks' contents, in order |
| Relay.FastDeltasAreContents | server/main.go:419-449 | for a clean reply the deltas are the non-empty contents up to the first done line |
| Relay.FastEndsWithDone | server/main.go:447 | the fast path always ends with `done`, even after an error |
| Relay.FastRequestFailure | server/main.go:428-447 | a failed request sends one error, then `done` |
| Relay.CallRecordsAtMostOne | server/main.go:436-441 | at most one TTFT, recorded exactly when some delta is sent |
| Relay.CallRecordsFirstToken | server/main.go:436-441 | the TTFT is measured at the first non-empty token |
| Relay.RelayLine | server/main.go:506-516 | one decoded record merged into `ln`, its delta sent, and the TTFT recorded when it is the first |
| Relay.SlowLoop | server/main.go:490-523 | the frames sent and TTFT recorded are those of the slow-loop specification |
| Relay.SlowRecord | server/main.go:497-521 | one loop iteration keeps the loop invariant |
| Relay.SlowGarbled | server/main.go:498-503 | a record that does not decode sends "decode error" and ends the loop; no TTFT is recorded |
| Relay.SendDone | server/main.go:523 | appends the frame of `done` |
| Relay.SlowMsgsShape | server/main.go:497-523 | deltas only, then exactly one of `done` and "decode error", last |
| Relay.SlowErrorXorDone | server/main.go:498-504 | `done` is sent iff no decode error is |
| Relay.SlowRecordsAtMostOne | server/main.go:506-513 | at most one TTFT, exactly when the first message is a delta |
| Relay.SlowRepeatsContent | server/main.go:491-495 | `ln` is reused: a record without message.content after one with content c sends c again |
| Relay.SlowAgreesWithFast | server/main.go:419-523 | when every record carries content and none fails to decode, the slow loop sends what the fast path sends |
| Relay.SlowRecordsAgreeWithFast | server/main.go:419-523 | under the same conditions both paths record the same TTFT |
| Relay.MergeOptions | server/main.go:452-460 | num_predict 512 with the model's settings copied over it |
| Relay.SlowOptions | server/main.go:452-460 | num_predict 512 without a manager; with one, the keys and num_predict/num_ctx values of the model's settings |
| Relay.ProxySlow | server/main.go:451-524 | the relay branch taken only without a fast client, which the server as built always has; with the corrected CGNAT clause: a strict-mode non-local OLLAMA_URL sends one error and no request; otherwise the request carries the merged options; a failed connection sends "ollama connect failed"; a reply is relayed by the slow loop |
| ChatProxy.HandleChatProxy | server/main.go:581-669 | 405 for other verbs; 400 for a body that is neither a JSON object nor null; a null body aborts the handler (the nil-map store panics) with nothing forwarded; a missing model gets GetFastestModel of the first message's byte length, else qwen2.5:3b; missing options get exactly GetOptimizedSettings of the chosen model; a request that cannot be built gives 500 "Failed to create request"; a failed connect gives 503; else the scanned lines are copied back and the TTFT recorded |
| ChatProxy.ScanLength | server/main.go:651-652 | the scanner yields the lines before the first one that does not fit the 64 KiB buffer, and all of them when each fits |
| ChatProxy.ScannedAllFit | server/main.go:651-652 | when every line fits, everything Ollama sent is relayed |
| ChatProxy.LongLineEndsScan | server/main.go:651-652 | a line too long for the buffer ends the relayed body at that line |
| ChatProxy.CopyLines | server/main.go:650-666 | the body written is each scanned line plus newline, stopping at a line too long for the scanner, and the TTFT is recorded at the first scanned line mentioning "content" |
| ChatProxy.RelayedLines | server/main.go:650-666 | the written body splits back into the scanned lines |
| ChatProxy.LineRecordsAtMostOne | server/main.go:657-662 | at most one TTFT, exactly when some line mentions "content" |
| DataChannelOps.Env | server/main.go:561-566 | the variable's value when it is not empty, the default when it is |
| DataChannelOps.PeerChannel.OnOpen | server/main.go:308-314 | sends `noise_pubkey` with the server key as plain text |
| DataChannelOps.PeerChannel.OnClose | server/main.go:316-320 | removes the peer's session only |
| DataChannelOps.PeerChannel.ChatModel | server/main.go:375-378 | the message's model when it names one; otherwise OLLAMA_MODEL when that is set, and qwen2.5:3b when it is not |
| DataChannelOps.PeerChannel.OnMessage | server/main.go:322-389 | decrypts once E2E is on; bad JSON gives "bad json" as plain text; noise_init sends noise_response then e2e_established and sets the flag for good; ping sends pong encrypted iff E2E; chat warms the model and launches the stream; any other op gives "unknown op" as plain text |
| DataChannelOps.PeerChannel.TouchModel | server/main.go:379-383 | with a manager, `warmupDone` gains the model only when a cold model's warm-up succeeds, and the active models become `TouchedModels` of the old ones: only that model's entry is added or has its last use set to now, and a failed warm-up of a cold model changes nothing; the manager stays valid |
| DataChannelOps.TouchedModels | server/ollama_manager.go:94-101 | a successful warm-up adds the model's entry at now; otherwise only an existing entry's last use becomes now; every other entry is unchanged |
| DataChannelOps.ClientMessageRecovered | server/main.go:328-340 | a client using the same cipher is understood once E2E is on, and before it only plain text is |
| PairingApp.AddRecentShape | ios-app/QuicPairApp.swift:418-422 | a new server goes first, followed by the previous list (its last entry dropped past five); a listed server changes nothing |
| PairingApp.AddRecentBounded | ios-app/QuicPairApp.swift:418-422 | at most five stay at most five, and no duplicates stay none |
| PairingApp.ChatRequest | ios-app/QuicPairApp.swift:444-450 | exactly op "chat", the prompt and model "" |
| PairingApp.NoiseInit | ios-app/QuicPairApp.swift:541-548 | exactly op "noise_init" with the empty base64 text |
| PairingApp.SignalingURL | ios-app/QuicPairApp.swift:485-486 | the server URL followed by "/signaling/offer" |
| PairingApp.ConnectionManager.constructor | ios-app/QuicPairApp.swift:405-410 | the persisted list, if any, and not connected |
| PairingApp.ConnectionManager.ConnectWithQRData | ios-app/QuicPairApp.swift:412-428 | the URL is "http://" + server, the key and info are set, the recent list is updated and persisted only when it changed |
| PairingApp.ConnectionManager.ConnectToServer | ios-app/QuicPairApp.swift:430-433 | the same with an empty public key |
| PairingApp.ConnectionManager.OnAnswer | ios-app/QuicPairApp.swift:484-510 | connected only when the URL parses, the reply has an "sdp" string and the remote description is set without error |
| PairingApp.ConnectionManager.Disconnect | ios-app/QuicPairApp.swift:435-442 | not connected, no server info or channel; the list is kept |
| PairingApp.ConnectionManager.SendMessage | ios-app/QuicPairApp.swift:444-450 | one chat request when there is a channel, nothing else changes |
| PairingApp.ConnectionManager.Receive | ios-app/QuicPairApp.swift:519-539 | a delta with string content is delivered once, noise_pubkey sends one noise_init, everything else is ignored |
| PairingApp.ConnectionManager.SendNoiseInit | ios-app/QuicPairApp.swift:541-548 | one noise_init when there is a channel |
| PairingApp.QRScanner.OnScan | ios-app/QuicPairApp.swift:136-176 | only the first scan is handled; it connects only when the code has "server" and "publicKey" strings, and then the manager's URL is "http://" + server, its info and key are set, the recent list is AddRecent of the old one and persisted only when it changed, and the channel is the one created; any other scan leaves the manager unchanged |
| PairingApp.ChatView.OnMessageReceived | ios-app/QuicPairApp.swift:349-361 | content extends the AI's last message in place, or starts a new AI message |
| PairingApp.AfterContent | ios-app/QuicPairApp.swift:349-361 | the transcript grows by exactly the content and ends with an AI message |
| PairingApp.RepliesJoin | ios-app/QuicPairApp.swift:349-361 | the deltas of one reply after a user message make one AI message with their concatenation |
| LLMClientModel.IceServers | ios/LLMClient.swift:69-75 | the STUN entry first; TURN second iff all three TURN settings are given |
| LLMClientModel.ConnectSucceedsIff | ios/LLMClient.swift:27-59 | success iff every step succeeds and the answer has an "sdp" string; no SDP then fails with bad_answer -2 |
| LLMClientModel.ChatEnvelope | ios/LLMClient.swift:61-62 | exactly op "chat", the model, the prompt and stream true |
| LLMClientModel.Classify | ios/LLMClient.swift:99-117 | a content delta iff the op is "delta" with string content |
| LLMClientModel.TimerStep | ios/LLMClient.swift:61-110 | a send arms the timer; the first content delta with an armed timer reports and clears it; other events change nothing |
| LLMClientModel.ReportsAtMostSends | ios/LLMClient.swift:61-110 | no more TTFT reports than sends, plus one for a timer already armed |
| LLMClientModel.FirstDeltaReports | ios/LLMClient.swift:103-117 | after a send, the first content delta reports its time since that send and later deltas report nothing |
| LLMClientModel.NoSendSilent | ios/LLMClient.swift:105 | with the timer stopped and no send nothing is reported |
| LLMClientModel.LLMClient.constructor | ios/LLMClient.swift:15-25 | the signaling URL is the endpoint + "/signaling/offer", the ICE list is set, the timer is 0 |
| LLMClientModel.LLMClient.Connect | ios/LLMClient.swift:27-59 | opens the channel and completes with the classified result |
| LLMClientModel.LLMClient.OnDataChannelOpen | ios/LLMClient.swift:91-94 | the server's channel replaces ours |
| LLMClientModel.LLMClient.SendChat | ios/LLMClient.swift:61-67 | the timer is armed at `now`, then the envelope goes out with the default model when none is given |
| LLMClientModel.LLMClient.Receive | ios/LLMClient.swift:99-118 | the timer steps as TimerStep says and a content delta's text is streamed |
| IOSServices.SaveConnectionShape | ios-app/QuicPair/Services/ConnectionManager.swift:62-65 | the entry first, then the old list in order minus its last past five |
| IOSServices.SaveConnectionKeepsDuplicates | ios-app/QuicPair/Services/ConnectionManager.swift:62-65 | the same entry saved twice is listed twice |
| IOSServices.ConnectionManager.constructor | ios-app/QuicPair/Services/ConnectionManager.swift:11-13 | the stored list when it decodes, not connected, no error |
| IOSServices.ConnectionManager.ConnectToServer | ios-app/QuicPair/Services/ConnectionManager.swift:15-42 | an error disconnects and stores its description; a 200 connects, saves and clears the error; anything else gives "Failed to connect to server" |
| IOSServices.ConnectionManager.SaveConnectionEntry | ios-app/QuicPair/Services/ConnectionManager.swift:55-68 | the list becomes SaveConnection of a "Mac Studio" entry and is persisted |
| IOSServices.ConnectionManager.ConnectTo | ios-app/QuicPair/Services/ConnectionManager.swift:44-48 | an unparseable URL does nothing; else as ConnectToServer |
| IOSServices.ConnectionManager.Disconnect | ios-app/QuicPair/Services/ConnectionManager.swift:50-53 | not connected, no URL; the list is kept |
| IOSServices.SendToServer | ios-app/QuicPair/Services/ChatService.swift:45-67 | success iff a 200 whose body has a string "response"; non-200 gives code 2, a missing string code 3 |
| IOSServices.ErrorMessage | ios-app/QuicPair/Services/ChatService.swift:39 | an AI message "Error: " + the description |
| IOSServices.ChatService.constructor | ios-app/QuicPair/Services/ChatService.swift:6-8 | no messages, not loading, no TTFT |
| IOSServices.ChatService.SendMessage | ios-app/QuicPair/Services/ChatService.swift:16-43 | exactly two messages appended, the user's then the response or the error; loading during the request and not after; TTFT updated only on success; "Not connected to server" without a URL |
| IOSServices.Keychain.Save | ios-app/QuicPair/Services/NoiseManager.swift:30-39 | the account's value is replaced and other accounts are unaffected |
| IOSServices.Keychain.Load | ios-app/QuicPair/Services/NoiseManager.swift:41-51 | the stored data, or nil when there is none |
| IOSServices.LoadOrGenerate | ios-app/QuicPair/Services/NoiseManager.swift:11-22 | a valid stored key is used and nothing saved; otherwise the generated key is used and saved |
| IOSServices.SecondInitSameKey | ios-app/QuicPair/Services/NoiseManager.swift:11-22 | an init over the keychain a first init left loads the same key and saves nothing |
| IOSServices.KeyManager.constructor | ios-app/QuicPair/Services/NoiseManager.swift:7-22 | the key is LoadOrGenerate's, saved under "noisePrivateKey" when generated, and never nil |
| IOSServices.KeyManager.PublicKey | ios-app/QuicPair/Services/NoiseManager.swift:24-26 | nil iff the private key is nil, else its derived public key |
| MacOllama.LineToken | mac-app/QuicPair/Services/OllamaService.swift:181-186 | one token iff the line's JSON has a message with string content |
| MacOllama.ScanAppend | mac-app/QuicPair/Services/OllamaService.swift:179-192 | scanning two runs of lines scans the second only when the first has no done line |
| MacOllama.ScanTokensFromLines | mac-app/QuicPair/Services/OllamaService.swift:179-186 | every token is the message content of some non-empty line, and there are no more tokens than lines |
| MacOllama.LastLineBreak | mac-app/QuicPair/Services/OllamaService.swift:194 | `lastIndex(of: "\n")` compares Characters: the last '\n' not preceded by '\r', since "\r\n" is a single Character |
| MacOllama.LastLineBreakNoCrLf | mac-app/QuicPair/Services/OllamaService.swift:194 | without CR LF pairs that search finds the last '\n' |
| MacOllama.AfterLastNewline | mac-app/QuicPair/Services/OllamaService.swift:194-198 | what is kept holds no "\n" Character, and without one the whole text is kept |
| MacOllama.AfterLastNewlineIsLastLine | mac-app/QuicPair/Services/OllamaService.swift:194-198 | without CR LF pairs, the kept buffer is the last line of the text |
| MacOllama.CrLfLineKept | mac-app/QuicPair/Services/OllamaService.swift:176-198 | a line ended by "\r\n" holds no "\n" Character, so the whole line stays in the buffer to be scanned again |
| MacOllama.BufferKeepsLastLine | mac-app/QuicPair/Services/OllamaService.swift:172-199 | unless done was hit, the buffer holds no "\n" Character; without CR LF pairs it is the last line of buffer + chunk and holds no '\n'; with no "\n" Character all is kept |
| MacOllama.ReceiveCompleteLines | mac-app/QuicPair/Services/OllamaService.swift:172-199 | with the fix the buffer never holds a newline unless done was hit |
| MacOllama.LateNewlineRepeats | mac-app/QuicPair/Services/OllamaService.swift:176-199 | as written, a line whose newline arrives in the next chunk delivers its token twice; with the fix once |
| MacOllama.CompleteLinesChunkingInvariant | mac-app/QuicPair/Services/OllamaService.swift:172-199 | with the fix the tokens and done flag do not depend on how the reply is cut into chunks |
| MacOllama.StreamChatDelegate.constructor | mac-app/QuicPair/Services/OllamaService.swift:167-170 | empty buffer, no tokens or completions |
| MacOllama.StreamChatDelegate.DidReceive | mac-app/QuicPair/Services/OllamaService.swift:172-201 | one chunk as written: tokens, completion(true) on done, and the new buffer cut after the last "\n" Character |
| MacOllama.StreamChatDelegate.DidReceiveCompleteLines | mac-app/QuicPair/Services/OllamaService.swift:172-201 | one chunk with only complete lines scanned |
| MacOllama.StreamChatDelegate.ScanLines | mac-app/QuicPair/Services/OllamaService.swift:179-192 | the line loop: each non-empty line's token in order, returning at the first done line |
| MacOllama.StreamChatDelegate.DidComplete | mac-app/QuicPair/Services/OllamaService.swift:203-205 | completion is called with "no error", whatever came before |
| MacOllama.NamesAreNames | mac-app/QuicPair/Services/OllamaService.swift:40 | the names are exactly the string "name" fields of the models |
| MacOllama.NamesAppend | mac-app/QuicPair/Services/OllamaService.swift:40 | the names keep the models' order |
| MacOllama.ChatBody | mac-app/QuicPair/Services/OllamaService.swift:87-91 | model (current or llama3.1:8b), one user message with the prompt, stream true |
| MacOllama.OllamaService.constructor | mac-app/QuicPair/Services/OllamaService.swift:3-8 | not running, no models, no current model |
| MacOllama.OllamaService.LoadModels | mac-app/QuicPair/Services/OllamaService.swift:31-46 | with a models array the names are set, and the current model is set to the first or llama3.1:8b only when nil; else nothing changes |
| MacOllama.OllamaService.CheckStatus | mac-app/QuicPair/Services/OllamaService.swift:18-29 | running iff no error and status 200, and then the models are loaded |
| MacOllama.OllamaService.StreamChatBody | mac-app/QuicPair/Services/OllamaService.swift:87-91 | the body uses the current model, else llama3.1:8b |
| MacServer.BodyAfterBlankLine | mac-app/QuicPair/Services/ServerManager.swift:74-77 | some text iff the request holds "\r\n\r\n" |
| MacServer.HeaderText | mac-app/QuicPair/Services/ServerManager.swift:103-110 | the status line and three fields, each CRLF-terminated, then the empty line |
| MacServer.FirstBlankLineEndsFields | mac-app/QuicPair/Services/ServerManager.swift:103-111 | in CR-free header fields followed by anything, the first blank line is the one ending the fields |
| MacServer.ResponseRoundTrip | mac-app/QuicPair/Services/ServerManager.swift:74-111 | the response starts with "HTTP/1.1 200 OK\r\n", announces the body's UTF-8 length, and the text after its first blank line is the body |
| MacServer.RouteOf | mac-app/QuicPair/Services/ServerManager.swift:47-68 | connect iff "GET /connect" occurs; chat iff not and "POST /chat" occurs; else 404 |
| MacServer.GenerateBody | mac-app/QuicPair/Services/ServerManager.swift:121-125 | exactly model llama3.2:3b, the prompt and stream false |
| MacServer.GenerateResponse | mac-app/QuicPair/Services/ServerManager.swift:114-136 | the transport error, the "response" string, or "Failed to generate response" |
| MacServer.ChatReply | mac-app/QuicPair/Services/ServerManager.swift:72-101 | a 200 reply iff the text has a blank line and the body after it is an object with a string "prompt" |
| MacServer.ConnectionURL | mac-app/QuicPair/Services/ServerManager.swift:138-144 | "http://ip:8888", or "http://localhost:8888" without an address |
| MacServer.Respond | mac-app/QuicPair/Services/ServerManager.swift:41-68 | nothing for missing or empty data; else the connect reply, the chat reply or the 404 by route |
| MacServer.SentBodiesRoundTrip | mac-app/QuicPair/Services/ServerManager.swift:103-111 | every 200 sent carries its body intact after the blank line |
| MacServer.ServerManager.constructor | mac-app/QuicPair/Services/ServerManager.swift:17-19 | the connection URL of the address found, not connected, nothing sent |
| MacServer.ServerManager.HandleConnection | mac-app/QuicPair/Services/ServerManager.swift:37-70 | the response, if any, is appended; connected once a connect request arrives; the URL is kept |
| MacSimple.ConnectionStringRoundTrip | mac-app/QuicPairSimple/main.swift:212-214 | reading the server and key back out of the connection string gives them iff neither holds a quote (there is no escaping) |
| MacSimple.UnframeFrame | mac-app/QuicPairSimple/main.swift:212-214 | the template's two values are recovered from between its fixed parts when neither holds a quote |
| MacSimple.ServerAddress | mac-app/QuicPairSimple/main.swift:141-145 | the local IP, or "localhost", followed by ":8443" |
| MacSimple.InetValue | mac-app/QuicPairSimple/main.swift:191-195 | the component after the first exact "inet" component that has a successor, or none |
| MacSimple.LocalIP | mac-app/QuicPairSimple/main.swift:188-197 | the value of the first candidate line ("inet " and not "127.0.0.1") with one, or none iff there is no such line |
| MacSimple.GetLocalIP | mac-app/QuicPairSimple/main.swift:173-204 | the nested loops with early return compute LocalIP of the output's lines |
| MacSimple.ChatModel | mac-app/QuicPairSimple/main.swift:292 | smollm2:135m iff the prompt is under 20 characters, else qwen2.5:3b |
| MacSimple.ChatBody | mac-app/QuicPairSimple/main.swift:294-298 | the chosen model, one user message with the prompt, stream true |
| MacSimple.ContentOf | mac-app/QuicPairSimple/main.swift:309-312 | some content iff the line parses and has a message with string content |
| MacSimple.ResponseTextAppend | mac-app/QuicPairSimple/main.swift:305-319 | the reply of a stream is the replies of its parts concatenated |
| MacSimple.SkippedLine | mac-app/QuicPairSimple/main.swift:309-312 | a line that does not parse adds nothing |
| MacSimple.FinalMessage | mac-app/QuicPairSimple/main.swift:303-327 | the error as "Error: ...", else the reply text when some line carried content, else the placeholder |
| MacSimple.ChatView.constructor | mac-app/QuicPairSimple/main.swift:218-220 | no messages, empty input, not loading |
| MacSimple.ChatView.SendMessage | mac-app/QuicPairSimple/main.swift:268-284 | empty input does nothing; else the user message and the "..." placeholder are appended, the input cleared and loading set |
| MacSimple.ChatView.StreamChat | mac-app/QuicPairSimple/main.swift:286-331 | the request is ChatBody; the last message becomes FinalMessage; loading ends |
| MacSimple.ExchangeTranscript | mac-app/QuicPairSimple/main.swift:268-331 | a send followed by the stream leaves the history, the user message and the final reply |
| ModelCatalog.DisplayName | mac-app/QuicPair/Services/ModelManager.swift:183-221 | the catalogue's name, else the name itself |
| ModelCatalog.Description | mac-app/QuicPair/Services/ModelManager.swift:223-261 | the catalogue's description, else "AI language model" |
| ModelCatalog.ProStatus | mac-app/QuicPair/Services/ModelManager.swift:263-267 | every model is free |
| ModelCatalog.FirstIndexByName | mac-app/QuicPair/Services/ModelManager.swift:161 | the first index with that name, none iff no model has it |
| ModelCatalog.WithServer | mac-app/QuicPair/Services/ModelManager.swift:110-120 | a listed model with a server match takes the server's size and is downloaded; the other fields are kept; without a match it is unchanged |
| ModelCatalog.FromServer | mac-app/QuicPair/Services/ModelManager.swift:124-134 | an appended server model is downloaded and not Pro |
| ModelCatalog.AddMissingNewNames | mac-app/QuicPair/Services/ModelManager.swift:124-135 | each appended name appears nowhere before it |
| ModelCatalog.AddMissingCovers | mac-app/QuicPair/Services/ModelManager.swift:124-135 | every server model's name ends up listed |
| ModelCatalog.MergeSpec | mac-app/QuicPair/Services/ModelManager.swift:108-135 | listed models keep place and order, updated from the first server match; unlisted server models are appended once each; all server names are listed |
| ModelCatalog.MergeWithoutServer | mac-app/QuicPair/Services/ModelManager.swift:105-137 | with no server models the merge changes nothing |
| ModelCatalog.MarkDownloaded | mac-app/QuicPair/Services/ModelManager.swift:161-170 | only the first model with that name is marked downloaded; an unknown name changes nothing |
| ModelCatalog.MarkDownloadedIdempotent | mac-app/QuicPair/Services/ModelManager.swift:161-170 | marking twice is marking once |
| ModelCatalog.InitialSelection | mac-app/QuicPair/Services/ModelManager.swift:61-65 | a stored selection wins over "qwen3:4b" |
| ModelCatalog.ModelManager.constructor | mac-app/QuicPair/Services/ModelManager.swift:296-305 | the built-in list and the stored or default selection |
| ModelCatalog.ModelManager.SelectModel | mac-app/QuicPair/Services/ModelManager.swift:67-73 | selected and stored, so the next launch starts with it |
| ModelCatalog.ModelManager.MergeModels | mac-app/QuicPair/Services/ModelManager.swift:108-135 | the two loops compute the merge |
| ModelCatalog.ModelManager.RefreshAvailableModels | mac-app/QuicPair/Services/ModelManager.swift:89-145 | without Ollama the "not available" error; with it no error and the list merged with no server models; loading ends |
| ModelCatalog.ModelManager.DownloadModel | mac-app/QuicPair/Services/ModelManager.swift:147-181 | the first model of that name marked downloaded, then a refresh |
| TestHelper.SortSorted | scripts/test_automation_helper.swift:105 | `sorted()` yields ascending order |
| TestHelper.Sort | scripts/test_automation_helper.swift:105 | `sorted()` is a permutation |
| TestHelper.SumSort | scripts/test_automation_helper.swift:108 | sorting keeps the sum |
| TestHelper.PercentileIndex | scripts/test_automation_helper.swift:106-107 | count*p/100 lies in [0, count) when count >= 1 |
| TestHelper.Statistics | scripts/test_automation_helper.swift:100-112 | nil iff no values; the count; the mean; p50 and p90 read from the sorted values at their indices, and both are samples |
| TestHelper.MedianBelowP90 | scripts/test_automation_helper.swift:105-111 | p50 <= p90 |
| TestHelper.TtftValues | scripts/test_automation_helper.swift:101 | every result's TTFT, in order |
| TestHelper.QuicPairTestClient.constructor | scripts/test_automation_helper.swift:28-30 | the URL and no results |
| TestHelper.QuicPairTestClient.MeasureTTFT | scripts/test_automation_helper.swift:69-88 | a reply appends exactly one result and reports its TTFT; none appends nothing |
| TestHelper.QuicPairTestClient.GetStatistics | scripts/test_automation_helper.swift:100-112 | nil iff there are no results; the count is their number |

## Left out

- Transport plumbing is left out: WebRTC, ICE and SDP, the HTTP servers and clients, `URLSession`, `NWListener` and the net listener. Each becomes an input event or an outcome value.
- JSON encoding and decoding are abstract. Decoded values are `Json` trees or records, and encoders are function parameters.
- Base64 and UTF-8 are not modelled, and a UTF-8 sequence split across stream chunks is not either.
- Concurrency is left out: mutexes, goroutines (`go proxyOllamaStream`, parallel preloading, the KeepAlive ticker), `DispatchQueue`/`MainActor` hops and Swift `Task`s. Every component runs single-threaded, and `weak self` is always present.
- Relay.TTFTMetrics.GetStats: returns only the count; the p50 and p90 percentiles are floating point, from a library that is not part of this model.
- The server's "decryption failed" and "handshake failed" replies cannot happen, because the stub Encrypt, Decrypt and HandleHandshake never fail. The model shows that they never fail instead of modelling dead branches.
- The Noise IK protocol the server's constant names is not implemented by the code, so it is not modelled. Key generation is a random input.
- `server/noise_test.go` targets functions the code does not have, so it is not modelled.
- The server's `main`, `handleNoisePubKey`, `handleTTFTMetrics`, `envURLs` and `mustJSON` only wire up or encode values. `NewFastOllamaClient`, `PreloadModel` and `initFastOllama` only issue HTTP requests. None of these is modelled.
- The server's prompt and model log lines are not modelled.
- DataChannelOps.PeerChannel.OnMessage: the warm-up reply and launching the stream job are recorded; the job's run is not run inline. It is always `Relay.ProxyFast`, because `main` (server/main.go:81) always creates the fast client and `NewFastOllamaClient` never returns nil.
- ChatProxy.HandleChatProxy: `http.Error` and `Flush` are reduced to a status and a message, or the relayed body; whether `http.NewRequest` accepts OLLAMA_URL is an input rather than Go's URL parser; the 500 "Streaming not supported" branch is left out, because net/http's response writer always flushes; the scanner's dropping of a trailing carriage return is not modelled, and a line's length is counted without it; what the client sees of a panic (a dropped connection) is reduced to `Aborted`.
- AccessGuard.IsLocalURL: applies the corrected CGNAT clause to the URL's host; `IsLocalURLAsWritten` is the source's test, and the two differ only on hosts in 100.64.0.0/10.
- AccessGuard.NonLocalOriginHost: applies the corrected CGNAT clause; as written an origin host in 100.64.0.0/10 counts as non-local.
- AccessGuard.IsLocalConnectionSpec: characterises the listener with the corrected CGNAT clause; the source as written also drops peers in 100.64.0.0/10 (`IsLocalConnectionAsWrittenSpec`, `IsLocalConnectionAsWrittenGap`).
- AccessGuard.AcceptLocal: admits with the corrected CGNAT clause; the source as written closes a peer such as "100.64.0.1:41641" (`CgnatSamplePeer`), and `IsLocalConnectionAsWrittenGap` states the whole difference.
- AccessGuard.IsLocalURLHost: is about the corrected `IsLocalURL`; as written a host in 100.64.0.0/10 is not local either (`IsLocalURLAsWrittenGap`).
- AccessGuard.Cors: uses the corrected CGNAT clause; in strict mode the source as written refuses the origin "http://100.64.0.1:3000" with 403, which `Cors` passes on (`CgnatSampleOrigin`).
- AccessGuard.LocalOnly: uses the corrected CGNAT clause; in strict mode the source as written refuses the RemoteAddr "100.64.0.1:41641" with 403, which `LocalOnly` passes on (`CgnatSamplePeer`, `IsLocalIPAsWrittenGap`).
- AccessGuard.GuardSpec: holds for the chain with the corrected CGNAT clause; as written the chain also refuses every peer and every origin host in 100.64.0.0/10.
- AccessGuard.LocalOnlyWithinListener: relates the corrected tests; `LocalOnlyWithinListenerAsWritten` relates the tests as written.
- Relay.ProxySlow: models server/main.go:451-524, which runs only when `globalFastClient` is nil. `main` always calls `initFastOllama` (server/main.go:81), and `NewFastOllamaClient` never returns nil, so the server as built never runs this branch. Strict local mode therefore never checks OLLAMA_URL: neither the fast path nor `handleChatProxy` tests it. The model also applies the corrected `IsLocalURL` here; `IsLocalURLAsWrittenGap` states how it differs from the test as written.
- Times are integers: nanoseconds on the server, milliseconds in the clients. The test helper's seconds times 1000 are integer milliseconds.
- LLMClient's "%.0f" print format is not modelled. A TTFT is reported as a number.
- MacSimple.ChatModel: Swift's `count` counts grapheme clusters; the model counts characters.
- ModelCatalog.ModelManager.RefreshAvailableModels: the source's server model list is hard-wired to empty, so the merge is modelled generically (`MergeModels`, `MergeSpec`) and the method uses the empty list; the unreachable `catch` is left out.
- ModelCatalog.ModelManager.constructor: the asynchronous first refresh that `init` starts is not run.
- MacOllama.OllamaService.constructor: the `checkStatus` and `loadModels` requests that `init` starts are not run here; their completions are `CheckStatus` and `LoadModels`.
- `availableModelsForUser` on the macOS side only copies the list, so it is not modelled.
- The macOS side's `pullModel`, `StreamDelegate` download progress, `startOllama`, `installOllama` and `ensureOllamaReady` are not modelled. They start processes or report floating-point progress; readiness is a boolean input.
- The macOS side's `getifaddrs` lookup and the `Process` that runs `ifconfig` are not modelled. Their output is an input, and only the text parsing is modelled.
- `loadServerInfo`'s request and the QR image are not modelled. The key is an input.
- MacSimple.ChatView.StreamChat: requires a non-empty message list; the source would trap on an empty one.
- MacServer.ChatReply: the reply to a failed `generateResponse` is modelled as its error's description put into the JSON text. There is no escaping, as in the source.
- `URL.appendingPathComponent` and `URL(string:)` are inputs: a parsed URL, or none.
- The test helper's `connect`, `exportResults` and the simulated random delay are not modelled.
- All SwiftUI views, the app entry points, `AppState`, the build files and the website script are not modelled.

## Findings

| source | as written | input that shows it | evidently intended | confidence | as-written member | corrected member |
|---|---|---|---|---|---|---|
| server/main.go:252-258 | the CGNAT clause indexes `ip[0]` and `ip[1]` of the address itself; `net.ParseIP` returns 16 bytes, whose byte 0 is 0 for IPv4 | a peer "100.64.0.1:41641" | 100.64.0.0/10 (Tailscale) accepted, by testing the bytes of `ip.To4()` | not executed | AccessGuard.CgnatRefusedAsWritten | AccessGuard.IsLocalIPRanges |
| mac-app/QuicPair/Services/OllamaService.swift:172-199 | every chunk rescans the whole buffer, the incomplete last line included, then keeps that line | a complete JSON line in one chunk, then "\n" in the next: its token is delivered twice | only complete lines are scanned, the rest is kept for the next chunk | not executed | MacOllama.LateNewlineRepeats | MacOllama.CompleteLinesChunkingInvariant |
