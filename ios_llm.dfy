/**
 * The stand-alone iOS client `LLMClient`: the ICE server list it is set up
 * with, the classification of the `connect` handshake's outcome, the chat
 * envelope it sends, and the `t0` first-token timer on its data channel.
 * Times are integer milliseconds read from a clock given as an input.
 */
module LLMClientModel {
  import opened Wrappers
  import opened Json

  const DefaultModel: string := "llama3.1:8b-instruct-q4_K_M"
  const DefaultStun: seq<string> := ["stun:stun.l.google.com:19302"]

  datatype IceServer = IceServer(urls: seq<string>, username: Option<string>, credential: Option<string>)

  /** The ICE servers of `setupPeer`: the STUN entry, then TURN only when all three TURN settings are given. */
  function IceServers(stunURLs: seq<string>, turnURL: Option<string>, turnUser: Option<string>, turnPass: Option<string>)
    : (r: seq<IceServer>)
    ensures |r| >= 1 && r[0] == IceServer(stunURLs, None, None)
    ensures |r| == 2 <==> turnURL.Some? && turnUser.Some? && turnPass.Some?
    ensures |r| <= 2
    ensures |r| == 2 ==> r[1] == IceServer([turnURL.value], turnUser, turnPass)
  {
    [IceServer(stunURLs, None, None)]
      + if turnURL.Some? && turnUser.Some? && turnPass.Some? then [IceServer([turnURL.value], turnUser, turnPass)] else []
  }

  /** The error a failed `connect` reports. */
  datatype ConnectError =
    | SystemError(description: string)  // an error some step handed back
    | NSError(domain: string, code: int)

  /**
   * What `connect` completes with. Each step's outcome is an input: the
   * offer (None when no SDP came back, with the error if one did), the
   * local-description error, the transport error, the decoded reply body
   * and the remote-description error.
   */
  function ConnectResult(offer: Option<string>, offerErr: Option<string>, localErr: Option<string>,
                         transportErr: Option<string>, reply: Option<Json>, remoteErr: Option<string>)
    : (r: Result<(), ConnectError>)
  {
    if offer.None? then
      Failure(if offerErr.Some? then SystemError(offerErr.value) else NSError("offer", -1))
    else if localErr.Some? then Failure(SystemError(localErr.value))
    else if transportErr.Some? then Failure(SystemError(transportErr.value))
    else if reply.None? || GetString(reply.value, "sdp").None? then Failure(NSError("bad_answer", -2))
    else if remoteErr.Some? then Failure(SystemError(remoteErr.value))
    else Success(())
  }

  /** Success exactly when every step succeeded and the answer carried an SDP string. */
  lemma ConnectSucceedsIff(offer: Option<string>, offerErr: Option<string>, localErr: Option<string>,
                           transportErr: Option<string>, reply: Option<Json>, remoteErr: Option<string>)
    ensures ConnectResult(offer, offerErr, localErr, transportErr, reply, remoteErr).Success?
            <==> offer.Some? && localErr.None? && transportErr.None? && reply.Some?
                 && GetString(reply.value, "sdp").Some? && remoteErr.None?
    ensures offer.Some? && localErr.None? && transportErr.None?
            && (reply.None? || GetString(reply.value, "sdp").None?) ==>
              ConnectResult(offer, offerErr, localErr, transportErr, reply, remoteErr) == Failure(NSError("bad_answer", -2))
    ensures offer.None? && offerErr.None? ==>
              ConnectResult(offer, offerErr, localErr, transportErr, reply, remoteErr) == Failure(NSError("offer", -1))
  {
  }

  /** The chat envelope `sendChat` writes. */
  function ChatEnvelope(prompt: string, model: string): (j: Json)
    ensures j.JObj? && j.fields.Keys == {"op", "model", "prompt", "stream"}
    ensures GetString(j, "op") == Some("chat") && GetString(j, "model") == Some(model)
    ensures GetString(j, "prompt") == Some(prompt) && GetBool(j, "stream") == Some(true)
  {
    JObj(map["op" := JStr("chat"), "model" := JStr(model), "prompt" := JStr(prompt), "stream" := JBool(true)])
  }

  /** An inbound message as the delegate tells them apart. */
  datatype Inbound = ContentDelta(content: string) | Ignored

  /** A "delta" with string content, or anything else (no JSON object, no op, done, error, another op). */
  function Classify(decoded: Option<Json>): (m: Inbound)
    ensures m.ContentDelta? <==> decoded.Some? && GetString(decoded.value, "op") == Some("delta")
                                 && GetString(decoded.value, "content").Some?
    ensures m.ContentDelta? ==> Some(m.content) == GetString(decoded.value, "content")
  {
    if decoded.Some? && GetString(decoded.value, "op") == Some("delta") && GetString(decoded.value, "content").Some?
    then ContentDelta(GetString(decoded.value, "content").value)
    else Ignored
  }

  /** One event seen by the timer: a send at a time, or an inbound message at a time. */
  datatype Event = SentAt(at: int) | ReceivedAt(m: Inbound, at: int)

  /** The timer after one event and the TTFT it reports, if any. */
  function TimerStep(t0: int, e: Event): (r: (int, Option<int>))
    ensures e.SentAt? ==> r == (e.at, None)
    ensures e.ReceivedAt? && e.m.ContentDelta? && t0 != 0 ==> r == (0, Some(e.at - t0))
    ensures e.ReceivedAt? && (e.m.Ignored? || t0 == 0) ==> r == (t0, None)
  {
    match e
    case SentAt(at) => (at, None)
    case ReceivedAt(m, at) => if m.ContentDelta? && t0 != 0 then (0, Some(at - t0)) else (t0, None)
  }

  /** The TTFTs reported over a run of events. */
  function Reports(events: seq<Event>, t0: int): seq<int>
    decreases |events|
  {
    if events == [] then []
    else
      var (t1, rep) := TimerStep(t0, events[0]);
      (if rep.Some? then [rep.value] else []) + Reports(events[1..], t1)
  }

  function SendCount(events: seq<Event>): nat
    decreases |events|
  {
    if events == [] then 0 else (if events[0].SentAt? then 1 else 0) + SendCount(events[1..])
  }

  /** No more TTFTs than sends (plus one for a timer already running). */
  lemma {:induction false} ReportsAtMostSends(events: seq<Event>, t0: int)
    ensures |Reports(events, t0)| <= SendCount(events) + (if t0 != 0 then 1 else 0)
    decreases |events|
  {
    if events != [] {
      var (t1, rep) := TimerStep(t0, events[0]);
      ReportsAtMostSends(events[1..], t1);
    }
  }

  /**
   * After a send at `sent`, the first content delta reports its time
   * since that send, however many messages without content came between,
   * and the deltas after it report nothing until the next send.
   */
  lemma {:induction false} FirstDeltaReports(sent: int, between: seq<Inbound>, at: int, content: string, rest: seq<Inbound>, times: seq<int>)
    requires sent != 0
    requires forall k :: 0 <= k < |between| ==> between[k].Ignored?
    requires |times| == |rest|
    ensures Reports([SentAt(sent)] + Received(between, at) + [ReceivedAt(ContentDelta(content), at)] + Zip(rest, times), 0)
            == [at - sent]
  {
    var tail := [ReceivedAt(ContentDelta(content), at)] + Zip(rest, times);
    var all := [SentAt(sent)] + Received(between, at) + tail;
    assert all == [SentAt(sent)] + Received(between, at) + [ReceivedAt(ContentDelta(content), at)] + Zip(rest, times);
    assert all[0] == SentAt(sent);
    assert all[1..] == Received(between, at) + tail;
    assert Reports(all, 0) == Reports(all[1..], sent);
    IgnoredSkipped(between, at, sent, tail);
    assert tail[1..] == Zip(rest, times);
    NoSendSilent(Zip(rest, times));
    assert Reports(tail, sent) == [at - sent] + Reports(Zip(rest, times), 0);
  }

  /** Messages without content, all at time `at`. */
  function Received(ms: seq<Inbound>, at: int): (r: seq<Event>)
    ensures |r| == |ms| && forall k :: 0 <= k < |ms| ==> r[k] == ReceivedAt(ms[k], at)
  {
    seq(|ms|, k requires 0 <= k < |ms| => ReceivedAt(ms[k], at))
  }

  function Zip(ms: seq<Inbound>, times: seq<int>): (r: seq<Event>)
    requires |ms| == |times|
    ensures |r| == |ms| && forall k :: 0 <= k < |ms| ==> r[k] == ReceivedAt(ms[k], times[k])
  {
    seq(|ms|, k requires 0 <= k < |ms| => ReceivedAt(ms[k], times[k]))
  }

  lemma {:induction false} IgnoredSkipped(between: seq<Inbound>, at: int, t0: int, tail: seq<Event>)
    requires forall k :: 0 <= k < |between| ==> between[k].Ignored?
    ensures Reports(Received(between, at) + tail, t0) == Reports(tail, t0)
    decreases |between|
  {
    if between != [] {
      var evs := Received(between, at) + tail;
      assert evs[0] == ReceivedAt(between[0], at);
      assert evs[1..] == Received(between[1..], at) + tail;
      IgnoredSkipped(between[1..], at, t0, tail);
    } else {
      assert Received(between, at) + tail == tail;
    }
  }

  /** With the timer stopped and no send, nothing is reported. */
  lemma {:induction false} NoSendSilent(events: seq<Event>)
    requires forall k :: 0 <= k < |events| ==> events[k].ReceivedAt?
    ensures Reports(events, 0) == []
    decreases |events|
  {
    if events != [] {
      NoSendSilent(events[1..]);
    }
  }

  class LLMClient {
    /** `0` when no first token is awaited, else the time of the latest send. */
    var t0: int
    /** Whether `dataChannel` is set. */
    var hasChannel: bool
    /** Every message written to the data channel. */
    var sent: seq<Json>
    /** The TTFTs printed, in milliseconds. */
    var reports: seq<int>
    /** The content printed, in order. */
    var streamed: string
    const signalingURL: string
    const iceServers: seq<IceServer>

    /** `init` and `setupPeer`. */
    constructor (signalingEndpoint: string, stunURLs: seq<string>,
                 turnURL: Option<string>, turnUser: Option<string>, turnPass: Option<string>)
      ensures signalingURL == signalingEndpoint + "/signaling/offer"
      ensures iceServers == IceServers(stunURLs, turnURL, turnUser, turnPass)
      ensures t0 == 0 && !hasChannel && sent == [] && reports == [] && streamed == ""
    {
      signalingURL := signalingEndpoint + "/signaling/offer";
      var servers := [IceServer(stunURLs, None, None)];
      if turnURL.Some? && turnUser.Some? && turnPass.Some? {
        servers := servers + [IceServer([turnURL.value], turnUser, turnPass)];
      }
      iceServers := servers;
      t0 := 0;
      hasChannel := false;
      sent := [];
      reports := [];
      streamed := "";
    }

    /** `connect`: a data channel is opened (when the peer connection yields one) and the handshake's outcome classified. */
    method Connect(channelCreated: bool, offer: Option<string>, offerErr: Option<string>, localErr: Option<string>,
                   transportErr: Option<string>, reply: Option<Json>, remoteErr: Option<string>)
      returns (r: Result<(), ConnectError>)
      modifies this
      ensures r == ConnectResult(offer, offerErr, localErr, transportErr, reply, remoteErr)
      ensures hasChannel == channelCreated
      ensures t0 == old(t0) && sent == old(sent) && reports == old(reports) && streamed == old(streamed)
    {
      hasChannel := channelCreated;
      if offer.None? {
        return Failure(if offerErr.Some? then SystemError(offerErr.value) else NSError("offer", -1));
      }
      if localErr.Some? {
        return Failure(SystemError(localErr.value));
      }
      if transportErr.Some? {
        return Failure(SystemError(transportErr.value));
      }
      if reply.None? || GetString(reply.value, "sdp").None? {
        return Failure(NSError("bad_answer", -2));
      }
      if remoteErr.Some? {
        return Failure(SystemError(remoteErr.value));
      }
      return Success(());
    }

    /** The peer connection's `didOpen`: the server's channel replaces ours. */
    method OnDataChannelOpen()
      modifies this
      ensures hasChannel && t0 == old(t0) && sent == old(sent) && reports == old(reports) && streamed == old(streamed)
    {
      hasChannel := true;
    }

    /** `sendChat`: the timer is armed at `now`, then the envelope goes out. */
    method SendChat(prompt: string, model: Option<string>, now: int)
      modifies this
      ensures (t0, None) == TimerStep(old(t0), SentAt(now))
      ensures sent == old(sent) + (if hasChannel then [ChatEnvelope(prompt, model.GetOr(DefaultModel))] else [])
      ensures hasChannel == old(hasChannel) && reports == old(reports) && streamed == old(streamed)
    {
      var msg := ChatEnvelope(prompt, model.GetOr(DefaultModel));
      t0 := now;
      if hasChannel {
        sent := sent + [msg];
      }
    }

    /** The data channel's receive handler, at time `now`. */
    method Receive(decoded: Option<Json>, now: int)
      modifies this
      ensures var (t1, rep) := TimerStep(old(t0), ReceivedAt(Classify(decoded), now));
              t0 == t1 && reports == old(reports) + (if rep.Some? then [rep.value] else [])
      ensures streamed == old(streamed) + (if Classify(decoded).ContentDelta? then Classify(decoded).content else "")
      ensures hasChannel == old(hasChannel) && sent == old(sent)
    {
      if decoded.None? {
        return;
      }
      var op := GetString(decoded.value, "op");
      if op.None? {
        return;
      }
      if op.value == "delta" {
        var content := GetString(decoded.value, "content");
        if content.Some? {
          if t0 != 0 {
            reports := reports + [now - t0];
            t0 := 0;
          }
          streamed := streamed + content.value;
        }
      }
    }
  }
}
