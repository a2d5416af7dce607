/**
 * The server's "Noise" manager. Despite the protocol name it carries, it
 * keeps a table of sessions that are complete from the start and
 * "encrypts" by XOR-ing every byte with 0xAA, or not at all in the
 * development plaintext mode.
 */
module NoiseStub {
  import opened Wrappers

  type Byte = bv8

  const Mask: Byte := 0xAA
  const ProtocolName := "Noise_IK_25519_ChaChaPoly_BLAKE2b"
  const KeyLength := 32

  /** The bytes of an ASCII string. */
  function AsciiBytes(s: string): (b: seq<Byte>)
    requires forall i :: 0 <= i < |s| ==> s[i] < 128 as char
    ensures |b| == |s|
  {
    seq(|s|, i requires 0 <= i < |s| => s[i] as int as Byte)
  }

  /** The reply to every handshake message. */
  const HandshakeAck: seq<Byte> := AsciiBytes("HANDSHAKE_ACK")

  datatype Session = Session(isComplete: bool)

  // ---------------------------------------------------------------------
  // The cipher, as functions

  /** Every byte XOR-ed with 0xAA. */
  function XorAll(s: seq<Byte>): (r: seq<Byte>)
    ensures |r| == |s|
  {
    seq(|s|, i requires 0 <= i < |s| => s[i] ^ Mask)
  }

  /** What both Encrypt and Decrypt compute. */
  function Cipher(devPlaintext: bool, s: seq<Byte>): seq<Byte> {
    if devPlaintext then s else XorAll(s)
  }

  lemma XorAllInvolution(s: seq<Byte>)
    ensures XorAll(XorAll(s)) == s
  {
    var r := XorAll(XorAll(s));
    forall i | 0 <= i < |s| ensures r[i] == s[i] {
      assert r[i] == (s[i] ^ Mask) ^ Mask;
    }
  }

  /** Decrypt undoes Encrypt and Encrypt undoes Decrypt, in both modes. */
  lemma CipherRoundTrip(devPlaintext: bool, s: seq<Byte>)
    ensures Cipher(devPlaintext, Cipher(devPlaintext, s)) == s
    ensures |Cipher(devPlaintext, s)| == |s|
  {
    if !devPlaintext {
      XorAllInvolution(s);
    }
  }

  /** In plaintext mode nothing changes; otherwise no byte is left as it was. */
  lemma CipherModes(devPlaintext: bool, s: seq<Byte>)
    ensures devPlaintext ==> Cipher(devPlaintext, s) == s
    ensures !devPlaintext ==> forall i :: 0 <= i < |s| ==> Cipher(devPlaintext, s)[i] != s[i]
  {
    if !devPlaintext {
      forall i | 0 <= i < |s| ensures XorAll(s)[i] != s[i] {
        assert XorAll(s)[i] == s[i] ^ Mask;
      }
    }
  }

  // ---------------------------------------------------------------------
  // The manager

  class NoiseManager {
    var sessions: map<string, Session>
    const devPlaintext: bool
    const privateKey: seq<Byte>
    const publicKey: seq<Byte>

    /** Every stored session is complete: the manager never stores any other kind. */
    predicate AllComplete()
      reads this
    {
      forall id :: id in sessions ==> sessions[id].isComplete
    }

    /**
     * `NewNoiseManager(devMode)`. `envAllowPlaintext` is the value of
     * DEV_ALLOW_PLAINTEXT; the two random 32-byte keys are inputs.
     */
    constructor (devMode: bool, envAllowPlaintext: string, randomPrivate: seq<Byte>, randomPublic: seq<Byte>)
      requires |randomPrivate| == KeyLength && |randomPublic| == KeyLength
      ensures devPlaintext <==> devMode && envAllowPlaintext == "1"
      ensures sessions == map[] && AllComplete()
      ensures privateKey == randomPrivate && publicKey == randomPublic
    {
      sessions := map[];
      devPlaintext := devMode && envAllowPlaintext == "1";
      privateKey := randomPrivate;
      publicKey := randomPublic;
    }

    /** `StartSession`: a complete session under `sessionID`, replacing any earlier one. */
    method StartSession(sessionID: string, remotePublicKey: seq<Byte>) returns (session: Session, err: Option<string>)
      modifies this
      ensures sessions == old(sessions)[sessionID := Session(true)]
      ensures session == Session(true) && err.None?
      ensures old(AllComplete()) ==> AllComplete()
    {
      session := Session(true);
      sessions := sessions[sessionID := session];
      err := None;
    }

    /** `HandleHandshake`: adds a complete session when there is none and always acknowledges. */
    method HandleHandshake(sessionID: string, message: seq<Byte>) returns (reply: seq<Byte>, err: Option<string>)
      modifies this
      ensures sessionID in old(sessions) ==> sessions == old(sessions)
      ensures sessionID !in old(sessions) ==> sessions == old(sessions)[sessionID := Session(true)]
      ensures reply == HandshakeAck && err.None?
      ensures old(AllComplete()) ==> AllComplete()
    {
      if sessionID !in sessions {
        sessions := sessions[sessionID := Session(true)];
      }
      reply := HandshakeAck;
      err := None;
    }

    /** `Encrypt`: fills a fresh buffer byte by byte; the session is not consulted and nothing fails. */
    method Encrypt(sessionID: string, plaintext: seq<Byte>) returns (ciphertext: seq<Byte>, err: Option<string>)
      ensures ciphertext == Cipher(devPlaintext, plaintext) && err.None?
    {
      err := None;
      if devPlaintext {
        return plaintext, err;
      }
      var encrypted := new Byte[|plaintext|];
      for i := 0 to |plaintext|
        invariant forall k :: 0 <= k < i ==> encrypted[k] == plaintext[k] ^ Mask
      {
        encrypted[i] := plaintext[i] ^ Mask;
      }
      ciphertext := encrypted[..];
    }

    /** `Decrypt`: the same computation as `Encrypt`. */
    method Decrypt(sessionID: string, ciphertext: seq<Byte>) returns (plaintext: seq<Byte>, err: Option<string>)
      ensures plaintext == Cipher(devPlaintext, ciphertext) && err.None?
    {
      err := None;
      if devPlaintext {
        return ciphertext, err;
      }
      var decrypted := new Byte[|ciphertext|];
      for i := 0 to |ciphertext|
        invariant forall k :: 0 <= k < i ==> decrypted[k] == ciphertext[k] ^ Mask
      {
        decrypted[i] := ciphertext[i] ^ Mask;
      }
      plaintext := decrypted[..];
    }

    /** `CloseSession`: removes exactly `sessionID`. */
    method CloseSession(sessionID: string)
      modifies this
      ensures sessions == old(sessions) - {sessionID}
      ensures old(AllComplete()) ==> AllComplete()
    {
      sessions := sessions - {sessionID};
    }

    /** `GetSessionStats`: the number of sessions and the plaintext flag (the key is left encoded). */
    method GetSessionStats() returns (activeSessions: nat, plaintextMode: bool)
      ensures activeSessions == |sessions| && plaintextMode == devPlaintext
    {
      activeSessions := |sessions|;
      plaintextMode := devPlaintext;
    }
  }

  /** A message encrypted by one manager is recovered by any manager in the same mode. */
  method EncryptThenDecrypt(m: NoiseManager, id: string, text: seq<Byte>) returns (back: seq<Byte>)
    ensures back == text
  {
    var c, e1 := m.Encrypt(id, text);
    back, e1 := m.Decrypt(id, c);
    CipherRoundTrip(m.devPlaintext, text);
  }
}
