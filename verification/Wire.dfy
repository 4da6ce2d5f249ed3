/** Symbolic cryptography and the frames of the protocol.

    Keys, tags and ciphertexts are free constructors, so two of them are equal only when they were
    built from the same inputs. Diffie-Hellman is the exception: a shared secret is an unordered
    pair, which is the commutativity of X25519 (section 6.1 of RFC 7748).
    A frame is the record its JSON text decodes to; absent string fields are empty. */
module Wire {
  datatype Option<+T> = None | Some(value: T)

  type Byte = b: int | 0 <= b < 256
  type U8 = x: int | 0 <= x < 256
  type U32 = x: int | 0 <= x < 0x1_0000_0000
  type Nonce16 = n: seq<Byte> | |n| == 16 witness [0, 0, 0, 0, 0, 0, 0, 0, 0, 0, 0, 0, 0, 0, 0, 0]

  /** A base64 field: text that does not decode, or the bytes it decodes to ("" decodes to []). */
  datatype Encoded = BadEncoding | Encoded(bytes: seq<Byte>)

  datatype PrivateKey = NoPrivateKey | BadPrivateKey | Private(id: nat)
  datatype PublicKey = NoPublicKey | BadPublicKey | PublicOf(id: nat)
  datatype Shared = Shared(lo: nat, hi: nat)
  datatype Key = NoKey | SessionKey(shared: Shared, clientNonce: seq<Byte>, serverNonce: seq<Byte>)

  datatype Tag =
    | NoTag
    | ForeignTag(id: nat)
    | HelloTag(psk: string, publicKey: PublicKey, nonce: seq<Byte>, timestamp: int)
    | AckTag(key: Key, serverNonce: seq<Byte>)
    | ChallengeTag(key: Key, serverNonce: seq<Byte>)
    | ProofTag(key: Key, ticket: Tag)
    | ReadyTag(key: Key, sessionID: string)

  datatype Ciphertext = ForeignText(id: nat) | Sealed(key: Key, plain: seq<Byte>)

  datatype Frame =
    | Garbage
    | Hello(protoVersion: string, clientPublicKey: PublicKey, clientNonce: Encoded, timestamp: int, authTag: Tag)
    | Ack(serverNonce: Encoded, mac: Tag)
    | Challenge(protoVersion: string, serverNonce: Encoded, ticket: Tag)
    | Auth(protoVersion: string, proof: Tag)
    | Ready(protoVersion: string, sessionID: string, mac: Tag)
    | Data(protoVersion: string, sessionID: string, channel: U8, sequence: U32, mode: string, ciphertext: Ciphertext)
    | Error(message: string)

  /** A received payload: its bytes, and the record they decode to. */
  datatype Packet = Packet(bytes: seq<Byte>, frame: Frame)

  // ---------- key agreement and sealing ----------

  function SharedSecret(mine: PrivateKey, theirs: PublicKey): Option<Shared> {
    if mine.Private? && theirs.PublicOf? then
      Some(if mine.id <= theirs.id then Shared(mine.id, theirs.id) else Shared(theirs.id, mine.id))
    else
      None
  }

  function DeriveSessionKey(shared: Shared, clientNonce: seq<Byte>, serverNonce: seq<Byte>): Key {
    SessionKey(shared, clientNonce, serverNonce)
  }

  function Decrypt(key: Key, text: Ciphertext): Option<seq<Byte>> {
    if text.Sealed? && text.key == key then Some(text.plain) else None
  }

  function Ascii(s: string): seq<Byte> {
    seq(|s|, i requires 0 <= i < |s| => s[i] as int % 256)
  }

  // ---------- hello and the v1 acknowledgement ----------

  function NewHello(publicKey: PublicKey, psk: string, protoVersion: string, nonce: Nonce16, timestamp: int): Frame {
    Hello(if protoVersion == "" then "v1" else protoVersion, publicKey, Encoded(nonce), timestamp,
          HelloTag(psk, publicKey, nonce, timestamp))
  }

  datatype ParsedHello = ParsedHello(protoVersion: string, clientPublicKey: PublicKey, nonce: Nonce16, timestamp: int, authTag: Tag)

  function ParseHello(frame: Frame): Option<ParsedHello> {
    if !frame.Hello? || frame.clientPublicKey.NoPublicKey? || frame.clientNonce == Encoded([]) then None
    else if frame.clientNonce.BadEncoding? || |frame.clientNonce.bytes| != 16 then None
    else Some(ParsedHello(if frame.protoVersion == "" then "v1" else frame.protoVersion,
                          frame.clientPublicKey, frame.clientNonce.bytes, frame.timestamp, frame.authTag))
  }

  predicate VerifyHelloAuth(psk: string, hello: ParsedHello) {
    psk == "" || hello.authTag == HelloTag(psk, hello.clientPublicKey, hello.nonce, hello.timestamp)
  }

  const TWO_63: int := 0x8000_0000_0000_0000
  const TWO_64: int := 0x1_0000_0000_0000_0000

  /** Two's complement reduction to the 64-bit signed range. */
  function ToInt64(x: int): int {
    (x + TWO_63) % TWO_64 - TWO_63
  }

  predicate ValidateTimestamp(now: int, timestamp: int, skewSec: int) {
    var diff := ToInt64(now - timestamp);
    (if diff < 0 then ToInt64(-diff) else diff) <= skewSec
  }

  function BuildAck(key: Key, serverNonce: seq<Byte>): Frame {
    Ack(Encoded(serverNonce), AckTag(key, serverNonce))
  }

  predicate VerifyAck(key: Key, frame: Frame) {
    frame.Ack? && frame.serverNonce.Encoded? && |frame.serverNonce.bytes| == 16
    && frame.mac == AckTag(key, frame.serverNonce.bytes)
  }

  // ---------- the v2 challenge, proof and ready frames ----------

  function BuildChallenge(key: Key, serverNonce: seq<Byte>): Frame {
    Challenge("v2", Encoded(serverNonce), ChallengeTag(key, serverNonce))
  }

  /** The server nonce of an acceptable challenge. */
  function ParseChallenge(frame: Frame): Option<Nonce16> {
    if frame.Challenge? && frame.protoVersion == "v2" && frame.serverNonce.Encoded? && |frame.serverNonce.bytes| == 16
    then Some(frame.serverNonce.bytes)
    else None
  }

  predicate VerifyAuthProof(key: Key, ticket: Tag, proof: Tag) {
    proof == ProofTag(key, ticket)
  }

  function BuildReady(key: Key, sessionID: string): Frame {
    Ready("v2", sessionID, ReadyTag(key, sessionID))
  }

  predicate VerifyReady(key: Key, frame: Frame) {
    frame.Ready? && frame.protoVersion == "v2" && frame.mac == ReadyTag(key, frame.sessionID)
  }

  // ---------- v2 data frames and datagrams ----------

  function BuildDataFrameV2(key: Key, channel: U8, seqNo: U32, mode: string, payload: seq<Byte>): Frame {
    Data("v2", "", channel, seqNo, mode, Sealed(key, payload))
  }

  function ParseDataFrameV2(key: Key, frame: Frame): Option<seq<Byte>> {
    if frame.Data? && frame.protoVersion == "v2" then Decrypt(key, frame.ciphertext) else None
  }

  /** Built by decoding the data frame and adding the session id. */
  function BuildDatagramFrameV2(key: Key, sessionID: string, channel: U8, seqNo: U32, mode: string, payload: seq<Byte>): Frame {
    var frame := BuildDataFrameV2(key, channel, seqNo, mode, payload);
    Data(frame.protoVersion, sessionID, frame.channel, frame.sequence, frame.mode, frame.ciphertext)
  }

  function ParseDatagramSessionID(frame: Frame): Option<string> {
    if frame.Data? && frame.protoVersion == "v2" && frame.sessionID != "" then Some(frame.sessionID) else None
  }

  function ParseDatagramFrameV2(key: Key, frame: Frame): Option<seq<Byte>> {
    if frame.Data? && frame.protoVersion == "v2" && frame.sessionID != "" then Decrypt(key, frame.ciphertext) else None
  }

  // ---------- traffic shaping modes ----------

  function SelectObfsMode(seqNo: U32, payloadLen: nat): string {
    if payloadLen > 900 then "burst"
    else if seqNo % 3 == 0 then "drip"
    else if seqNo % 3 == 1 then "cover"
    else "adaptive"
  }

  function SelectObfsModeForProfile(profile: string, seqNo: U32, payloadLen: nat): string {
    if profile == "aggressive" then
      if payloadLen > 1100 then "burst" else if seqNo % 2 == 0 then "cover" else "adaptive"
    else if profile == "recovery" then
      if seqNo % 2 == 0 then "drip" else "cover"
    else
      SelectObfsMode(seqNo, payloadLen)
  }

  // ---------- properties ----------

  /** Both ends of an X25519 exchange derive the same session key. */
  lemma SharedSecretCommutes(a: nat, b: nat)
    ensures SharedSecret(Private(a), PublicOf(b)) == SharedSecret(Private(b), PublicOf(a))
    ensures SharedSecret(Private(a), PublicOf(b)).Some?
  {
  }

  /** Two exchanges share a secret only if they are between the same two keys. */
  lemma SharedSecretIsThePair(a: nat, b: nat, c: nat, d: nat)
    ensures SharedSecret(Private(a), PublicOf(b)) == SharedSecret(Private(c), PublicOf(d)) <==> (a == c && b == d) || (a == d && b == c)
  {
  }

  /** The skew check accepts exactly the timestamps within the skew, and one more: the timestamp whose
      difference to the clock is 2^63, which 64-bit negation maps to itself. */
  lemma TimestampAccepted(now: int, timestamp: int, skewSec: int)
    requires 0 <= now < TWO_63 / 2 && -TWO_63 <= skewSec < TWO_63 / 2
    requires -TWO_63 <= timestamp < TWO_63
    ensures ValidateTimestamp(now, timestamp, skewSec) <==>
            (-skewSec <= now - timestamp <= skewSec || now - timestamp == TWO_63)
  {
    var d := now - timestamp;
    if d < TWO_63 {
      assert ToInt64(d) == d;
    } else {
      assert ToInt64(d) == d - TWO_64;
      if d > TWO_63 {
        assert ToInt64(TWO_64 - d) == TWO_64 - d;
      }
    }
  }

  /** Every hello the client can build parses to its own fields and passes the pre-shared-key check
      exactly when the server is configured with the same key or with none. */
  lemma HelloRoundTrip(publicKey: PublicKey, psk: string, serverPsk: string, protoVersion: string, nonce: Nonce16, timestamp: int)
    requires !publicKey.NoPublicKey?
    ensures var parsed := ParseHello(NewHello(publicKey, psk, protoVersion, nonce, timestamp));
            && parsed.Some?
            && parsed.value.clientPublicKey == publicKey && parsed.value.nonce == nonce && parsed.value.timestamp == timestamp
            && parsed.value.protoVersion == (if protoVersion == "" then "v1" else protoVersion)
            && (VerifyHelloAuth(serverPsk, parsed.value) <==> serverPsk == "" || serverPsk == psk)
  {
  }

  /** A v2 data frame or datagram gives back its payload under the key it was sealed with and under no
      other; the datagram's short header parse agrees with its full parse. */
  lemma DataRoundTrip(key: Key, other: Key, sessionID: string, channel: U8, seqNo: U32, mode: string, payload: seq<Byte>)
    ensures var frame := BuildDataFrameV2(key, channel, seqNo, mode, payload);
            && ParseDataFrameV2(other, frame) == (if other == key then Some(payload) else None)
            && ParseDatagramSessionID(frame) == None
    ensures var dgram := BuildDatagramFrameV2(key, sessionID, channel, seqNo, mode, payload);
            && dgram.channel == channel && dgram.sequence == seqNo && dgram.mode == mode
            && ParseDatagramSessionID(dgram) == (if sessionID == "" then None else Some(sessionID))
            && ParseDatagramFrameV2(other, dgram) == (if other == key && sessionID != "" then Some(payload) else None)
    ensures forall frame :: ParseDatagramFrameV2(key, frame).Some? ==> ParseDatagramSessionID(frame).Some?
  {
  }
}
