/** How long the JSON text of a v2 frame is, and what fits the buffers and limits it has to pass. */
module Sizes {
  import opened Wire
  import SM = SessionModel

  const MAX_FRAME := 65535
  const DATAGRAM_BUFFER := 2048

  // ---------- decimal and base64 text ----------

  function Digit(d: nat): char
    requires d < 10
  {
    ['0', '1', '2', '3', '4', '5', '6', '7', '8', '9'][d]
  }

  function Decimal(n: nat): string {
    if n < 10 then [Digit(n)] else Decimal(n / 10) + [Digit(n % 10)]
  }

  const ALPHABET := "ABCDEFGHIJKLMNOPQRSTUVWXYZabcdefghijklmnopqrstuvwxyz0123456789+/"

  function Sextet(x: nat): char {
    if x < |ALPHABET| then ALPHABET[x] else '='
  }

  /** One, two or three bytes as four characters. */
  function Group(bs: seq<Byte>): (r: string)
    requires 1 <= |bs| <= 3
    ensures |r| == 4
  {
    var second := if |bs| >= 2 then bs[1] else 0;
    var third := if |bs| == 3 then bs[2] else 0;
    [Sextet(bs[0] / 4),
     Sextet(bs[0] % 4 * 16 + second / 16),
     if |bs| >= 2 then Sextet(second % 16 * 4 + third / 64) else '=',
     if |bs| == 3 then Sextet(third % 64) else '=']
  }

  /** Base64 as in section 4 of RFC 4648: three bytes to four characters, the last group padded. */
  function Base64(bs: seq<Byte>): string {
    if |bs| == 0 then ""
    else if |bs| <= 3 then Group(bs)
    else Group(bs[..3]) + Base64(bs[3..])
  }

  function Base64Len(n: nat): nat {
    4 * ((n + 2) / 3)
  }

  lemma {:induction false} Base64Length(bs: seq<Byte>)
    ensures |Base64(bs)| == Base64Len(|bs|)
    decreases |bs|
  {
    if |bs| > 3 {
      var rest := bs[3..];
      Base64Length(rest);
      Base64Step(bs, Base64(rest));
      ThreeMore(|rest|);
    }
  }

  lemma ThreeMore(n: nat)
    ensures Base64Len(n + 3) == Base64Len(n) + 4
  {
  }

  lemma Base64Step(bs: seq<Byte>, rest: string)
    requires |bs| > 3 && rest == Base64(bs[3..])
    ensures |Base64(bs)| == 4 + |rest|
  {
  }

  lemma {:induction false} DecimalLength(n: nat, k: nat, bound: nat)
    requires k > 0 && bound == Pow10(k) && n < bound
    ensures 1 <= |Decimal(n)| <= k
    decreases k
  {
    if n >= 10 { DecimalLength(n / 10, k - 1, Pow10(k - 1)); }
  }

  function Pow10(k: nat): nat {
    if k == 0 then 1 else 10 * Pow10(k - 1)
  }

  /** A channel takes at most three digits and a sequence number at most ten. */
  lemma FieldDigits(channel: U8, seqNo: U32)
    ensures 1 <= |Decimal(channel)| <= 3 && 1 <= |Decimal(seqNo)| <= 10
  {
    assert Pow10(3) == 1000;
    assert Pow10(5) == 100000 && Pow10(10) == Pow10(5) * 100000 by {
      assert Pow10(6) == 10 * Pow10(5) && Pow10(7) == 10 * Pow10(6) && Pow10(8) == 10 * Pow10(7) && Pow10(9) == 10 * Pow10(8);
    }
    DecimalLength(channel, 3, 1000);
    DecimalLength(seqNo, 10, Pow10(10));
  }

  // ---------- the text of a frame ----------

  function Quoted(s: string): string {
    "\"" + s + "\""
  }

  /** The text of a v2 data frame, field by field; the values need no escaping. */
  function DataText(channel: U8, seqNo: U32, mode: string, ciphertext: string, padding: string): string {
    "{\"type\":\"data_v1\",\"proto_version\":\"v2\",\"channel\":" + Decimal(channel) + ",\"sequence\":" + Decimal(seqNo)
    + ",\"mode\":" + Quoted(mode) + ",\"ciphertext\":" + Quoted(ciphertext) + ",\"padding\":" + Quoted(padding) + "}"
  }

  function DatagramText(sessionID: string, channel: U8, seqNo: U32, mode: string, ciphertext: string, padding: string): string {
    "{\"type\":\"data_v1\",\"proto_version\":\"v2\",\"session_id\":" + Quoted(sessionID) + ",\"channel\":" + Decimal(channel)
    + ",\"sequence\":" + Decimal(seqNo) + ",\"mode\":" + Quoted(mode) + ",\"ciphertext\":" + Quoted(ciphertext)
    + ",\"padding\":" + Quoted(padding) + "}"
  }

  /** Sealing adds a 12-byte nonce and a 16-byte tag. */
  const SEAL_OVERHEAD := 28

  function DataLen(channel: U8, seqNo: U32, mode: string, payload: nat, pad: nat): nat {
    101 + |Decimal(channel)| + |Decimal(seqNo)| + |mode| + Base64Len(payload + SEAL_OVERHEAD) + Base64Len(pad)
  }

  function DatagramLen(sidLen: nat, channel: U8, seqNo: U32, mode: string, payload: nat, pad: nat): nat {
    DataLen(channel, seqNo, mode, payload, pad) + 16 + sidLen
  }

  /** The length of the text, from the lengths of its parts. */
  lemma TextLengths(sessionID: string, channel: U8, seqNo: U32, mode: string, sealed: seq<Byte>, padding: seq<Byte>)
    requires |sealed| >= SEAL_OVERHEAD
    ensures |DataText(channel, seqNo, mode, Base64(sealed), Base64(padding))|
            == DataLen(channel, seqNo, mode, |sealed| - SEAL_OVERHEAD, |padding|)
    ensures |DatagramText(sessionID, channel, seqNo, mode, Base64(sealed), Base64(padding))|
            == DatagramLen(|sessionID|, channel, seqNo, mode, |sealed| - SEAL_OVERHEAD, |padding|)
  {
    Base64Length(sealed);
    Base64Length(padding);
  }

  // ---------- datagrams ----------

  const SID_LEN := 16
  const MAX_PAD := 64

  /** Every datagram with this payload length is received whole, whatever the header and the padding. */
  ghost predicate AlwaysReceivedWhole(payload: nat) {
    forall channel: U8, seqNo: U32, pad: nat | pad <= MAX_PAD ::
      DatagramLen(SID_LEN, channel, seqNo, SelectObfsMode(seqNo, payload), payload, pad) <= DATAGRAM_BUFFER
  }

  lemma ModeLength(seqNo: U32, payload: nat)
    ensures |SelectObfsMode(seqNo, payload)| <= 8
    ensures payload > 900 ==> |SelectObfsMode(seqNo, payload)| == 5
  {
  }

  /** A payload of up to 1328 bytes always fits the 2048-byte receive buffer; from 1329 on it may not. */
  lemma ReceivedWholeIff(payload: nat)
    ensures AlwaysReceivedWhole(payload) <==> payload <= 1328
  {
    if payload <= 1328 {
      forall channel: U8, seqNo: U32, pad: nat | pad <= MAX_PAD
        ensures DatagramLen(SID_LEN, channel, seqNo, SelectObfsMode(seqNo, payload), payload, pad) <= DATAGRAM_BUFFER
      {
        DatagramFits(channel, seqNo, payload, pad);
      }
    } else {
      DatagramExceeds(payload);
    }
  }

  lemma DatagramFits(channel: U8, seqNo: U32, payload: nat, pad: nat)
    requires payload <= 1328 && pad <= MAX_PAD
    ensures DatagramLen(SID_LEN, channel, seqNo, SelectObfsMode(seqNo, payload), payload, pad) <= DATAGRAM_BUFFER
  {
    FieldDigits(channel, seqNo);
    ModeLength(seqNo, payload);
  }

  lemma DatagramExceeds(payload: nat)
    requires payload > 1328
    ensures DatagramLen(SID_LEN, 1, 0xFFFF_FFFF, SelectObfsMode(0xFFFF_FFFF, payload), payload, MAX_PAD) > DATAGRAM_BUFFER
  {
    LongestSequence();
    ModeLength(0xFFFF_FFFF, payload);
    assert |Decimal(1)| == 1;
  }

  lemma LongestSequence()
    ensures |Decimal(0xFFFF_FFFF)| == 10 && |Decimal(0xFFFF_FFFE)| == 10
  {
    LongNumber(0xFFFF_FFFF);
    LongNumber(0xFFFF_FFFE);
  }

  lemma LongNumber(n: nat)
    requires 1_000_000_000 <= n < 10_000_000_000
    ensures |Decimal(n)| == 10
  {
    MoreDigits(n, 1_000_000_000);
  }

  lemma {:induction false} MoreDigits(n: nat, low: nat)
    requires 10 <= low <= n < 10 * low && low % 10 == 0
    requires low in {10, 100, 1000, 10000, 100000, 1_000_000, 10_000_000, 100_000_000, 1_000_000_000}
    ensures |Decimal(n)| == |Decimal(low)|
    ensures low == 1_000_000_000 ==> |Decimal(low)| == 10
    decreases low
  {
    if low > 10 {
      MoreDigits(n / 10, low / 10);
      if low == 1_000_000_000 { TenDigits(); }
    }
  }

  lemma TenDigits()
    ensures |Decimal(1_000_000_000)| == 10
  {
    assert |Decimal(1000)| == 4;
    assert |Decimal(1_000_000)| == 7;
  }

  // ---------- TCP frames ----------

  /** A v2 request and the server's answer: the plaintext, the lengths of the random padding of each, and
      the zeros added to the answer in the clear. */
  datatype Exchange = Exchange(channel: U8, sequence: U32, plain: seq<Byte>, pad: nat, zeros: nat, replyPad: nat)

  function RequestLen(x: Exchange): nat {
    DataLen(x.channel, x.sequence, SelectObfsMode(x.sequence, |x.plain|), |x.plain|, x.pad)
  }

  /** The answer carries the decorated plaintext under the next sequence number. */
  function ReplyLen(cfg: SM.Config, x: Exchange): nat {
    var reply := SM.DecorateReply(cfg, x.plain, x.zeros);
    DataLen(x.channel, SM.Next(x.sequence), SelectObfsMode(SM.Next(x.sequence), |reply|), |reply|, x.replyPad)
  }

  /** The request fits a TCP frame and passes both size checks. */
  predicate Possible(cfg: SM.Config, x: Exchange) {
    && x.pad <= MAX_PAD && x.replyPad <= MAX_PAD && x.zeros <= 32
    && RequestLen(x) <= MAX_FRAME && RequestLen(x) <= cfg.maxPacketSize * 8 && |x.plain| <= cfg.maxPacketSize
  }

  /** The server's answer to every request it accepts fits a TCP frame. */
  ghost predicate AllRepliesFit(cfg: SM.Config) {
    forall x | Possible(cfg, x) :: ReplyLen(cfg, x) <= MAX_FRAME
  }

  /** The largest MaxPacketSize for which answers always fit. */
  function LargestPacketSize(obfs: bool): nat {
    if obfs then 48929 else 48961
  }

  lemma ReplyIsCounted(cfg: SM.Config, plain: seq<Byte>, pad: nat)
    ensures |SM.DecorateReply(cfg, plain, pad)| == 7 + |plain| + (if cfg.obfs then pad else 0)
  {
  }

  lemma LongReplyFits(channel: U8, seqNo: U32, n: nat, pad: nat)
    requires n <= 48968 && pad <= MAX_PAD
    ensures DataLen(channel, seqNo, SelectObfsMode(seqNo, n), n, pad) <= MAX_FRAME
  {
    FieldDigits(channel, seqNo);
    ModeLength(seqNo, n);
  }

  /** A request one byte over the limit, on the longest channel and sequence number, and its answer with
      all the padding there can be. */
  function OneByteMore(cfg: SM.Config): Exchange {
    Exchange(255, 0xFFFF_FFFE, SM.Zeros(LargestPacketSize(cfg.obfs) + 1), 0, 32, MAX_PAD)
  }

  lemma OneByteMoreIsPossible(cfg: SM.Config)
    requires cfg.maxPacketSize > LargestPacketSize(cfg.obfs)
    ensures Possible(cfg, OneByteMore(cfg))
  {
    LongestSequence();
    ModeLength(0xFFFF_FFFE, LargestPacketSize(cfg.obfs) + 1);
    assert |Decimal(255)| == 3;
  }

  lemma OneByteMoreDoesNotFit(cfg: SM.Config)
    ensures ReplyLen(cfg, OneByteMore(cfg)) > MAX_FRAME
  {
    ReplyIsCounted(cfg, OneByteMore(cfg).plain, 32);
    LongestSequence();
    ModeLength(0xFFFF_FFFF, 48969);
    assert |Decimal(255)| == 3;
  }

  /** The answers all fit if and only if MaxPacketSize is at most 48929, or 48961 without obfuscation; the
      request that breaks the bound fits a frame itself. */
  lemma AllRepliesFitIff(cfg: SM.Config)
    ensures AllRepliesFit(cfg) <==> cfg.maxPacketSize <= LargestPacketSize(cfg.obfs)
  {
    if cfg.maxPacketSize <= LargestPacketSize(cfg.obfs) {
      forall x | Possible(cfg, x) ensures ReplyLen(cfg, x) <= MAX_FRAME {
        ReplyIsCounted(cfg, x.plain, x.zeros);
        LongReplyFits(x.channel, SM.Next(x.sequence), |SM.DecorateReply(cfg, x.plain, x.zeros)|, x.replyPad);
      }
    } else {
      OneByteMoreIsPossible(cfg);
      OneByteMoreDoesNotFit(cfg);
    }
  }

  /** Every v2 frame a client builds for a payload within the limit passes the server's first size check. */
  ghost predicate AllRequestsPass(maxPacketSize: nat) {
    forall channel: U8, seqNo: U32, n: nat, pad: nat | n <= maxPacketSize && pad <= MAX_PAD ::
      DataLen(channel, seqNo, SelectObfsMode(seqNo, n), n, pad) <= maxPacketSize * 8
  }

  lemma AllRequestsPassIff(maxPacketSize: nat)
    ensures AllRequestsPass(maxPacketSize) <==> maxPacketSize >= 38
  {
    if maxPacketSize >= 38 {
      forall channel: U8, seqNo: U32, n: nat, pad: nat | n <= maxPacketSize && pad <= MAX_PAD
        ensures DataLen(channel, seqNo, SelectObfsMode(seqNo, n), n, pad) <= maxPacketSize * 8
      {
        RequestPasses(channel, seqNo, n, pad, maxPacketSize);
      }
    } else {
      RequestFails(maxPacketSize);
    }
  }

  lemma RequestPasses(channel: U8, seqNo: U32, n: nat, pad: nat, maxPacketSize: nat)
    requires n <= maxPacketSize && pad <= MAX_PAD && maxPacketSize >= 38
    ensures DataLen(channel, seqNo, SelectObfsMode(seqNo, n), n, pad) <= maxPacketSize * 8
  {
    FieldDigits(channel, seqNo);
    ModeLength(seqNo, n);
  }

  lemma RequestFails(maxPacketSize: nat)
    requires maxPacketSize < 38
    ensures DataLen(255, 0xFFFF_FFFE, SelectObfsMode(0xFFFF_FFFE, maxPacketSize), maxPacketSize, MAX_PAD) > maxPacketSize * 8
  {
    LongestSequence();
    assert |Decimal(255)| == 3;
    assert SelectObfsMode(0xFFFF_FFFE, maxPacketSize) == "adaptive";
  }
}
