/** The Windows client as the program has it: its handshake over a connection, and the split of its
    traffic between TCP and UDP under one sequence counter. */
module SecureClient {
  import opened Wire
  import SM = SessionModel
  import opened Handshake

  /** The client's end of the TCP connection: what it will read (None where a read fails), what it has
      written, and how many more writes the network takes. */
  class Link {
    var inbox: seq<Option<Frame>>
    var outbox: seq<Frame>
    var writable: nat

    constructor (inbox: seq<Option<Frame>>, writable: nat)
      ensures this.inbox == inbox && outbox == [] && this.writable == writable
    {
      this.inbox, outbox, this.writable := inbox, [], writable;
    }

    method WriteFrame(frame: Frame) returns (ok: bool)
      modifies `outbox, `writable
      ensures ok == (old(writable) > 0)
      ensures outbox == if ok then old(outbox) + [frame] else old(outbox)
      ensures writable == if ok then old(writable) - 1 else old(writable)
    {
      ok := writable > 0;
      if ok { outbox, writable := outbox + [frame], writable - 1; }
    }

    method ReadFrame() returns (frame: Option<Frame>)
      modifies `inbox
      ensures frame == (if |old(inbox)| > 0 then old(inbox)[0] else None)
      ensures inbox == if |old(inbox)| > 0 then old(inbox)[1..] else old(inbox)
    {
      if |inbox| == 0 { return None; }
      frame, inbox := inbox[0], inbox[1..];
    }
  }

  /** The client and the frames it has written after a handshake over such a connection. */
  function RunHandshake(cfg: ClientConfig, nonce: Option<Nonce16>, timestamp: int, inbox: seq<Option<Frame>>, writable: nat): (Client, seq<Frame>) {
    if nonce.None? || writable == 0 then (Failed, [])
    else
      var hello := NewHello(cfg.publicKey, cfg.psk, cfg.protoVersion, nonce.value, timestamp);
      if |inbox| == 0 || inbox[0].None? then (Failed, [hello])
      else
        var (client, reply) := OnFirst(cfg, nonce.value, inbox[0].value);
        if !client.AwaitingReady? then (client, [hello])
        else if writable < 2 then (Failed, [hello])
        else if |inbox| < 2 || inbox[1].None? then (Failed, [hello] + reply)
        else (OnReady(client.key, inbox[1].value), [hello] + reply)
  }

  /** The key of a client and a server that drew these nonces: the unordered pair of key ids, and both. */
  function KeyWith(cfg: ClientConfig, nonce: Nonce16, serverNonce: seq<Byte>): Key
    requires cfg.privateKey.Private? && cfg.serverPublicKey.PublicOf?
  {
    var a, b := cfg.privateKey.id, cfg.serverPublicKey.id;
    SessionKey(if a <= b then Shared(a, b) else Shared(b, a), nonce, serverNonce)
  }

  /** The frames that make a v2 client accept key and session id: a challenge with a nonce of 16 bytes, and
      a ready frame tagged with the key that follows from it. */
  predicate AcceptableV2(cfg: ClientConfig, nonce: Nonce16, inbox: seq<Option<Frame>>, key: Key, sid: string) {
    && cfg.privateKey.Private? && cfg.serverPublicKey.PublicOf?
    && |inbox| >= 2 && inbox[0].Some? && inbox[1].Some?
    && inbox[0].value.Challenge? && inbox[0].value.protoVersion == "v2"
    && inbox[0].value.serverNonce.Encoded? && |inbox[0].value.serverNonce.bytes| == 16
    && key == KeyWith(cfg, nonce, inbox[0].value.serverNonce.bytes)
    && inbox[1].value == Ready("v2", sid, ReadyTag(key, sid))
  }

  /** The frame that makes another client accept a key. */
  predicate AcceptableV1(cfg: ClientConfig, nonce: Nonce16, inbox: seq<Option<Frame>>, key: Key) {
    && cfg.privateKey.Private? && cfg.serverPublicKey.PublicOf?
    && |inbox| >= 1 && inbox[0].Some? && inbox[0].value.Ack?
    && inbox[0].value.serverNonce.Encoded? && |inbox[0].value.serverNonce.bytes| == 16
    && key == KeyWith(cfg, nonce, inbox[0].value.serverNonce.bytes)
    && inbox[0].value.mac == AckTag(key, inbox[0].value.serverNonce.bytes)
  }

  /** Whatever the server, the network or anyone else sends: the client accepts a key and a session id if
      and only if it could write its frames and read just the acceptable ones. */
  lemma HandshakeSucceedsIff(cfg: ClientConfig, nonce: Option<Nonce16>, timestamp: int, inbox: seq<Option<Frame>>, writable: nat, key: Key, sid: string)
    ensures RunHandshake(cfg, nonce, timestamp, inbox, writable).0 == Established(key, sid) <==>
            && nonce.Some?
            && (if cfg.protoVersion == "v2"
                then writable >= 2 && AcceptableV2(cfg, nonce.value, inbox, key, sid)
                else writable >= 1 && AcceptableV1(cfg, nonce.value, inbox, key) && sid == "")
  {
  }

  /** And what it sends is its hello, tagged with its pre-shared key, and under v2 the proof over the
      ticket it was given, when the challenge is acceptable and both can be written. */
  lemma HandshakeSends(cfg: ClientConfig, nonce: Option<Nonce16>, timestamp: int, inbox: seq<Option<Frame>>, writable: nat)
    ensures var sent := RunHandshake(cfg, nonce, timestamp, inbox, writable).1;
      var proves := && cfg.protoVersion == "v2" && writable >= 2 && |inbox| >= 1 && inbox[0].Some? && inbox[0].value.Challenge?
        && inbox[0].value.protoVersion == "v2" && inbox[0].value.serverNonce.Encoded? && |inbox[0].value.serverNonce.bytes| == 16
        && cfg.privateKey.Private? && cfg.serverPublicKey.PublicOf?;
      if nonce.None? || writable == 0 then sent == []
      else
        && |sent| == (if proves then 2 else 1)
        && sent[0] == Hello(if cfg.protoVersion == "" then "v1" else cfg.protoVersion, cfg.publicKey, Encoded(nonce.value), timestamp,
                            HelloTag(cfg.psk, cfg.publicKey, nonce.value, timestamp))
        && (proves ==> sent[1] == Auth("v2", ProofTag(KeyWith(cfg, nonce.value, inbox[0].value.serverNonce.bytes), inbox[0].value.ticket)))
  {
  }

  /** The same handshake as moves of the product. A failed read or write is the client giving up. */
  function HandshakeMoves(cfg: ClientConfig, nonce: Option<Nonce16>, timestamp: int, inbox: seq<Option<Frame>>, writable: nat): seq<Move> {
    if nonce.None? || writable == 0 then [GiveUp]
    else if |inbox| == 0 || inbox[0].None? then [Start(nonce.value, timestamp), GiveUp]
    else if !OnFirst(cfg, nonce.value, inbox[0].value).0.AwaitingReady? then [Start(nonce.value, timestamp), Receive]
    else if writable < 2 then [Start(nonce.value, timestamp), GiveUp]
    else if |inbox| < 2 || inbox[1].None? then [Start(nonce.value, timestamp), Receive, GiveUp]
    else [Start(nonce.value, timestamp), Receive, Receive]
  }

  /** Whatever reads and writes fail: reading the frames the server has sent, the method leaves the client
      that these moves of the product leave, and writes the frames they send. */
  lemma HandshakeIsPlay(ccfg: ClientConfig, cfg: SM.Config, s: Sys, c: SM.Conn, nonce: Option<Nonce16>, timestamp: int,
                        inbox: seq<Option<Frame>>, writable: nat)
    requires s.client.NotStarted? && s.sent == [] && s.read == 0
    requires forall i | 0 <= i < |inbox| && inbox[i].Some? :: i < |FramesTo(s.world.log, c)| && inbox[i].value == FramesTo(s.world.log, c)[i]
    ensures var ms := HandshakeMoves(ccfg, nonce, timestamp, inbox, writable);
      && Plays(ccfg, cfg, s, c, ms)
      && (Play(ccfg, cfg, s, c, ms).client, Play(ccfg, cfg, s, c, ms).sent) == RunHandshake(ccfg, nonce, timestamp, inbox, writable)
  {
    var ms := HandshakeMoves(ccfg, nonce, timestamp, inbox, writable);
    if nonce.None? || writable == 0 {
      OneMove(ccfg, cfg, s, c, GiveUp);
    } else {
      var s1 := Make(ccfg, cfg, s, c, Start(nonce.value, timestamp));
      assert s1.sent == [NewHello(ccfg.publicKey, ccfg.psk, ccfg.protoVersion, nonce.value, timestamp)];
      if ms[1] == GiveUp {
        TwoMoves(ccfg, cfg, s, c, Start(nonce.value, timestamp), GiveUp);
      } else if |ms| == 2 {
        assert OnFirst(ccfg, nonce.value, inbox[0].value).1 == [] && s1.sent + [] == s1.sent;
        TwoMoves(ccfg, cfg, s, c, Start(nonce.value, timestamp), Receive);
      } else {
        var s2 := Make(ccfg, cfg, s1, c, Receive);
        TwoMoves(ccfg, cfg, s1, c, Receive, ms[2]);
        PlayFirst(ccfg, cfg, s, c, Start(nonce.value, timestamp), [Receive, ms[2]]);
        assert [Start(nonce.value, timestamp)] + [Receive, ms[2]] == ms;
      }
    }
  }

  lemma OneMove(ccfg: ClientConfig, cfg: SM.Config, s: Sys, c: SM.Conn, m: Move)
    requires Can(cfg, s, c, m)
    ensures Plays(ccfg, cfg, s, c, [m]) && Play(ccfg, cfg, s, c, [m]) == Make(ccfg, cfg, s, c, m)
  {
    PlayFirst(ccfg, cfg, s, c, m, []);
    assert [m] + [] == [m];
  }

  lemma TwoMoves(ccfg: ClientConfig, cfg: SM.Config, s: Sys, c: SM.Conn, m: Move, m': Move)
    requires Can(cfg, s, c, m) && Can(cfg, Make(ccfg, cfg, s, c, m), c, m')
    ensures Plays(ccfg, cfg, s, c, [m, m'])
    ensures Play(ccfg, cfg, s, c, [m, m']) == Make(ccfg, cfg, Make(ccfg, cfg, s, c, m), c, m')
  {
    OneMove(ccfg, cfg, Make(ccfg, cfg, s, c, m), c, m');
    PlayFirst(ccfg, cfg, s, c, m, [m']);
    assert [m] + [m'] == [m, m'];
  }

  // ---------- the share of each transport ----------

  /** How many of the n sequence numbers after `start` go to TCP by rule: the multiples of four. */
  function TcpCount(start: U32, n: nat): nat {
    if n == 0 then 0 else TcpCount(start, n - 1) + Turn(start + n)
  }

  /** 1 when the sequence number x, reduced to 32 bits, is TCP's turn. */
  function Turn(x: int): nat {
    if SM.Low32(x) % 4 == 0 then 1 else 0
  }

  /** Any 4k consecutive sequence numbers hold exactly k multiples of four, also across the 32-bit wrap. */
  lemma {:induction false} TcpShare(start: U32, k: nat)
    ensures TcpCount(start, 4 * k) == k
  {
    if k > 0 {
      TcpShare(start, k - 1);
      var n := 4 * (k - 1);
      FourInARow(start, n);
      assert TcpCount(start, n + 4) == TcpCount(start, n) + 1;
    }
  }

  lemma LowBits(x: int)
    ensures SM.Low32(x) % 4 == x % 4
  {
    SameResidue(x, SM.Low32(x), x / 0x1_0000_0000 * 0x4000_0000);
  }

  lemma SameResidue(x: int, y: int, m: int)
    requires x == y + 4 * m
    ensures x % 4 == y % 4
  {
  }

  /** 1 when x is a multiple of four. */
  function Fourth(x: int): nat {
    if x % 4 == 0 then 1 else 0
  }

  lemma TurnIsFourth(x: int)
    ensures Turn(x) == Fourth(x)
  {
    LowBits(x);
  }

  lemma OneFourthInFour(x: int)
    ensures Fourth(x + 1) + Fourth(x + 2) + Fourth(x + 3) + Fourth(x + 4) == 1
  {
  }

  lemma FourInARow(start: U32, n: nat)
    ensures TcpCount(start, n + 4) == TcpCount(start, n) + 1
  {
    OneFourthInFour(start + n);
    TcpCountNext(start, n);
    TcpCountNext(start, n + 1);
    TcpCountNext(start, n + 2);
    TcpCountNext(start, n + 3);
  }

  lemma TcpCountNext(start: U32, n: nat)
    ensures TcpCount(start, n + 1) == TcpCount(start, n) + Fourth(start + n + 1)
  {
    TurnIsFourth(start + n + 1);
  }

  /** Outcomes of sealing the TCP frame, sealing the datagram, and sending the datagram. */
  datatype SendEnv = SendEnv(sealOk: bool, datagramSealOk: bool, udpOk: bool)

  class SecureTCPClient {
    const cfg: ClientConfig
    const multiTransport: bool
    const hasServerUDP: bool
    var sessionID: string
    var udpUp: bool
    var seqCounter: U32
    var datagrams: seq<Frame>

    constructor (cfg: ClientConfig, multiTransport: bool, hasServerUDP: bool)
      ensures this.cfg == cfg && this.multiTransport == multiTransport && this.hasServerUDP == hasServerUDP
      ensures sessionID == "" && !udpUp && seqCounter == 0 && datagrams == []
    {
      this.cfg, this.multiTransport, this.hasServerUDP := cfg, multiTransport, hasServerUDP;
      sessionID, udpUp, seqCounter, datagrams := "", false, 0, [];
    }

    method DoHandshake(link: Link, nonce: Option<Nonce16>, timestamp: int) returns (key: Option<Key>)
      modifies link, `sessionID
      ensures var r := RunHandshake(cfg, nonce, timestamp, old(link.inbox), old(link.writable));
        && link.outbox == old(link.outbox) + r.1
        && key == (if r.0.Established? then Some(r.0.key) else None)
        && sessionID == (if r.0.Established? && cfg.protoVersion == "v2" then r.0.sessionID else old(sessionID))
    {
      if nonce.None? { return None; }
      var ok := link.WriteFrame(NewHello(cfg.publicKey, cfg.psk, cfg.protoVersion, nonce.value, timestamp));
      if !ok { return None; }
      var payload := link.ReadFrame();
      if payload.None? { return None; }
      if cfg.protoVersion == "v2" {
        key := DoHandshakeV2(link, payload.value, nonce.value);
        return;
      }
      var ack := payload.value;
      if !ack.Ack? || ack.serverNonce.BadEncoding? { return None; }
      var shared := SharedSecret(cfg.privateKey, cfg.serverPublicKey);
      if shared.None? { return None; }
      var sessionKey := DeriveSessionKey(shared.value, nonce.value, ack.serverNonce.bytes);
      if !VerifyAck(sessionKey, ack) { return None; }
      key := Some(sessionKey);
    }

    method DoHandshakeV2(link: Link, first: Frame, nonce: Nonce16) returns (key: Option<Key>)
      requires cfg.protoVersion == "v2"
      modifies link, `sessionID
      ensures var (client, reply) := OnFirst(cfg, nonce, first);
        if !client.AwaitingReady? || old(link.writable) == 0 then
          key == None && link.outbox == old(link.outbox) && sessionID == old(sessionID)
        else
          && link.outbox == old(link.outbox) + reply
          && (|old(link.inbox)| == 0 || old(link.inbox)[0].None? ==> key == None && sessionID == old(sessionID))
          && (|old(link.inbox)| > 0 && old(link.inbox)[0].Some? ==>
                var end := OnReady(client.key, old(link.inbox)[0].value);
                key == (if end.Established? then Some(end.key) else None) && sessionID == (if end.Established? then end.sessionID else old(sessionID)))
    {
      var serverNonce := ParseChallenge(first);
      if serverNonce.None? { return None; }
      var shared := SharedSecret(cfg.privateKey, cfg.serverPublicKey);
      if shared.None? { return None; }
      var sessionKey := DeriveSessionKey(shared.value, nonce, serverNonce.value);
      var ok := link.WriteFrame(Auth("v2", ProofTag(sessionKey, first.ticket)));
      if !ok { return None; }
      var ready := link.ReadFrame();
      if ready.None? { return None; }
      if !VerifyReady(sessionKey, ready.value) { return None; }
      sessionID := ready.value.sessionID;
      key := Some(sessionKey);
    }

    method NextSeq() returns (seqNo: U32)
      modifies `seqCounter
      ensures seqNo == seqCounter == SM.Next(old(seqCounter))
    {
      seqCounter := (seqCounter + 1) % 0x1_0000_0000;
      seqNo := seqCounter;
    }

    predicate ShouldUseUDP(seqNo: U32) {
      multiTransport && hasServerUDP && seqNo % 4 != 0
    }

    /** A v2 send draws one sequence number and, when it succeeds, puts its payload under that number on
        exactly one transport; when it fails it puts it on none. A v1 send uses TCP and no number. */
    method SendEncryptedPayload(link: Link, key: Key, plain: seq<Byte>, channel: U8, env: SendEnv) returns (ok: bool)
      modifies link`outbox, link`writable, `seqCounter, `datagrams
      ensures cfg.protoVersion != "v2" ==>
        && seqCounter == old(seqCounter) && datagrams == old(datagrams)
        && ok == (env.sealOk && old(link.writable) > 0)
        && link.outbox == (if ok then old(link.outbox) + [SM.SealV1(key, plain)] else old(link.outbox))
        && link.writable == (if ok then old(link.writable) - 1 else old(link.writable))
      ensures cfg.protoVersion == "v2" ==>
        var seqNo := SM.Next(old(seqCounter));
        var triesUDP := channel == 1 && multiTransport && hasServerUDP && seqNo % 4 != 0 && udpUp && sessionID != "";
        var overUDP := env.sealOk && triesUDP && env.datagramSealOk && env.udpOk;
        && seqCounter == seqNo
        && ok == (env.sealOk && (overUDP || old(link.writable) > 0))
        && datagrams == (if overUDP
             then old(datagrams) + [BuildDatagramFrameV2(key, sessionID, channel, seqNo, SelectObfsMode(seqNo, |plain|), plain)]
             else old(datagrams))
        && link.outbox == (if ok && !overUDP
             then old(link.outbox) + [BuildDataFrameV2(key, channel, seqNo, SelectObfsMode(seqNo, |plain|), plain)]
             else old(link.outbox))
        && link.writable == (if ok && !overUDP then old(link.writable) - 1 else old(link.writable))
    {
      if cfg.protoVersion != "v2" {
        if !env.sealOk { return false; }
        ok := link.WriteFrame(SM.SealV1(key, plain));
        return;
      }
      var seqNo := NextSeq();
      var mode := SelectObfsMode(seqNo, |plain|);
      if !env.sealOk { return false; }
      var raw := BuildDataFrameV2(key, channel, seqNo, mode, plain);
      if channel == 1 && ShouldUseUDP(seqNo) && udpUp && sessionID != "" {
        if env.datagramSealOk {
          var dgram := BuildDatagramFrameV2(key, sessionID, channel, seqNo, mode, plain);
          if env.udpOk {
            datagrams := datagrams + [dgram];
            return true;
          }
        }
      }
      ok := link.WriteFrame(raw);
    }

    /** Sending over a healthy pair of transports: the rule alone decides. */
    predicate Healthy(link: Link, n: nat)
      reads this, link
    {
      cfg.protoVersion == "v2" && multiTransport && hasServerUDP && udpUp && sessionID != "" && n <= link.writable
    }

    method SendTunnelPacket(link: Link, key: Key, packet: seq<Byte>, env: SendEnv) returns (ok: bool, ghost s: Sent)
      modifies link`outbox, link`writable, `seqCounter, `datagrams
      ensures seqCounter == (if cfg.protoVersion == "v2" then SM.Next(old(seqCounter)) else old(seqCounter))
      ensures link.writable >= old(link.writable) - 1
      ensures link.outbox == old(link.outbox) + (if ok && !s.viaUDP then [s.frame] else [])
      ensures datagrams == old(datagrams) + (if ok && s.viaUDP then [s.frame] else [])
      ensures ok ==> CarriesPacket(cfg.protoVersion == "v2", s.frame, key, packet, seqCounter)
      ensures ok && s.viaUDP ==> cfg.protoVersion == "v2" && s.frame.sessionID == sessionID && seqCounter % 4 != 0
      ensures old(Healthy(link, 1)) && env == SendEnv(true, true, true) ==> ok && (s.viaUDP <==> seqCounter % 4 != 0)
    {
      ghost var before, tcpBefore := datagrams, link.outbox;
      ok := SendEncryptedPayload(link, key, packet, 1, env);
      s := Sent(|datagrams| > |before|,
                if |datagrams| > |before| then datagrams[|before|] else if |link.outbox| > |tcpBefore| then link.outbox[|tcpBefore|] else Garbage);
    }

    /** One packet after those in `done`, which went out as `sends`. */
    method PumpOne(link: Link, key: Key, packet: seq<Byte>, env: SendEnv, ghost start: U32, ghost done: seq<seq<Byte>>, ghost sends: seq<Sent>)
      returns (ok: bool, ghost more: seq<Sent>)
      requires Pumped(cfg.protoVersion == "v2", key, start, done, sends)
      requires seqCounter == Counter(cfg.protoVersion == "v2", start, |done|)
      modifies link`outbox, link`writable, `seqCounter, `datagrams
      ensures link.writable >= old(link.writable) - 1
      ensures !ok ==> more == sends && link.outbox == old(link.outbox) && datagrams == old(datagrams)
      ensures ok ==> |more| == |sends| + 1 && more[..|sends|] == sends
      ensures ok ==> link.outbox == old(link.outbox) + (if more[|sends|].viaUDP then [] else [more[|sends|].frame])
      ensures ok ==> datagrams == old(datagrams) + (if more[|sends|].viaUDP then [more[|sends|].frame] else [])
      ensures ok ==> Pumped(cfg.protoVersion == "v2", key, start, done + [packet], more) && seqCounter == Counter(cfg.protoVersion == "v2", start, |done| + 1)
      ensures old(Healthy(link, 1)) && env == SendEnv(true, true, true) && ByRule(start, sends) ==> ok && ByRule(start, more)
    {
      NextOfLow(start + |done|);
      ghost var s;
      ok, s := SendTunnelPacket(link, key, packet, env);
      more := if ok then sends + [s] else sends;
      if ok { PumpedNext(cfg.protoVersion == "v2", key, start, done, sends, packet, s); }
    }

    /** The tunnel's sending loop: packets read from the device go out on channel 1, empty reads are
        skipped, and the first failed send ends it. The packets go out in order, each once, under
        consecutive numbers, each on one transport: under v1 on TCP; while UDP is up and nothing fails, the
        multiples of four on TCP and the rest on UDP. */
    method PumpTunnel(link: Link, key: Key, packets: seq<seq<Byte>>, envs: seq<SendEnv>) returns (sent: nat, failed: bool, ghost sends: seq<Sent>)
      requires |envs| == |packets|
      modifies link`outbox, link`writable, `seqCounter, `datagrams
      ensures sent <= |Nonempty(packets)| && (!failed ==> sent == |Nonempty(packets)|)
      ensures link.outbox == old(link.outbox) + Over(sends, false) && datagrams == old(datagrams) + Over(sends, true)
      ensures Pumped(cfg.protoVersion == "v2", key, old(seqCounter), Nonempty(packets)[..sent], sends)
      ensures |link.outbox| + |datagrams| == |old(link.outbox)| + |old(datagrams)| + sent
      ensures cfg.protoVersion != "v2" ==> datagrams == old(datagrams)
      ensures old(Healthy(link, |packets|)) && NothingFails(envs) ==>
        !failed && ByRule(old(seqCounter), sends) && |link.outbox| == |old(link.outbox)| + TcpCount(old(seqCounter), sent)
    {
      ghost var start := seqCounter;
      sent, failed, sends := PumpPackets(link, key, packets, envs);
      PumpedShares(cfg.protoVersion == "v2", key, start, Nonempty(packets)[..sent], sends);
    }

    method PumpPackets(link: Link, key: Key, packets: seq<seq<Byte>>, envs: seq<SendEnv>) returns (sent: nat, failed: bool, ghost sends: seq<Sent>)
      requires |envs| == |packets|
      modifies link`outbox, link`writable, `seqCounter, `datagrams
      ensures sent <= |Nonempty(packets)| && (!failed ==> sent == |Nonempty(packets)|)
      ensures Out(old(link.outbox), old(datagrams), sends, link.outbox, datagrams)
      ensures Pumped(cfg.protoVersion == "v2", key, old(seqCounter), Nonempty(packets)[..sent], sends)
      ensures old(Healthy(link, |packets|)) && NothingFails(envs) ==> !failed && ByRule(old(seqCounter), sends)
    {
      sent, failed, sends := 0, false, [];
      var i := 0;
      ghost var start, tcp, dgrams := seqCounter, link.outbox, datagrams;
      ghost var healthy := Healthy(link, |packets|) && NothingFails(envs);
      while i < |packets|
        invariant 0 <= i <= |packets|
        invariant healthy ==> Healthy(link, |packets| - i) && ByRule(start, sends)
        invariant sent == |Nonempty(packets[..i])| && seqCounter == Counter(cfg.protoVersion == "v2", start, sent)
        invariant Out(tcp, dgrams, sends, link.outbox, datagrams)
        invariant Pumped(cfg.protoVersion == "v2", key, start, Nonempty(packets[..i]), sends)
      {
        NonemptyNext(packets, i);
        if |packets[i]| > 0 {
          var ok;
          ghost var more;
          ok, more := PumpOne(link, key, packets[i], envs[i], start, Nonempty(packets[..i]), sends);
          if !ok {
            failed := true;
            NonemptyPrefix(packets, i);
            return;
          }
          OutGrows(tcp, dgrams, sends, more, link.outbox, datagrams);
          sends, sent := more, sent + 1;
        }
        i := i + 1;
      }
      NonemptyPrefix(packets, i);
      assert packets[..i] == packets;
    }

    method InitUDPPlane(key: Key, dialOk: bool, env: SendEnv) returns (ok: bool)
      modifies `udpUp, `seqCounter, `datagrams
      ensures var wanted := cfg.protoVersion == "v2" && multiTransport && hasServerUDP && sessionID != "";
        && ok == (!wanted || (dialOk && env.datagramSealOk && env.udpOk))
        && udpUp == (if wanted && dialOk then true else old(udpUp))
        && seqCounter == (if wanted && dialOk then SM.Next(old(seqCounter)) else old(seqCounter))
        && datagrams == (if wanted && dialOk && env.datagramSealOk && env.udpOk
             then old(datagrams) + [BuildDatagramFrameV2(key, sessionID, 2, SM.Next(old(seqCounter)), "bind", Ascii("bind"))]
             else old(datagrams))
    {
      if cfg.protoVersion != "v2" || !multiTransport || !hasServerUDP || sessionID == "" { return true; }
      if !dialOk { return false; }
      udpUp := true;
      var seqNo := NextSeq();
      if !env.datagramSealOk { return false; }
      var raw := BuildDatagramFrameV2(key, sessionID, 2, seqNo, "bind", Ascii("bind"));
      if env.udpOk { datagrams := datagrams + [raw]; }
      ok := env.udpOk;
    }
  }

  lemma NextOfLow(x: int)
    ensures SM.Next(SM.Low32(x)) == SM.Low32(x + 1)
  {
  }

  ghost predicate NothingFails(envs: seq<SendEnv>) {
    forall i | 0 <= i < |envs| :: envs[i] == SendEnv(true, true, true)
  }

  /** A frame that went out, and which way. */
  datatype Sent = Sent(viaUDP: bool, frame: Frame)

  /** The frames that went out one way, in order. */
  function Over(sends: seq<Sent>, udp: bool): seq<Frame> {
    if |sends| == 0 then []
    else Over(sends[..|sends| - 1], udp) + (if sends[|sends| - 1].viaUDP == udp then [sends[|sends| - 1].frame] else [])
  }

  /** The packet in a frame of channel 1 under this number, or in a v1 frame, which has neither. */
  predicate CarriesPacket(v2: bool, frame: Frame, key: Key, packet: seq<Byte>, seqNo: int) {
    && frame.Data? && frame.ciphertext == Sealed(key, packet)
    && (v2 ==> frame.protoVersion == "v2" && frame.channel == 1 && frame.sequence == seqNo)
  }

  /** These frames carry these packets, in order, under the numbers after `start`; under v1 all on TCP. */
  ghost predicate Pumped(v2: bool, key: Key, start: U32, packets: seq<seq<Byte>>, sends: seq<Sent>) {
    && |sends| == |packets|
    && forall j | 0 <= j < |sends| ::
         CarriesPacket(v2, sends[j].frame, key, packets[j], SM.Low32(start + j + 1)) && (sends[j].viaUDP ==> v2)
  }

  /** The frames under multiples of four went over TCP, the rest over UDP. */
  ghost predicate ByRule(start: U32, sends: seq<Sent>) {
    forall j | 0 <= j < |sends| :: sends[j].viaUDP <==> SM.Low32(start + j + 1) % 4 != 0
  }

  /** The sequence counter after n packets. */
  function Counter(v2: bool, start: U32, n: nat): U32 {
    if v2 then SM.Low32(start + n) else start
  }

  lemma PumpedNext(v2: bool, key: Key, start: U32, packets: seq<seq<Byte>>, sends: seq<Sent>, packet: seq<Byte>, s: Sent)
    requires Pumped(v2, key, start, packets, sends)
    requires CarriesPacket(v2, s.frame, key, packet, SM.Low32(start + |sends| + 1)) && (s.viaUDP ==> v2)
    ensures Pumped(v2, key, start, packets + [packet], sends + [s])
    ensures ByRule(start, sends) && (s.viaUDP <==> SM.Low32(start + |sends| + 1) % 4 != 0) ==> ByRule(start, sends + [s])
  {
  }

  /** What was pumped under v1 used no datagram; what was pumped by the rule used TCP for its share. */
  lemma {:induction false} PumpedShares(v2: bool, key: Key, start: U32, packets: seq<seq<Byte>>, sends: seq<Sent>)
    requires Pumped(v2, key, start, packets, sends)
    ensures |Over(sends, false)| + |Over(sends, true)| == |packets|
    ensures !v2 ==> Over(sends, true) == []
    ensures ByRule(start, sends) ==> |Over(sends, false)| == TcpCount(start, |packets|)
    decreases |sends|
  {
    if |sends| > 0 {
      PumpedShares(v2, key, start, packets[..|sends| - 1], sends[..|sends| - 1]);
    }
  }

  /** What has gone out: on each transport what had gone out before, and then the frames sent that way. */
  ghost predicate Out(tcp: seq<Frame>, dgrams: seq<Frame>, sends: seq<Sent>, outbox: seq<Frame>, datagrams: seq<Frame>) {
    outbox == tcp + Over(sends, false) && datagrams == dgrams + Over(sends, true)
  }

  lemma OutGrows(tcp: seq<Frame>, dgrams: seq<Frame>, sends: seq<Sent>, more: seq<Sent>, outbox: seq<Frame>, datagrams: seq<Frame>)
    requires |more| == |sends| + 1 && more[..|sends|] == sends
    requires outbox == tcp + Over(sends, false) + (if more[|sends|].viaUDP then [] else [more[|sends|].frame])
    requires datagrams == dgrams + Over(sends, true) + (if more[|sends|].viaUDP then [more[|sends|].frame] else [])
    ensures Out(tcp, dgrams, more, outbox, datagrams)
  {
  }

  /** The packets that are not empty, in order. */
  function Nonempty(packets: seq<seq<Byte>>): seq<seq<Byte>> {
    if |packets| == 0 then []
    else Nonempty(packets[..|packets| - 1]) + (if |packets[|packets| - 1]| > 0 then [packets[|packets| - 1]] else [])
  }

  lemma NonemptyNext(packets: seq<seq<Byte>>, i: nat)
    requires i < |packets|
    ensures Nonempty(packets[..i + 1]) == Nonempty(packets[..i]) + (if packets[i] == [] then [] else [packets[i]])
  {
    assert packets[..i + 1][..i] == packets[..i];
  }

  lemma {:induction false} NonemptyPrefix(packets: seq<seq<Byte>>, i: nat)
    requires i <= |packets|
    ensures Nonempty(packets[..i]) <= Nonempty(packets)
    ensures Nonempty(packets)[..|Nonempty(packets[..i])|] == Nonempty(packets[..i])
    decreases |packets| - i
  {
    if i < |packets| {
      NonemptyNext(packets, i);
      NonemptyPrefix(packets, i + 1);
    } else {
      assert packets[..i] == packets;
    }
  }

  /** The bind datagram makes the server answer: it reaches the bound session, records the address, and
      is acknowledged under the next sequence number. */
  lemma BindIsAnswered(cfg: SM.Config, w: SM.World, c: SM.Conn, addr: SM.Addr, seqNo: U32, bytes: seq<Byte>, env: SM.Env)
    requires c in w.conns && w.conns[c].secureReady && w.conns[c].protoVersion == "v2" && w.conns[c].sessionID != ""
    requires w.conns[c].sessionID in w.bySID && w.bySID[w.conns[c].sessionID] == c
    requires 0 < |bytes| <= cfg.maxPacketSize * 8 && w.udpUp && !cfg.privateKey.NoPrivateKey? && env.sealOk && env.udpWriteOk
    requires cfg.maxPacketSize >= 4
    ensures var st := w.conns[c];
      var bind := BuildDatagramFrameV2(st.sessionKey, st.sessionID, 2, seqNo, "bind", Ascii("bind"));
      var w' := SM.HandleUdp(cfg, w, addr, Packet(bytes, bind), env);
      && c in w'.conns && w'.conns[c].udpAddr == Some(addr)
      && |w'.log| == |w.log| + 1 && w'.log[|w.log|].ToUdp? && w'.log[|w.log|].addr == addr
      && ParseDatagramFrameV2(st.sessionKey, w'.log[|w.log|].frame) == Some(Ascii("udp-bound"))
      && w'.log[|w.log|].frame.sequence == SM.Next(seqNo)
  {
  }
}
