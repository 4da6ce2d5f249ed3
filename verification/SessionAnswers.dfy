/** What each message to the server does, told from the message and the state it meets, and over runs what
    a session owes its readiness to. Nothing here is stated through the handlers' own verdicts. */
module SessionAnswers {
  import opened Wire
  import opened SessionModel
  import opened SessionInvariants
  import opened SessionRuns

  // ---------- the ways a frame can end ----------

  /** No state, and no session id leads to c. */
  ghost predicate Gone(w: World, c: Conn) {
    c !in w.conns && forall sid | sid in w.bySID :: w.bySID[sid] != c
  }

  /** The connection is closed and gone, told why if that can still be written. */
  ghost predicate Refused(w: World, w': World, c: Conn, message: string, env: Env) {
    && Gone(w', c) && c in w'.closed
    && w'.log == (if env.errorWriteOk && c !in w.closed then w.log + [ToTcp(c, Error(message))] else w.log)
  }

  /** The answer could not be sent: the state is gone, the connection is not closed by that. */
  ghost predicate Unanswered(w: World, w': World, c: Conn) {
    Gone(w', c) && w'.closed == w.closed && w'.log == w.log
  }

  predicate Wrote(w: World, w': World, out: Output) {
    w'.log == w.log + [out]
  }

  /** A frame the server with a private key looks into. */
  predicate LookedInto(cfg: Config, w: World, c: Conn, p: Packet) {
    c !in w.ended && !cfg.privateKey.NoPrivateKey? && 0 < |p.bytes| <= cfg.maxPacketSize * 8
  }

  lemma FailRefuses(w: World, c: Conn, message: string, env: Env, w0: World)
    requires Inv(FailConn(w, c, message, env.errorWriteOk)) && w.log == w0.log && w.closed == w0.closed
    ensures Refused(w0, FailConn(w, c, message, env.errorWriteOk), c, message, env)
  {
  }

  // ---------- frames the server does not look into ----------

  /** An empty frame or one over the limit closes the connection. */
  lemma SizeIsGuarded(cfg: Config, w: World, c: Conn, p: Packet, env: Env)
    requires Inv(w) && c !in w.ended
    requires |p.bytes| == 0 || |p.bytes| > cfg.maxPacketSize * (if cfg.privateKey.NoPrivateKey? then 1 else 8)
    ensures Refused(w, HandleTcp(cfg, w, c, p, env), c, if |p.bytes| == 0 then "empty frame" else "frame too large", env)
  {
    TcpKeepsInv(cfg, w, c, p, env);
    FailRefuses(w, c, if |p.bytes| == 0 then "empty frame" else "frame too large", env, w);
  }

  // ---------- the content of an answer ----------

  /** "dsp-ok:", the payload, and zeros. */
  ghost predicate IsReply(cfg: Config, bytes: seq<Byte>, payload: seq<Byte>, pad: nat) {
    && |bytes| == 7 + |payload| + (if cfg.obfs then pad else 0)
    && bytes[..7] == [100, 115, 112, 45, 111, 107, 58]
    && bytes[7..7 + |payload|] == payload
    && forall i | 7 + |payload| <= i < |bytes| :: bytes[i] == 0
  }

  lemma ReplyIs(cfg: Config, payload: seq<Byte>, pad: nat)
    ensures IsReply(cfg, DecorateReply(cfg, payload, pad), payload, pad)
  {
    var bytes := DecorateReply(cfg, payload, pad);
    assert Ascii("dsp-ok:") == [100, 115, 112, 45, 111, 107, 58];
    assert bytes[..7] == Ascii("dsp-ok:");
    assert bytes[7..7 + |payload|] == payload;
  }

  /** The traffic mode by the table: bursts when long, otherwise one of three in turn. */
  function ModeByTable(seqNo: int, len: nat): string {
    if len > 900 then "burst" else ["drip", "cover", "adaptive"][seqNo % 3]
  }

  lemma ModeIs(seqNo: U32, len: nat)
    ensures SelectObfsMode(seqNo, len) == ModeByTable(seqNo, len)
  {
  }

  /** The modes a profile asks for: two in turn each, and only the aggressive one bursts. */
  lemma ProfileModeIs(profile: string, seqNo: U32, len: nat)
    ensures SelectObfsModeForProfile(profile, seqNo, len) ==
      match profile
      case "aggressive" => (if len > 1100 then "burst" else ["cover", "adaptive"][seqNo % 2])
      case "recovery" => ["drip", "cover"][seqNo % 2]
      case _ => ModeByTable(seqNo, len)
  {
  }

  /** An IPv4 or IPv6 packet, by the version in its first four bits. */
  predicate IsIP(bytes: seq<Byte>) {
    |bytes| > 0 && (64 <= bytes[0] < 80 || 96 <= bytes[0] < 112)
  }

  /** The frame opens under the key to a payload within the limit. */
  predicate Opens(cfg: Config, key: Key, frame: Frame) {
    frame.Data? && frame.ciphertext.Sealed? && frame.ciphertext.key == key && |frame.ciphertext.plain| <= cfg.maxPacketSize
  }

  predicate SealedUnder(key: Key, frame: Frame) {
    frame.Data? && frame.ciphertext.Sealed? && frame.ciphertext.key == key
  }

  /** What is wrong with a data frame that is refused. */
  function FaultV2(key: Key, frame: Frame): string {
    if SealedUnder(key, frame) && frame.protoVersion == "v2" then "payload too large" else "bad v2 data frame"
  }

  function FaultV1(key: Key, frame: Frame): string {
    if SealedUnder(key, frame) then "payload too large" else if frame.Data? then "decrypt failed" else "bad secure frame"
  }

  /** A sealed answer in a v2 frame, one sequence number on. */
  ghost predicate IsAnswer(cfg: Config, key: Key, sessionID: string, request: Frame, answer: Frame, pad: nat)
    requires request.Data? && request.ciphertext.Sealed?
  {
    && answer.Data? && answer.protoVersion == "v2" && answer.sessionID == sessionID
    && answer.channel == request.channel && answer.sequence == (request.sequence + 1) % 0x1_0000_0000
    && answer.ciphertext.Sealed? && answer.ciphertext.key == key
    && IsReply(cfg, answer.ciphertext.plain, request.ciphertext.plain, pad)
    && answer.mode == ModeByTable(answer.sequence, |answer.ciphertext.plain|)
  }

  // ---------- without a private key ----------

  /** The server answers in the clear and keeps no state. */
  lemma PlainEcho(cfg: Config, w: World, c: Conn, p: Packet, env: Env)
    requires cfg.privateKey.NoPrivateKey? && 0 < |p.bytes| <= cfg.maxPacketSize
    ensures var w' := HandleTcp(cfg, w, c, p, env);
      && w' == w.(log := w'.log)
      && (if env.writeOk && c !in w.closed
          then Wrote(w, w', ToTcpPlain(c, DecorateReply(cfg, p.bytes, env.pad))) && IsReply(cfg, DecorateReply(cfg, p.bytes, env.pad), p.bytes, env.pad)
          else w'.log == w.log)
  {
    ReplyIs(cfg, p.bytes, env.pad);
  }

  lemma PlainDatagramEcho(cfg: Config, w: World, addr: Addr, p: Packet, env: Env)
    requires cfg.privateKey.NoPrivateKey?
    ensures var w' := HandleUdp(cfg, w, addr, p, env);
      && w' == w.(log := w'.log)
      && (if 0 < |p.bytes| <= cfg.maxPacketSize && w.udpUp && env.udpWriteOk
          then Wrote(w, w', ToUdpPlain(addr, DecorateReply(cfg, p.bytes, env.pad))) && IsReply(cfg, DecorateReply(cfg, p.bytes, env.pad), p.bytes, env.pad)
          else w'.log == w.log)
  {
    ReplyIs(cfg, p.bytes, env.pad);
  }

  // ---------- hello ----------

  /** A hello the server must accept: a key and a nonce, a timestamp in the window (or 2^63 before the
      clock), and a tag made with the server's own pre-shared key over exactly these fields. */
  predicate GoodHello(cfg: Config, frame: Frame, env: Env) {
    && frame.Hello? && frame.clientPublicKey.PublicOf? && frame.clientNonce.Encoded? && |frame.clientNonce.bytes| == 16
    && cfg.privateKey.Private? && env.serverNonce.Some?
    && (var d := env.later / SECOND - frame.timestamp; -cfg.skewSec <= d <= cfg.skewSec || d == TWO_63)
    && (cfg.psk == "" || frame.authTag == HelloTag(cfg.psk, frame.clientPublicKey, frame.clientNonce.bytes, frame.timestamp))
  }

  /** The key both ends derive: the unordered pair of key ids and the two nonces. */
  function KeyOf(cfg: Config, frame: Frame, env: Env): Key
    requires GoodHello(cfg, frame, env)
  {
    var a, b := cfg.privateKey.id, frame.clientPublicKey.id;
    SessionKey(if a <= b then Shared(a, b) else Shared(b, a), frame.clientNonce.bytes, env.serverNonce.value)
  }

  function VersionOf(frame: Frame): string
    requires frame.Hello?
  {
    if frame.protoVersion == "" then "v1" else frame.protoVersion
  }

  /** The state a good hello leaves. */
  function Greeted(cfg: Config, frame: Frame, env: Env): State
    requires GoodHello(cfg, frame, env)
  {
    var key := KeyOf(cfg, frame, env);
    if VersionOf(frame) == "v2"
    then State(false, false, "v2", true, ChallengeTag(key, env.serverNonce.value), "", None, key, env.now)
    else State(true, false, VersionOf(frame), false, NoTag, "", None, key, env.now)
  }

  /** The frame that answers it. */
  function Greeting(cfg: Config, frame: Frame, env: Env): Frame
    requires GoodHello(cfg, frame, env)
  {
    var key, nonce := KeyOf(cfg, frame, env), env.serverNonce.value;
    if VersionOf(frame) == "v2"
    then Challenge("v2", Encoded(nonce), ChallengeTag(key, nonce))
    else Ack(Encoded(nonce), AckTag(key, nonce))
  }

  /** Clock, skew and timestamp are in the range of 64-bit seconds. */
  predicate TimeInRange(cfg: Config, frame: Frame, env: Env) {
    && 0 <= env.later / SECOND < TWO_63 / 2 && -TWO_63 <= cfg.skewSec < TWO_63 / 2
    && (frame.Hello? ==> -TWO_63 <= frame.timestamp < TWO_63)
  }

  /** What is wrong with a first frame that is not a good hello, the first of these. */
  function HelloFault(cfg: Config, frame: Frame, env: Env): string {
    if !(frame.Hello? && !frame.clientPublicKey.NoPublicKey? && frame.clientNonce.Encoded? && |frame.clientNonce.bytes| == 16) then "invalid hello"
    else
      var d := env.later / SECOND - frame.timestamp;
      if !(-cfg.skewSec <= d <= cfg.skewSec || d == TWO_63) then "stale hello timestamp"
      else if cfg.psk != "" && frame.authTag != HelloTag(cfg.psk, frame.clientPublicKey, frame.clientNonce.bytes, frame.timestamp) then "hello auth failed"
      else if !(cfg.privateKey.Private? && frame.clientPublicKey.PublicOf?) then "handshake failed"
      else "nonce failed"
  }

  lemma HelloJudged(cfg: Config, frame: Frame, env: Env)
    requires TimeInRange(cfg, frame, env)
    ensures JudgeHello(cfg, frame, env).HelloAccepted? <==> GoodHello(cfg, frame, env)
    ensures GoodHello(cfg, frame, env) ==>
      JudgeHello(cfg, frame, env) == HelloAccepted(KeyOf(cfg, frame, env), VersionOf(frame), env.serverNonce.value)
    ensures !GoodHello(cfg, frame, env) ==> JudgeHello(cfg, frame, env) == HelloRejected(HelloFault(cfg, frame, env))
  {
    if frame.Hello? { TimestampAccepted(env.later / SECOND, frame.timestamp, cfg.skewSec); }
  }

  /** A first frame is accepted if and only if it is a good hello and the answer can be written: the state
      and the answer are then these. A good hello that cannot be answered leaves no state; any other
      first frame closes the connection. */
  lemma HelloOutcome(cfg: Config, w: World, c: Conn, p: Packet, env: Env)
    requires Inv(w) && LookedInto(cfg, w, c, p) && c !in w.conns && TimeInRange(cfg, p.frame, env)
    ensures var w' := HandleTcp(cfg, w, c, p, env);
      && (c in w'.conns <==> GoodHello(cfg, p.frame, env) && env.writeOk && c !in w.closed)
      && (c in w'.conns ==> w'.conns[c] == Greeted(cfg, p.frame, env) && Wrote(w, w', ToTcp(c, Greeting(cfg, p.frame, env))) && w'.closed == w.closed)
      && (GoodHello(cfg, p.frame, env) && c !in w'.conns ==> Unanswered(w, w', c))
      && (!GoodHello(cfg, p.frame, env) ==> Refused(w, w', c, HelloFault(cfg, p.frame, env), env))
  {
    TcpKeepsInv(cfg, w, c, p, env);
    HelloJudged(cfg, p.frame, env);
    var w1 := Entered(w, c, env.now);
    assert w1.conns[c] == Fresh(env.now);
    var v := JudgeHello(cfg, p.frame, env);
    if v.HelloRejected? { FailRefuses(w1, c, v.message, env, w); }
  }

  // ---------- the proof ----------

  /** The one frame that proves a client: the proof over this connection's key and ticket. */
  function GoodProof(st: State): Frame {
    Auth("v2", ProofTag(st.sessionKey, st.pendingTicket))
  }

  function ProofFault(frame: Frame): string {
    if frame.Garbage? then "invalid auth_v2"
    else if frame.Auth? && frame.protoVersion == "v2" then "auth_v2 proof mismatch"
    else "bad auth_v2 frame"
  }

  lemma ProofJudged(st: State, frame: Frame)
    ensures JudgeAuth(st, frame) == if frame == GoodProof(st) then None else Some(ProofFault(frame))
  {
  }

  /** A frame that meets a connection awaiting the proof makes it ready if and only if it is the good
      proof and the answer can be written: then it is ready, bound under the id it was given, and
      answered. A good proof that cannot be answered leaves neither state nor binding; any other frame
      closes the connection and leaves it in neither index. */
  lemma ProofOutcome(cfg: Config, w: World, c: Conn, p: Packet, env: Env)
    requires Inv(w) && LookedInto(cfg, w, c, p) && c in w.conns && w.conns[c].awaitAuthV2
    ensures var st := w.conns[c];
      var w' := HandleTcp(cfg, w, c, p, env);
      var good := p.frame == GoodProof(st);
      && ((c in w'.conns && w'.conns[c].secureReady) <==> good && env.writeOk)
      && (good && env.writeOk ==>
            && w'.conns[c] == st.(lastSeen := env.now, awaitAuthV2 := false, pendingTicket := NoTag, secureReady := true, sessionID := env.newSessionID)
            && (env.newSessionID != "" ==> env.newSessionID in w'.bySID && w'.bySID[env.newSessionID] == c)
            && Wrote(w, w', ToTcp(c, Ready("v2", env.newSessionID, ReadyTag(st.sessionKey, env.newSessionID)))) && w'.closed == w.closed)
      && (good && !env.writeOk ==> Unanswered(w, w', c))
      && (!good ==> Refused(w, w', c, ProofFault(p.frame), env))
  {
    TcpKeepsInv(cfg, w, c, p, env);
    var w1 := Entered(w, c, env.now);
    EnteredKeepsInv(w, c, env.now);
    assert w1.conns[c] == w.conns[c].(lastSeen := env.now);
    ProofJudged(w1.conns[c], p.frame);
    var refusal := JudgeAuth(w1.conns[c], p.frame);
    if refusal.Some? { FailRefuses(w1, c, refusal.value, env, w); }
  }

  // ---------- data on TCP ----------

  /** A packet for the tunnel: handed over once with nothing sent to the connection; or, when the device
      does not take it, the connection is closed. */
  ghost predicate Tunnelled(w: World, w': World, c: Conn, packet: seq<Byte>, env: Env)
    requires c in w.conns
  {
    if env.tunnelOk
    then Wrote(w, w', ToTunnel(packet)) && c in w'.conns && w'.conns[c] == w.conns[c].(lastSeen := env.now, tunnelEnabled := true) && w'.closed == w.closed
    else Refused(w, w', c, "tunnel write failed", env)
  }

  lemma TunnelOutcome(w: World, w1: World, c: Conn, packet: seq<Byte>, env: Env)
    requires c in w.conns && w1 == Put(w, c, w.conns[c].(lastSeen := env.now)) && c !in w.closed
    requires Inv(ActOnData(w1, c, ForTunnel(packet), env))
    ensures Tunnelled(w, ActOnData(w1, c, ForTunnel(packet), env), c, packet, env)
  {
    if !env.tunnelOk { FailRefuses(ToTunnelDevice(w1, c, packet, false), c, "tunnel write failed", env, w); }
  }

  /** An answer on the connection, or no state when it cannot be sent. */
  ghost predicate AnsweredOn(w: World, w': World, c: Conn, env: Env)
    requires c in w.conns
  {
    if env.sealOk && env.writeOk
    then |w'.log| == |w.log| + 1 && w'.log[..|w.log|] == w.log && w'.log[|w.log|].ToTcp? && w'.log[|w.log|].conn == c
         && c in w'.conns && w'.conns[c] == w.conns[c].(lastSeen := env.now) && w'.closed == w.closed
    else Unanswered(w, w', c)
  }

  lemma AnswerOutcome(w: World, w1: World, c: Conn, reply: Frame, env: Env)
    requires c in w.conns && w1 == Put(w, c, w.conns[c].(lastSeen := env.now)) && c !in w.closed
    requires Inv(ActOnData(w1, c, Answer(reply), env))
    ensures AnsweredOn(w, ActOnData(w1, c, Answer(reply), env), c, env)
    ensures env.sealOk && env.writeOk ==> ActOnData(w1, c, Answer(reply), env).log[|w.log|].frame == reply
  {
  }

  /** Every frame a ready v2 session receives on its connection: one that does not open under the session
      key closes it; an IP packet on channel 1 goes to the tunnel, when there is one; anything else is
      answered, sealed, on its channel, one sequence number on. */
  lemma DataOutcomeV2(cfg: Config, w: World, c: Conn, p: Packet, env: Env)
    requires Inv(w) && LookedInto(cfg, w, c, p) && c in w.conns && w.conns[c].secureReady && w.conns[c].protoVersion == "v2"
    ensures var key := w.conns[c].sessionKey;
      var w' := HandleTcp(cfg, w, c, p, env);
      if !(Opens(cfg, key, p.frame) && p.frame.protoVersion == "v2") then Refused(w, w', c, FaultV2(key, p.frame), env)
      else if cfg.tunnel && p.frame.channel == 1 && IsIP(p.frame.ciphertext.plain) then Tunnelled(w, w', c, p.frame.ciphertext.plain, env)
      else AnsweredOn(w, w', c, env) && (env.sealOk && env.writeOk ==> IsAnswer(cfg, key, "", p.frame, w'.log[|w.log|].frame, env.pad))
  {
    TcpKeepsInv(cfg, w, c, p, env);
    var w1 := Entered(w, c, env.now);
    assert w1 == Put(w, c, w.conns[c].(lastSeen := env.now));
    var v := JudgeData(cfg, w1.conns[c], p.frame, env);
    assert HandleTcp(cfg, w, c, p, env) == ActOnData(w1, c, v, env);
    JudgedV2(cfg, w.conns[c].sessionKey, p.frame, env);
    match v
    case DataRefused(message) => FailRefuses(w1, c, message, env, w);
    case ForTunnel(packet) => TunnelOutcome(w, w1, c, packet, env);
    case Answer(reply) => AnswerOutcome(w, w1, c, reply, env);
  }

  lemma JudgedV2(cfg: Config, key: Key, frame: Frame, env: Env)
    ensures var v := JudgeDataV2(cfg, key, frame, env);
      if !(Opens(cfg, key, frame) && frame.protoVersion == "v2") then v == DataRefused(FaultV2(key, frame))
      else if cfg.tunnel && frame.channel == 1 && IsIP(frame.ciphertext.plain) then v == ForTunnel(frame.ciphertext.plain)
      else v.Answer? && IsAnswer(cfg, key, "", frame, v.reply, env.pad)
  {
    if Opens(cfg, key, frame) { ReplyIs(cfg, frame.ciphertext.plain, env.pad); }
  }

  /** The same for a session of another version: no channel and no sequence number. */
  lemma DataOutcomeV1(cfg: Config, w: World, c: Conn, p: Packet, env: Env)
    requires Inv(w) && LookedInto(cfg, w, c, p) && c in w.conns && w.conns[c].secureReady && w.conns[c].protoVersion != "v2"
    ensures var key := w.conns[c].sessionKey;
      var w' := HandleTcp(cfg, w, c, p, env);
      if !Opens(cfg, key, p.frame) then Refused(w, w', c, FaultV1(key, p.frame), env)
      else if cfg.tunnel && IsIP(p.frame.ciphertext.plain) then Tunnelled(w, w', c, p.frame.ciphertext.plain, env)
      else AnsweredOn(w, w', c, env) && (env.sealOk && env.writeOk ==> IsAnswerV1(cfg, key, p.frame, w'.log[|w.log|].frame, env.pad))
  {
    TcpKeepsInv(cfg, w, c, p, env);
    var w1 := Entered(w, c, env.now);
    assert w1 == Put(w, c, w.conns[c].(lastSeen := env.now));
    var v := JudgeData(cfg, w1.conns[c], p.frame, env);
    assert HandleTcp(cfg, w, c, p, env) == ActOnData(w1, c, v, env);
    JudgedV1(cfg, w.conns[c].sessionKey, p.frame, env);
    match v
    case DataRefused(message) => FailRefuses(w1, c, message, env, w);
    case ForTunnel(packet) => TunnelOutcome(w, w1, c, packet, env);
    case Answer(reply) => AnswerOutcome(w, w1, c, reply, env);
  }

  ghost predicate IsAnswerV1(cfg: Config, key: Key, request: Frame, answer: Frame, pad: nat)
    requires request.Data? && request.ciphertext.Sealed?
  {
    && answer.Data? && answer.protoVersion == "" && answer.ciphertext.Sealed? && answer.ciphertext.key == key
    && IsReply(cfg, answer.ciphertext.plain, request.ciphertext.plain, pad)
  }

  lemma JudgedV1(cfg: Config, key: Key, frame: Frame, env: Env)
    ensures var v := JudgeDataV1(cfg, key, frame, env);
      if !Opens(cfg, key, frame) then v == DataRefused(FaultV1(key, frame))
      else if cfg.tunnel && IsIP(frame.ciphertext.plain) then v == ForTunnel(frame.ciphertext.plain)
      else v.Answer? && IsAnswerV1(cfg, key, frame, v.reply, env.pad)
  {
    if Opens(cfg, key, frame) { ReplyIs(cfg, frame.ciphertext.plain, env.pad); }
  }

  // ---------- datagrams ----------

  /** A datagram that names a bound session id, in a size the server looks into. */
  predicate Named(cfg: Config, w: World, p: Packet) {
    && w.udpUp && !cfg.privateKey.NoPrivateKey? && 0 < |p.bytes| <= cfg.maxPacketSize * 8
    && p.frame.Data? && p.frame.protoVersion == "v2" && p.frame.sessionID != "" && p.frame.sessionID in w.bySID
  }

  lemma NamedIsOwned(cfg: Config, w: World, p: Packet)
    requires Inv(w)
    ensures DatagramOwner(cfg, w, p) == if Named(cfg, w, p) then Some(w.bySID[p.frame.sessionID]) else None
  {
    if Named(cfg, w, p) { assert PhaseOk(w.conns[w.bySID[p.frame.sessionID]]); }
  }

  /** What a named datagram writes: nothing when it does not open under the session key; the word that
      confirms a binding; the packet, to the tunnel; or the answer, to where it came from. */
  ghost predicate DatagramWrites(cfg: Config, w: World, w': World, c: Conn, addr: Addr, frame: Frame, env: Env)
    requires c in w.conns && frame.Data?
  {
    var st := w.conns[c];
    if !Opens(cfg, st.sessionKey, frame) then w'.log == w.log
    else if frame.mode == "bind" then
      if env.sealOk && env.udpWriteOk
      then Wrote(w, w', ToUdp(addr, Data("v2", st.sessionID, 2, (frame.sequence + 1) % 0x1_0000_0000, "obfs-plane", Sealed(st.sessionKey, BOUND))))
      else w'.log == w.log
    else if ForTheTunnel(cfg, frame) then
      if env.tunnelOk then Wrote(w, w', ToTunnel(frame.ciphertext.plain)) else w'.log == w.log
    else
      if env.sealOk && env.udpWriteOk
      then |w'.log| == |w.log| + 1 && w'.log[..|w.log|] == w.log && w'.log[|w.log|].ToUdp? && w'.log[|w.log|].addr == addr
           && IsAnswer(cfg, st.sessionKey, st.sessionID, frame, w'.log[|w.log|].frame, env.pad)
      else w'.log == w.log
  }

  predicate ForTheTunnel(cfg: Config, frame: Frame) {
    cfg.tunnel && frame.Data? && frame.channel == 1 && frame.ciphertext.Sealed? && IsIP(frame.ciphertext.plain)
  }

  /** "udp-bound". */
  const BOUND: seq<Byte> := [117, 100, 112, 45, 98, 111, 117, 110, 100]

  /** Every datagram: one that names no bound id changes nothing. One that does refreshes the session's
      clock and address even before it is opened, marks it a tunnel exactly when it carries a packet for
      the tunnel, and writes what DatagramWrites says. */
  lemma DatagramOutcome(cfg: Config, w: World, addr: Addr, p: Packet, env: Env)
    requires Inv(w) && !cfg.privateKey.NoPrivateKey?
    ensures var w' := HandleUdp(cfg, w, addr, p, env);
      if !Named(cfg, w, p) then w' == w
      else
        var c := w.bySID[p.frame.sessionID];
        var st := w.conns[c];
        var marks := Opens(cfg, st.sessionKey, p.frame) && p.frame.mode != "bind" && ForTheTunnel(cfg, p.frame);
        && w'.conns == w.conns[c := st.(lastSeen := env.now, udpAddr := Some(addr), tunnelEnabled := st.tunnelEnabled || marks)]
        && w'.bySID == w.bySID && w'.closed == w.closed
        && DatagramWrites(cfg, w, w', c, addr, p.frame, env)
  {
    NamedIsOwned(cfg, w, p);
    if Named(cfg, w, p) {
      NamedDatagram(cfg, w, w.bySID[p.frame.sessionID], addr, p.frame, env);
    }
  }

  lemma NamedDatagram(cfg: Config, w: World, c: Conn, addr: Addr, frame: Frame, env: Env)
    requires c in w.conns && frame.Data? && frame.protoVersion == "v2" && frame.sessionID != ""
    ensures var w' := HandleDatagram(cfg, w, c, addr, frame, env);
      var st := w.conns[c];
      var marks := Opens(cfg, st.sessionKey, frame) && frame.mode != "bind" && ForTheTunnel(cfg, frame);
      && w'.conns == w.conns[c := st.(lastSeen := env.now, udpAddr := Some(addr), tunnelEnabled := st.tunnelEnabled || marks)]
      && w'.bySID == w.bySID && w'.closed == w.closed
      && DatagramWrites(cfg, w, w', c, addr, frame, env)
  {
    var st := w.conns[c];
    JudgedDatagram(cfg, st, frame, env);
    var w1 := Put(w, c, st.(lastSeen := env.now, udpAddr := Some(addr)));
    var v := JudgeDatagram(cfg, st, frame, env);
    assert HandleDatagram(cfg, w, c, addr, frame, env) == ActOnDatagram(w1, c, addr, v, env);
  }

  lemma JudgedDatagram(cfg: Config, st: State, frame: Frame, env: Env)
    requires frame.Data? && frame.protoVersion == "v2" && frame.sessionID != ""
    ensures var v := JudgeDatagram(cfg, st, frame, env);
      if !Opens(cfg, st.sessionKey, frame) then v.Dropped?
      else if frame.mode == "bind" then
        v == DatagramReply(Data("v2", st.sessionID, 2, (frame.sequence + 1) % 0x1_0000_0000, "obfs-plane", Sealed(st.sessionKey, BOUND)))
      else if ForTheTunnel(cfg, frame) then v == DatagramForTunnel(frame.ciphertext.plain)
      else v.DatagramReply? && IsAnswer(cfg, st.sessionKey, st.sessionID, frame, v.reply, env.pad)
  {
    assert Ascii("udp-bound") == BOUND;
    if Opens(cfg, st.sessionKey, frame) { ReplyIs(cfg, frame.ciphertext.plain, env.pad); }
  }

  // ---------- packets from the tunnel ----------

  /** Whether the packet can go out as a datagram. */
  predicate GoesByUDP(w: World, c: Conn, env: Env)
    requires c in w.conns
  {
    var st := w.conns[c];
    st.protoVersion == "v2" && st.udpAddr.Some? && w.udpUp && st.sessionID != "" && env.sealOk && env.udpWriteOk
  }

  /** Whether it can go out on the connection. */
  predicate GoesByTCP(w: World, c: Conn, env: Env) {
    env.fallbackSealOk && env.writeOk && c !in w.closed
  }

  /** The packet sealed for the session; under v2 on channel 1, numbered by the clock. */
  predicate Carries(st: State, frame: Frame, sessionID: string, packet: seq<Byte>, env: Env) {
    && frame.Data? && frame.ciphertext == Sealed(st.sessionKey, packet) && frame.sessionID == sessionID
    && (st.protoVersion == "v2" ==> frame.protoVersion == "v2" && frame.channel == 1 && frame.sequence == env.later % 0x1_0000_0000)
    && (st.protoVersion != "v2" ==> frame.protoVersion == "")
  }

  /** A packet from the tunnel changes no table and is sent exactly once if and only if one of the two ways
      is open: as a datagram to the session's address under its id, when that works, and on its
      connection when it does not. */
  lemma RelayOutcome(w: World, c: Conn, packet: seq<Byte>, env: Env)
    requires c in w.conns
    ensures var st := w.conns[c];
      var w' := Relay(w, c, packet, env);
      && w' == w.(log := w'.log)
      && (w'.log != w.log <==> GoesByUDP(w, c, env) || GoesByTCP(w, c, env))
      && (w'.log != w.log ==> |w'.log| == |w.log| + 1 && w'.log[..|w.log|] == w.log)
      && (GoesByUDP(w, c, env) ==>
            var out := w'.log[|w.log|];
            && out.ToUdp? && Some(out.addr) == st.udpAddr && Carries(st, out.frame, st.sessionID, packet, env)
            && out.frame.mode == ModeByTable(env.now % 0x1_0000_0000, |packet|))
      && (!GoesByUDP(w, c, env) && GoesByTCP(w, c, env) ==>
            var out := w'.log[|w.log|];
            && out.ToTcp? && out.conn == c && Carries(st, out.frame, "", packet, env)
            && (st.protoVersion == "v2" ==> out.frame.mode == "obfs-plane"))
  {
    ModeIs(Low32(env.now), |packet|);
  }

  // ---------- the sweep ----------

  predicate Expired(cfg: Config, w: World, c: Conn, now: int) {
    cfg.idleSec > 0 && c in w.conns && now - w.conns[c].lastSeen > cfg.idleSec * 1_000_000_000
  }

  /** A sweep takes out exactly the states last seen longer ago than the limit and the ids they carry, and
      closes exactly their connections; the rest stays as it is. */
  lemma SweepOutcome(cfg: Config, w: World, now: int, c: Conn, sid: string)
    requires Inv(w)
    ensures var w' := DropIdle(cfg, w, now);
      && (c in w'.conns <==> c in w.conns && !Expired(cfg, w, c, now))
      && (c in w'.conns ==> w'.conns[c] == w.conns[c])
      && (c in w'.closed <==> c in w.closed || Expired(cfg, w, c, now))
      && (sid in w'.bySID <==> sid in w.bySID && forall d | Expired(cfg, w, d, now) :: w.conns[d].sessionID != sid)
      && (sid in w'.bySID ==> w'.bySID[sid] == w.bySID[sid])
      && w'.log == w.log && w'.ended == w.ended
  {
    if cfg.idleSec > 0 {
      var idle := IdleConns(cfg, w, now);
      assert forall d :: d in idle <==> Expired(cfg, w, d, now);
      assert sid != "" ==> (sid in SessionIDs(w, idle) <==> exists d :: d in idle && w.conns[d].sessionID == sid);
    }
  }

  // ---------- what a session owes its readiness to ----------

  /** The event brings frame `frame` in on connection c. */
  predicate Brings(e: Event, c: Conn, frame: Frame) {
    e.TcpFrame? && e.conn == c && e.packet.frame == frame
  }

  ghost predicate ReadyV2(w: World, c: Conn, key: Key) {
    c in w.conns && w.conns[c].secureReady && w.conns[c].protoVersion == "v2" && w.conns[c].sessionKey == key
  }

  /** The proof for a key, over the ticket the server gave out for it. */
  function ProofFor(key: Key): Frame
    requires key.SessionKey?
  {
    Auth("v2", ProofTag(key, ChallengeTag(key, key.serverNonce)))
  }

  lemma TcpBecomesReady(cfg: Config, w: World, c: Conn, p: Packet, env: Env, key: Key)
    requires Inv(w) && c !in w.ended && !ReadyV2(w, c, key) && ReadyV2(HandleTcp(cfg, w, c, p, env), c, key)
    ensures key.SessionKey? && p.frame == ProofFor(key)
  {
    var w' := HandleTcp(cfg, w, c, p, env);
    TcpKeepsInv(cfg, w, c, p, env);
    assert PhaseOk(w'.conns[c]);
    if !LookedInto(cfg, w, c, p) {
      if cfg.privateKey.NoPrivateKey? && 0 < |p.bytes| <= cfg.maxPacketSize { PlainEcho(cfg, w, c, p, env); } else { SizeIsGuarded(cfg, w, c, p, env); }
    } else if c !in w.conns {
      NewStateIsNotReadyV2(cfg, w, c, p, env);
    } else {
      assert PhaseOk(w.conns[c]);
      TcpMovesForward(cfg, w, c, p, env);
      if w.conns[c].awaitAuthV2 { ProofOutcome(cfg, w, c, p, env); }
    }
  }

  lemma NewStateIsNotReadyV2(cfg: Config, w: World, c: Conn, p: Packet, env: Env)
    requires c !in w.conns && LookedInto(cfg, w, c, p)
    ensures c in HandleTcp(cfg, w, c, p, env).conns ==>
      !(HandleTcp(cfg, w, c, p, env).conns[c].secureReady && HandleTcp(cfg, w, c, p, env).conns[c].protoVersion == "v2")
  {
    var w1 := Entered(w, c, env.now);
    assert w1.conns[c] == Fresh(env.now);
  }

  /** A step makes a v2 session ready only by bringing in the proof for its key, on its own connection. */
  lemma StepBecomesReady(cfg: Config, w: World, e: Event, c: Conn, key: Key)
    requires Inv(w) && Enabled(w, e) && !ReadyV2(w, c, key) && ReadyV2(Step(cfg, w, e), c, key)
    ensures key.SessionKey? && Brings(e, c, ProofFor(key))
  {
    match e
    case TcpFrame(d, p, env) =>
      if d == c {
        TcpBecomesReady(cfg, w, c, p, env, key);
      } else {
        TcpIsLocal(cfg, w, d, p, env);
        LocalSparesOthers(w, Step(cfg, w, e), d, c);
      }
    case UdpDatagram(addr, p, env) => UdpFrame(cfg, w, addr, p, env);
    case _ =>
  }

  /** Over every run: a v2 session that is ready at the end was ready with that key from the start, or the
      run brought the proof for that key in on its connection. */
  lemma {:induction false} ReadyOwesProof(cfg: Config, w: World, es: seq<Event>, c: Conn, key: Key)
    requires Inv(w) && Runs(cfg, w, es) && ReadyV2(Run(cfg, w, es), c, key)
    ensures ReadyV2(w, c, key) || (key.SessionKey? && exists i :: 0 <= i < |es| && Brings(es[i], c, ProofFor(key)))
    decreases |es|
  {
    if |es| > 0 {
      var w1 := Step(cfg, w, es[0]);
      StepKeepsInv(cfg, w, es[0]);
      ReadyOwesProof(cfg, w1, es[1..], c, key);
      if ReadyV2(w1, c, key) {
        if !ReadyV2(w, c, key) { StepBecomesReady(cfg, w, es[0], c, key); }
      } else {
        var i :| 0 <= i < |es[1..]| && Brings(es[1..][i], c, ProofFor(key));
        assert es[i + 1] == es[1..][i];
      }
    }
  }

  /** The event brings in a good hello that yields this key. */
  ghost predicate Greets(cfg: Config, e: Event, c: Conn, key: Key) {
    e.TcpFrame? && e.conn == c && GoodHello(cfg, e.packet.frame, e.env) && KeyOf(cfg, e.packet.frame, e.env) == key
  }

  predicate ClockInRange(cfg: Config, e: Event) {
    e.TcpFrame? ==> TimeInRange(cfg, e.packet.frame, e.env)
  }

  lemma StepBeginsState(cfg: Config, w: World, e: Event, c: Conn)
    requires Inv(w) && Enabled(w, e) && ClockInRange(cfg, e) && c in Step(cfg, w, e).conns
    ensures if c in w.conns then Step(cfg, w, e).conns[c].sessionKey == w.conns[c].sessionKey
            else Greets(cfg, e, c, Step(cfg, w, e).conns[c].sessionKey)
  {
    if c in w.conns {
      StepMovesForward(cfg, w, e, c);
    } else {
      match e
      case TcpFrame(d, p, env) =>
        if d == c { NewStateIsGreeted(cfg, w, c, p, env); } else {
          TcpIsLocal(cfg, w, d, p, env);
          LocalSparesOthers(w, Step(cfg, w, e), d, c);
        }
      case UdpDatagram(addr, p, env) => UdpFrame(cfg, w, addr, p, env);
      case _ =>
    }
  }

  lemma NewStateIsGreeted(cfg: Config, w: World, c: Conn, p: Packet, env: Env)
    requires Inv(w) && c !in w.ended && c !in w.conns && TimeInRange(cfg, p.frame, env) && c in HandleTcp(cfg, w, c, p, env).conns
    ensures GoodHello(cfg, p.frame, env) && HandleTcp(cfg, w, c, p, env).conns[c].sessionKey == KeyOf(cfg, p.frame, env)
  {
    if LookedInto(cfg, w, c, p) {
      HelloOutcome(cfg, w, c, p, env);
    } else if cfg.privateKey.NoPrivateKey? && 0 < |p.bytes| <= cfg.maxPacketSize {
      PlainEcho(cfg, w, c, p, env);
    } else {
      SizeIsGuarded(cfg, w, c, p, env);
    }
  }

  /** Over every run from a server with no sessions: every state it ends with was begun by a good hello on
      its own connection, made with the pre-shared key when there is one, and holds that hello's key. */
  lemma {:induction false} StateOwesHello(cfg: Config, w: World, es: seq<Event>, c: Conn)
    requires Inv(w) && Runs(cfg, w, es) && (forall i | 0 <= i < |es| :: ClockInRange(cfg, es[i])) && c in Run(cfg, w, es).conns
    ensures var key := Run(cfg, w, es).conns[c].sessionKey;
      (c in w.conns && w.conns[c].sessionKey == key) || exists i :: 0 <= i < |es| && Greets(cfg, es[i], c, key)
    decreases |es|
  {
    if |es| > 0 {
      var w1 := Step(cfg, w, es[0]);
      var key := Run(cfg, w, es).conns[c].sessionKey;
      StepKeepsInv(cfg, w, es[0]);
      assert forall i | 0 <= i < |es[1..]| :: es[1..][i] == es[i + 1];
      StateOwesHello(cfg, w1, es[1..], c);
      if c in w1.conns && w1.conns[c].sessionKey == key {
        StepBeginsState(cfg, w, es[0], c);
      } else {
        var i :| 0 <= i < |es[1..]| && Greets(cfg, es[1..][i], c, key);
        assert es[i + 1] == es[1..][i];
      }
    }
  }

  /** So every ready v2 session of a server that began with none has seen, on its own connection, a good
      hello and the proof for the key that came of it. */
  lemma ReadySessionIsProved(cfg: Config, udpUp: bool, es: seq<Event>, c: Conn, key: Key)
    requires Runs(cfg, Initial(udpUp), es) && (forall i | 0 <= i < |es| :: ClockInRange(cfg, es[i]))
    requires ReadyV2(Run(cfg, Initial(udpUp), es), c, key)
    ensures key.SessionKey?
    ensures exists i :: 0 <= i < |es| && Greets(cfg, es[i], c, key)
    ensures exists j :: 0 <= j < |es| && Brings(es[j], c, ProofFor(key))
  {
    ReadyOwesProof(cfg, Initial(udpUp), es, c, key);
    StateOwesHello(cfg, Initial(udpUp), es, c);
  }
}
