/** The server's session machine with atomic handlers, as functions on a value.

    A World holds the two indices (connections by handle, session ids), what is known of the network
    (closed connections, connections whose read loop has returned) and the log of everything
    written. SessionServer proves that the heap-shaped server computes exactly these functions. */
module SessionModel {
  import opened Wire

  type Conn = nat
  type Addr = nat

  const SECOND: int := 1_000_000_000

  datatype Config = Config(privateKey: PrivateKey, psk: string, maxPacketSize: int, skewSec: int, idleSec: int, tunnel: bool, obfs: bool)

  datatype State = State(
    secureReady: bool,
    tunnelEnabled: bool,
    protoVersion: string,
    awaitAuthV2: bool,
    pendingTicket: Tag,
    sessionID: string,
    udpAddr: Option<Addr>,
    sessionKey: Key,
    lastSeen: int)

  datatype Output =
    | ToTcp(conn: Conn, frame: Frame)
    | ToTcpPlain(conn: Conn, bytes: seq<Byte>)
    | ToUdp(addr: Addr, frame: Frame)
    | ToUdpPlain(addr: Addr, bytes: seq<Byte>)
    | ToTunnel(bytes: seq<Byte>)

  datatype World = World(
    conns: map<Conn, State>,
    bySID: map<string, Conn>,
    closed: set<Conn>,
    ended: set<Conn>,
    udpUp: bool,
    log: seq<Output>)

  /** What a handler takes from outside: clock reads, random values, and the outcome of each I/O call. */
  datatype Env = Env(
    now: int,
    later: int,
    serverNonce: Option<Nonce16>,
    newSessionID: string,
    pad: nat,
    sealOk: bool,
    fallbackSealOk: bool,
    writeOk: bool,
    errorWriteOk: bool,
    udpWriteOk: bool,
    tunnelOk: bool)

  // ---------- session table operations ----------

  function Fresh(now: int): State {
    State(false, false, "", false, NoTag, "", None, NoKey, now)
  }

  function GetConnState(w: World, c: Conn, now: int): World {
    if c in w.conns then w else w.(conns := w.conns[c := Fresh(now)])
  }

  function Put(w: World, c: Conn, st: State): World {
    w.(conns := w.conns[c := st])
  }

  function UnbindSessionID(w: World, sid: string): World {
    if sid == "" then w else w.(bySID := w.bySID - {sid})
  }

  function BindSessionID(w: World, sid: string, c: Conn): World {
    if sid == "" then w else w.(bySID := w.bySID[sid := c])
  }

  function RemoveConnState(w: World, c: Conn): World {
    var w' := w.(conns := w.conns - {c});
    if c in w.conns && w.conns[c].sessionID != "" then UnbindSessionID(w', w.conns[c].sessionID) else w'
  }

  /** A write reaches the connection when it is not closed and the network takes it. */
  predicate Writable(w: World, c: Conn, ok: bool) {
    ok && c !in w.closed
  }

  function Write(w: World, c: Conn, frame: Frame, ok: bool): World {
    if Writable(w, c, ok) then w.(log := w.log + [ToTcp(c, frame)]) else w
  }

  function Emit(w: World, out: Output): World {
    w.(log := w.log + [out])
  }

  function Close(w: World, c: Conn): World {
    w.(closed := w.closed + {c})
  }

  function FailConn(w: World, c: Conn, message: string, ok: bool): World {
    RemoveConnState(Close(Write(w, c, Error(message), ok), c), c)
  }

  /** Write a frame; drop the connection's state when the write fails. */
  function WriteOrRemove(w: World, c: Conn, frame: Frame, ok: bool): World {
    if Writable(w, c, ok) then Write(w, c, frame, ok) else RemoveConnState(w, c)
  }

  // ---------- replies ----------

  function Zeros(n: nat): seq<Byte> {
    seq(n, _ => 0)
  }

  function DecorateReply(cfg: Config, payload: seq<Byte>, pad: nat): seq<Byte> {
    Ascii("dsp-ok:") + payload + (if cfg.obfs then Zeros(pad) else [])
  }

  predicate IsIPPacket(packet: seq<Byte>) {
    |packet| >= 1 && (packet[0] / 16 == 4 || packet[0] / 16 == 6)
  }

  function Next(seqNo: U32): U32 {
    (seqNo + 1) % 0x1_0000_0000
  }

  function Low32(x: int): U32 {
    x % 0x1_0000_0000
  }

  // ---------- TCP frames ----------

  function HandleTcp(cfg: Config, w: World, c: Conn, p: Packet, env: Env): World {
    if |p.bytes| == 0 then
      FailConn(w, c, "empty frame", env.errorWriteOk)
    else if cfg.privateKey.NoPrivateKey? then
      if |p.bytes| > cfg.maxPacketSize then
        FailConn(w, c, "frame too large", env.errorWriteOk)
      else if Writable(w, c, env.writeOk) then
        Emit(w, ToTcpPlain(c, DecorateReply(cfg, p.bytes, env.pad)))
      else
        w
    else if |p.bytes| > cfg.maxPacketSize * 8 then
      FailConn(w, c, "frame too large", env.errorWriteOk)
    else
      Dispatch(cfg, Entered(w, c, env.now), c, p.frame, env)
  }

  /** The world in which a frame is handled: the state of c exists and has just been seen. */
  function Entered(w: World, c: Conn, now: int): World {
    var w1 := GetConnState(w, c, now);
    Put(w1, c, w1.conns[c].(lastSeen := now))
  }

  function Dispatch(cfg: Config, w: World, c: Conn, frame: Frame, env: Env): World
    requires c in w.conns
  {
    if w.conns[c].secureReady then HandleData(cfg, w, c, frame, env)
    else if w.conns[c].awaitAuthV2 then HandleAuth(w, c, frame, env)
    else HandleHello(cfg, w, c, frame, env)
  }

  datatype HelloVerdict = HelloRejected(message: string) | HelloAccepted(key: Key, protoVersion: string, serverNonce: Nonce16)

  function JudgeHello(cfg: Config, frame: Frame, env: Env): HelloVerdict {
    var parsed := ParseHello(frame);
    if parsed.None? then HelloRejected("invalid hello")
    else if !ValidateTimestamp(env.later / SECOND, parsed.value.timestamp, cfg.skewSec) then HelloRejected("stale hello timestamp")
    else if !VerifyHelloAuth(cfg.psk, parsed.value) then HelloRejected("hello auth failed")
    else
      var shared := SharedSecret(cfg.privateKey, parsed.value.clientPublicKey);
      if shared.None? then HelloRejected("handshake failed")
      else if env.serverNonce.None? then HelloRejected("nonce failed")
      else HelloAccepted(DeriveSessionKey(shared.value, parsed.value.nonce, env.serverNonce.value),
                         parsed.value.protoVersion, env.serverNonce.value)
  }

  /** The state of a connection whose hello was accepted, and the frame that answers it. */
  function AfterHello(st: State, v: HelloVerdict): State
    requires v.HelloAccepted?
  {
    var st1 := st.(sessionKey := v.key, protoVersion := v.protoVersion);
    if v.protoVersion == "v2"
    then st1.(pendingTicket := BuildChallenge(v.key, v.serverNonce).ticket, awaitAuthV2 := true)
    else st1.(secureReady := true)
  }

  function HelloReply(v: HelloVerdict): Frame
    requires v.HelloAccepted?
  {
    if v.protoVersion == "v2" then BuildChallenge(v.key, v.serverNonce) else BuildAck(v.key, v.serverNonce)
  }

  function HandleHello(cfg: Config, w: World, c: Conn, frame: Frame, env: Env): World
    requires c in w.conns
  {
    var v := JudgeHello(cfg, frame, env);
    if v.HelloRejected?
    then FailConn(w, c, v.message, env.errorWriteOk)
    else WriteOrRemove(Put(w, c, AfterHello(w.conns[c], v)), c, HelloReply(v), env.writeOk)
  }

  /** None when the proof is accepted, or the reason for refusing the frame. */
  function JudgeAuth(st: State, frame: Frame): Option<string> {
    if frame.Garbage? then Some("invalid auth_v2")
    else if !frame.Auth? || frame.protoVersion != "v2" then Some("bad auth_v2 frame")
    else if !VerifyAuthProof(st.sessionKey, st.pendingTicket, frame.proof) then Some("auth_v2 proof mismatch")
    else None
  }

  function AfterAuth(st: State, sid: string): State {
    st.(awaitAuthV2 := false, pendingTicket := NoTag, secureReady := true, sessionID := sid)
  }

  function HandleAuth(w: World, c: Conn, frame: Frame, env: Env): World
    requires c in w.conns
  {
    var refusal := JudgeAuth(w.conns[c], frame);
    if refusal.Some?
    then FailConn(w, c, refusal.value, env.errorWriteOk)
    else
      var sid := env.newSessionID;
      WriteOrRemove(BindSessionID(Put(w, c, AfterAuth(w.conns[c], sid)), sid, c), c, BuildReady(w.conns[c].sessionKey, sid), env.writeOk)
  }

  function SealV1(key: Key, payload: seq<Byte>): Frame {
    Data("", "", 0, 0, "", Sealed(key, payload))
  }

  datatype DataVerdict = DataRefused(message: string) | ForTunnel(packet: seq<Byte>) | Answer(reply: Frame)

  function JudgeDataV1(cfg: Config, key: Key, frame: Frame, env: Env): DataVerdict {
    if !frame.Data? then DataRefused("bad secure frame")
    else
      var plain := Decrypt(key, frame.ciphertext);
      if plain.None? then DataRefused("decrypt failed")
      else if |plain.value| > cfg.maxPacketSize then DataRefused("payload too large")
      else if cfg.tunnel && IsIPPacket(plain.value) then ForTunnel(plain.value)
      else Answer(SealV1(key, DecorateReply(cfg, plain.value, env.pad)))
  }

  function JudgeDataV2(cfg: Config, key: Key, frame: Frame, env: Env): DataVerdict {
    var plain := ParseDataFrameV2(key, frame);
    if plain.None? then DataRefused("bad v2 data frame")
    else if |plain.value| > cfg.maxPacketSize then DataRefused("payload too large")
    else if cfg.tunnel && frame.channel == 1 && IsIPPacket(plain.value) then ForTunnel(plain.value)
    else
      var reply := DecorateReply(cfg, plain.value, env.pad);
      var mode := SelectObfsMode(Next(frame.sequence), |reply|);
      Answer(BuildDataFrameV2(key, frame.channel, Next(frame.sequence), mode, reply))
  }

  /** A packet for the tunnel: remember that this session carries a tunnel, then hand the packet over. */
  function ToTunnelDevice(w: World, c: Conn, packet: seq<Byte>, ok: bool): World
    requires c in w.conns
  {
    var w1 := Put(w, c, w.conns[c].(tunnelEnabled := true));
    if ok then Emit(w1, ToTunnel(packet)) else w1
  }

  function JudgeData(cfg: Config, st: State, frame: Frame, env: Env): DataVerdict {
    if st.protoVersion == "v2" then JudgeDataV2(cfg, st.sessionKey, frame, env) else JudgeDataV1(cfg, st.sessionKey, frame, env)
  }

  function ActOnData(w: World, c: Conn, v: DataVerdict, env: Env): World
    requires c in w.conns
  {
    match v
    case DataRefused(message) => FailConn(w, c, message, env.errorWriteOk)
    case ForTunnel(packet) =>
      var w1 := ToTunnelDevice(w, c, packet, env.tunnelOk);
      if env.tunnelOk then w1 else FailConn(w1, c, "tunnel write failed", env.errorWriteOk)
    case Answer(reply) => WriteOrRemove(w, c, reply, env.sealOk && env.writeOk)
  }

  function HandleData(cfg: Config, w: World, c: Conn, frame: Frame, env: Env): World
    requires c in w.conns
  {
    ActOnData(w, c, JudgeData(cfg, w.conns[c], frame, env), env)
  }

  // ---------- UDP datagrams ----------

  /** The connection a datagram belongs to, when the server accepts its session id. */
  function DatagramOwner(cfg: Config, w: World, p: Packet): Option<Conn> {
    if |p.bytes| == 0 || !w.udpUp || cfg.privateKey.NoPrivateKey? || |p.bytes| > cfg.maxPacketSize * 8 then None
    else
      var sid := ParseDatagramSessionID(p.frame);
      if sid.None? || sid.value !in w.bySID then None
      else
        var c := w.bySID[sid.value];
        if c in w.conns && w.conns[c].secureReady && w.conns[c].protoVersion == "v2" then Some(c) else None
  }

  function HandleUdp(cfg: Config, w: World, addr: Addr, p: Packet, env: Env): World {
    if |p.bytes| == 0 || !w.udpUp then w
    else if cfg.privateKey.NoPrivateKey? then
      if |p.bytes| <= cfg.maxPacketSize && env.udpWriteOk
      then Emit(w, ToUdpPlain(addr, DecorateReply(cfg, p.bytes, env.pad)))
      else w
    else
      var owner := DatagramOwner(cfg, w, p);
      if owner.None? then w else HandleDatagram(cfg, w, owner.value, addr, p.frame, env)
  }

  datatype DatagramVerdict = Dropped | DatagramForTunnel(packet: seq<Byte>) | DatagramReply(reply: Frame)

  function JudgeDatagram(cfg: Config, st: State, frame: Frame, env: Env): DatagramVerdict {
    var plain := ParseDatagramFrameV2(st.sessionKey, frame);
    if plain.None? || |plain.value| > cfg.maxPacketSize then Dropped
    else if frame.mode == "bind" then
      DatagramReply(BuildDatagramFrameV2(st.sessionKey, st.sessionID, 2, Next(frame.sequence), "obfs-plane", Ascii("udp-bound")))
    else if cfg.tunnel && frame.channel == 1 && IsIPPacket(plain.value) then DatagramForTunnel(plain.value)
    else
      var reply := DecorateReply(cfg, plain.value, env.pad);
      var mode := SelectObfsMode(Next(frame.sequence), |reply|);
      DatagramReply(BuildDatagramFrameV2(st.sessionKey, st.sessionID, frame.channel, Next(frame.sequence), mode, reply))
  }

  function ActOnDatagram(w: World, c: Conn, addr: Addr, v: DatagramVerdict, env: Env): World
    requires c in w.conns
  {
    match v
    case Dropped => w
    case DatagramForTunnel(packet) => ToTunnelDevice(w, c, packet, env.tunnelOk)
    case DatagramReply(reply) => if env.sealOk && env.udpWriteOk then Emit(w, ToUdp(addr, reply)) else w
  }

  /** The datagram refreshes the idle clock and the peer's address before it is decrypted. */
  function HandleDatagram(cfg: Config, w: World, c: Conn, addr: Addr, frame: Frame, env: Env): World
    requires c in w.conns
  {
    var w1 := Put(w, c, w.conns[c].(lastSeen := env.now, udpAddr := Some(addr)));
    ActOnDatagram(w1, c, addr, JudgeDatagram(cfg, w.conns[c], frame, env), env)
  }

  // ---------- idle sweep ----------

  predicate Idle(cfg: Config, st: State, now: int) {
    st.lastSeen < now - cfg.idleSec * SECOND
  }

  function IdleConns(cfg: Config, w: World, now: int): set<Conn> {
    set c | c in w.conns && Idle(cfg, w.conns[c], now)
  }

  function SessionIDs(w: World, cs: set<Conn>): set<string> {
    set c | c in cs && c in w.conns && w.conns[c].sessionID != "" :: w.conns[c].sessionID
  }

  function DropIdle(cfg: Config, w: World, now: int): World {
    if cfg.idleSec <= 0 then w
    else
      var idle := IdleConns(cfg, w, now);
      w.(conns := w.conns - idle, bySID := w.bySID - SessionIDs(w, idle), closed := w.closed + idle)
  }

  // ---------- packets from the tunnel device ----------

  predicate CarriesTunnel(st: State) {
    st.secureReady && st.tunnelEnabled
  }

  function RelayDatagram(w: World, c: Conn, packet: seq<Byte>, env: Env): Frame
    requires c in w.conns
  {
    BuildDatagramFrameV2(w.conns[c].sessionKey, w.conns[c].sessionID, 1, Low32(env.later), SelectObfsMode(Low32(env.now), |packet|), packet)
  }

  /** One round of the relay loop that read `packet` and chose connection c. */
  function Relay(w: World, c: Conn, packet: seq<Byte>, env: Env): World
    requires c in w.conns
  {
    var st := w.conns[c];
    if st.protoVersion == "v2" then
      if st.udpAddr.Some? && w.udpUp && st.sessionID != "" && env.sealOk && env.udpWriteOk then
        Emit(w, ToUdp(st.udpAddr.value, RelayDatagram(w, c, packet, env)))
      else
        Write(w, c, BuildDataFrameV2(st.sessionKey, 1, Low32(env.later), "obfs-plane", packet), env.fallbackSealOk && env.writeOk)
    else
      Write(w, c, SealV1(st.sessionKey, packet), env.fallbackSealOk && env.writeOk)
  }

  // ---------- runs ----------

  datatype Event =
    | TcpFrame(conn: Conn, packet: Packet, env: Env)
    | UdpDatagram(addr: Addr, packet: Packet, env: Env)
    | TunnelPacket(conn: Conn, bytes: seq<Byte>, env: Env)
    | Sweep(now: int)
    | Hangup(conn: Conn)

  /** The read loop delivers no frame after it has returned; the relay picks a connection that carries a tunnel. */
  predicate Enabled(w: World, e: Event) {
    match e
    case TcpFrame(c, _, _) => c !in w.ended
    case TunnelPacket(c, bytes, _) => |bytes| > 0 && c in w.conns && CarriesTunnel(w.conns[c])
    case _ => true
  }

  function Step(cfg: Config, w: World, e: Event): World
    requires Enabled(w, e)
  {
    match e
    case TcpFrame(c, p, env) => HandleTcp(cfg, w, c, p, env)
    case UdpDatagram(addr, p, env) => HandleUdp(cfg, w, addr, p, env)
    case TunnelPacket(c, bytes, env) => Relay(w, c, bytes, env)
    case Sweep(now) => DropIdle(cfg, w, now)
    case Hangup(c) => w.(closed := w.closed + {c}, ended := w.ended + {c})
  }

  predicate Runs(cfg: Config, w: World, es: seq<Event>)
    decreases |es|
  {
    |es| == 0 || (Enabled(w, es[0]) && Runs(cfg, Step(cfg, w, es[0]), es[1..]))
  }

  function Run(cfg: Config, w: World, es: seq<Event>): World
    requires Runs(cfg, w, es)
    decreases |es|
  {
    if |es| == 0 then w else Run(cfg, Step(cfg, w, es[0]), es[1..])
  }

  function Initial(udpUp: bool): World {
    World(map[], map[], {}, {}, udpUp, [])
  }
}
