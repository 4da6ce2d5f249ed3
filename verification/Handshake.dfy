/** The Windows client's handshake against the server's session machine, over two FIFO byte streams.

    The client is a step machine here; SecureClient has it as the method the program runs. The server
    is the machine of SessionModel with any other traffic around it. */
module Handshake {
  import opened Wire
  import opened SessionModel
  import opened SessionInvariants
  import opened SessionRuns

  datatype ClientConfig = ClientConfig(privateKey: PrivateKey, publicKey: PublicKey, serverPublicKey: PublicKey, psk: string, protoVersion: string)

  datatype Client =
    | NotStarted
    | AwaitingFirst(nonce: Nonce16)
    | AwaitingReady(key: Key)
    | Established(key: Key, sessionID: string)
    | Failed

  /** The client after the server's first frame, and what it sends next. */
  function OnFirst(cfg: ClientConfig, nonce: Nonce16, frame: Frame): (Client, seq<Frame>) {
    if cfg.protoVersion == "v2" then OnChallenge(cfg, nonce, frame) else (OnAck(cfg, nonce, frame), [])
  }

  function OnChallenge(cfg: ClientConfig, nonce: Nonce16, frame: Frame): (Client, seq<Frame>) {
    var serverNonce := ParseChallenge(frame);
    var shared := SharedSecret(cfg.privateKey, cfg.serverPublicKey);
    if serverNonce.None? || shared.None? then (Failed, [])
    else
      var key := DeriveSessionKey(shared.value, nonce, serverNonce.value);
      (AwaitingReady(key), [Auth("v2", ProofTag(key, frame.ticket))])
  }

  function OnAck(cfg: ClientConfig, nonce: Nonce16, frame: Frame): Client {
    var shared := SharedSecret(cfg.privateKey, cfg.serverPublicKey);
    if frame.Garbage? || !frame.Ack? || frame.serverNonce.BadEncoding? || shared.None? then Failed
    else
      var key := DeriveSessionKey(shared.value, nonce, frame.serverNonce.bytes);
      if VerifyAck(key, frame) then Established(key, "") else Failed
  }

  function OnReady(key: Key, frame: Frame): Client {
    if VerifyReady(key, frame) then Established(key, frame.sessionID) else Failed
  }

  // ---------- the product ----------

  /** The client's end of connection c, what it has sent and how much of that has arrived, how many of
      the server's frames it has read, and the server. */
  datatype Sys = Sys(client: Client, sent: seq<Frame>, arrived: nat, read: nat, world: World)

  function FramesTo(log: seq<Output>, c: Conn): seq<Frame> {
    if |log| == 0 then []
    else
      var out := log[|log| - 1];
      FramesTo(log[..|log| - 1], c) + (if out.ToTcp? && out.conn == c then [out.frame] else [])
  }

  datatype Move =
    | Start(nonce: Nonce16, timestamp: int)
    | Receive
    | GiveUp
    | SendData(frame: Frame)
    | Arrive(bytes: seq<Byte>, env: Env)
    | Elsewhere(event: Event)

  predicate Can(cfg: Config, s: Sys, c: Conn, m: Move) {
    match m
    case Start(_, _) => s.client.NotStarted?
    case Receive => (s.client.AwaitingFirst? || s.client.AwaitingReady?) && s.read < |FramesTo(s.world.log, c)|
    case GiveUp => !s.client.Established?
    case SendData(frame) => s.client.Established? && frame.Data?
    case Arrive(_, _) => s.arrived < |s.sent| && c !in s.world.ended
    case Elsewhere(e) => Enabled(s.world, e) && !(e.TcpFrame? && e.conn == c)
  }

  function Make(ccfg: ClientConfig, cfg: Config, s: Sys, c: Conn, m: Move): Sys
    requires Can(cfg, s, c, m)
  {
    match m
    case Start(nonce, timestamp) =>
      s.(client := AwaitingFirst(nonce), sent := s.sent + [NewHello(ccfg.publicKey, ccfg.psk, ccfg.protoVersion, nonce, timestamp)])
    case Receive =>
      var frame := FramesTo(s.world.log, c)[s.read];
      if s.client.AwaitingFirst? then
        var next := OnFirst(ccfg, s.client.nonce, frame);
        s.(client := next.0, sent := s.sent + next.1, read := s.read + 1)
      else
        s.(client := OnReady(s.client.key, frame), read := s.read + 1)
    case GiveUp => s.(client := Failed)
    case SendData(frame) => s.(sent := s.sent + [frame])
    case Arrive(bytes, env) =>
      s.(arrived := s.arrived + 1, world := Step(cfg, s.world, TcpFrame(c, Packet(bytes, s.sent[s.arrived]), env)))
    case Elsewhere(e) => s.(world := Step(cfg, s.world, e))
  }

  predicate Plays(ccfg: ClientConfig, cfg: Config, s: Sys, c: Conn, ms: seq<Move>)
    decreases |ms|
  {
    |ms| == 0 || (Can(cfg, s, c, ms[0]) && Plays(ccfg, cfg, Make(ccfg, cfg, s, c, ms[0]), c, ms[1..]))
  }

  function Play(ccfg: ClientConfig, cfg: Config, s: Sys, c: Conn, ms: seq<Move>): Sys
    requires Plays(ccfg, cfg, s, c, ms)
    decreases |ms|
  {
    if |ms| == 0 then s else Play(ccfg, cfg, Make(ccfg, cfg, s, c, ms[0]), c, ms[1..])
  }

  // ---------- what the server's frames say about its state ----------

  /** A ready frame was built from the state the connection has, if it still has one. */
  ghost predicate ReadyVouched(w: World, c: Conn, frame: Frame)
    requires frame.Ready?
  {
    && frame.mac.ReadyTag? && frame == BuildReady(frame.mac.key, frame.sessionID)
    && (c in w.conns ==>
          w.conns[c].secureReady && w.conns[c].protoVersion == "v2" && w.conns[c].sessionKey == frame.mac.key && w.conns[c].sessionID == frame.sessionID)
  }

  ghost predicate AckVouched(w: World, c: Conn, frame: Frame)
    requires frame.Ack?
  {
    && frame.mac.AckTag? && frame == BuildAck(frame.mac.key, frame.mac.serverNonce)
    && (c in w.conns ==> w.conns[c].secureReady && w.conns[c].protoVersion != "v2" && w.conns[c].sessionKey == frame.mac.key)
  }

  ghost predicate Vouched(w: World, c: Conn, frame: Frame) {
    (frame.Ready? ==> ReadyVouched(w, c, frame)) && (frame.Ack? ==> AckVouched(w, c, frame))
  }

  ghost predicate AllVouched(w: World, c: Conn) {
    forall i | 0 <= i < |FramesTo(w.log, c)| :: Vouched(w, c, FramesTo(w.log, c)[i])
  }

  lemma FramesToGrow(log: seq<Output>, out: Output, c: Conn)
    ensures FramesTo(log + [out], c) == FramesTo(log, c) + (if out.ToTcp? && out.conn == c then [out.frame] else [])
  {
    assert (log + [out])[..|log|] == log;
  }

  /** The state a ready session has never changes in what a frame vouches for. */
  lemma VouchedStays(w: World, w': World, c: Conn, frame: Frame)
    requires Vouched(w, c, frame)
    requires c in w'.conns ==> c in w.conns && Later(w.conns[c], w'.conns[c])
    ensures Vouched(w', c, frame)
  {
  }

  /** What a handler's write puts on the connection: nothing, or a frame its state vouches for. */
  ghost predicate WroteVouched(w: World, w': World, c: Conn) {
    || w'.log == w.log
    || (|w'.log| > 0 && w'.log[..|w'.log| - 1] == w.log
        && var out := w'.log[|w'.log| - 1]; out.ToTcp? && out.conn == c ==> Vouched(w', c, out.frame))
  }

  lemma WriteOrRemoveVouches(w: World, c: Conn, frame: Frame, ok: bool)
    requires Vouched(w, c, frame)
    ensures WroteVouched(w, WriteOrRemove(w, c, frame, ok), c)
  {
  }

  lemma FailVouches(w: World, c: Conn, message: string, ok: bool)
    ensures WroteVouched(w, FailConn(w, c, message, ok), c)
  {
  }

  lemma DataVouches(w: World, c: Conn, v: DataVerdict, env: Env)
    requires c in w.conns && (v.Answer? ==> v.reply.Data?)
    ensures WroteVouched(w, ActOnData(w, c, v, env), c)
  {
    match v
    case DataRefused(message) => FailVouches(w, c, message, env.errorWriteOk);
    case ForTunnel(packet) =>
      if !env.tunnelOk { FailVouches(ToTunnelDevice(w, c, packet, false), c, "tunnel write failed", env.errorWriteOk); }
    case Answer(reply) => WriteOrRemoveVouches(w, c, reply, env.sealOk && env.writeOk);
  }

  lemma AuthVouches(w: World, c: Conn, frame: Frame, env: Env)
    requires c in w.conns && PhaseOk(w.conns[c]) && w.conns[c].awaitAuthV2
    ensures WroteVouched(w, HandleAuth(w, c, frame, env), c)
  {
    var refusal := JudgeAuth(w.conns[c], frame);
    if refusal.Some? {
      FailVouches(w, c, refusal.value, env.errorWriteOk);
    } else {
      var sid := env.newSessionID;
      WriteOrRemoveVouches(BindSessionID(Put(w, c, AfterAuth(w.conns[c], sid)), sid, c), c, BuildReady(w.conns[c].sessionKey, sid), env.writeOk);
    }
  }

  lemma HelloVouches(cfg: Config, w: World, c: Conn, frame: Frame, env: Env)
    requires c in w.conns
    ensures WroteVouched(w, HandleHello(cfg, w, c, frame, env), c)
  {
    var v := JudgeHello(cfg, frame, env);
    if v.HelloRejected? {
      FailVouches(w, c, v.message, env.errorWriteOk);
    } else {
      WriteOrRemoveVouches(Put(w, c, AfterHello(w.conns[c], v)), c, HelloReply(v), env.writeOk);
    }
  }

  lemma DispatchVouches(cfg: Config, w: World, c: Conn, frame: Frame, env: Env)
    requires c in w.conns && (w.conns[c] == Fresh(w.conns[c].lastSeen) || PhaseOk(w.conns[c]))
    ensures WroteVouched(w, Dispatch(cfg, w, c, frame, env), c)
  {
    if w.conns[c].secureReady {
      JudgedReplySealed(cfg, w.conns[c], frame, env);
      DataVouches(w, c, JudgeData(cfg, w.conns[c], frame, env), env);
    } else if w.conns[c].awaitAuthV2 {
      AuthVouches(w, c, frame, env);
    } else {
      HelloVouches(cfg, w, c, frame, env);
    }
  }

  lemma TcpVouches(cfg: Config, w: World, c: Conn, p: Packet, env: Env)
    requires Inv(w) && c !in w.ended
    ensures WroteVouched(w, HandleTcp(cfg, w, c, p, env), c)
  {
    if |p.bytes| == 0 {
      FailVouches(w, c, "empty frame", env.errorWriteOk);
    } else if cfg.privateKey.NoPrivateKey? {
      if |p.bytes| > cfg.maxPacketSize { FailVouches(w, c, "frame too large", env.errorWriteOk); }
    } else if |p.bytes| > cfg.maxPacketSize * 8 {
      FailVouches(w, c, "frame too large", env.errorWriteOk);
    } else {
      EnteredKeepsInv(w, c, env.now);
      DispatchVouches(cfg, Entered(w, c, env.now), c, p.frame, env);
    }
  }

  /** A connection without a state gets one only from a hello. */
  lemma OnlyHelloRevives(cfg: Config, w: World, c: Conn, p: Packet, env: Env)
    requires c !in w.conns && !p.frame.Hello?
    ensures c !in HandleTcp(cfg, w, c, p, env).conns
  {
    var w1 := Entered(w, c, env.now);
    assert w1.conns[c] == Fresh(env.now);
    assert JudgeHello(cfg, p.frame, env).HelloRejected?;
  }

  // ---------- the invariant of the product ----------

  /** The frame on which the client accepted the handshake. */
  predicate Accepts(ccfg: ClientConfig, client: Client, frame: Frame)
    requires client.Established?
  {
    if ccfg.protoVersion == "v2"
    then VerifyReady(client.key, frame) && frame.sessionID == client.sessionID
    else VerifyAck(client.key, frame) && client.sessionID == ""
  }

  ghost predicate SysInv(ccfg: ClientConfig, s: Sys, c: Conn) {
    && Inv(s.world)
    && s.arrived <= |s.sent|
    && (s.client.NotStarted? ==> s.sent == [])
    && (forall i | 1 <= i < |s.sent| :: !s.sent[i].Hello?)
    && (s.arrived == 0 ==> c !in s.world.conns && FramesTo(s.world.log, c) == [])
    && AllVouched(s.world, c)
    && s.read <= |FramesTo(s.world.log, c)|
    && (s.client.AwaitingReady? ==> ccfg.protoVersion == "v2")
    && (s.client.Established? ==> s.read > 0 && Accepts(ccfg, s.client, FramesTo(s.world.log, c)[s.read - 1]))
  }

  /** What a world step may do to connection c: move its state forward or drop it, and write to it at
      most one frame, which its state vouches for. */
  ghost predicate GoodStep(w: World, w': World, c: Conn) {
    && Inv(w')
    && (c in w'.conns ==> FramesTo(w.log, c) == [] || (c in w.conns && Later(w.conns[c], w'.conns[c])))
    && (FramesTo(w'.log, c) == FramesTo(w.log, c) ||
        (|FramesTo(w'.log, c)| > 0 && FramesTo(w'.log, c)[..|FramesTo(w'.log, c)| - 1] == FramesTo(w.log, c)
         && Vouched(w', c, FramesTo(w'.log, c)[|FramesTo(w'.log, c)| - 1])))
  }

  lemma GoodStepKeepsVouched(w: World, w': World, c: Conn)
    requires AllVouched(w, c) && GoodStep(w, w', c)
    ensures AllVouched(w', c) && FramesTo(w.log, c) <= FramesTo(w'.log, c)
  {
    forall i | 0 <= i < |FramesTo(w'.log, c)| ensures Vouched(w', c, FramesTo(w'.log, c)[i]) {
      if i < |FramesTo(w.log, c)| {
        VouchedStays(w, w', c, FramesTo(w.log, c)[i]);
      }
    }
  }

  lemma LogStep(w: World, w': World, c: Conn)
    requires WroteVouched(w, w', c)
    ensures FramesTo(w'.log, c) == FramesTo(w.log, c) ||
        (|FramesTo(w'.log, c)| > 0 && FramesTo(w'.log, c)[..|FramesTo(w'.log, c)| - 1] == FramesTo(w.log, c)
         && Vouched(w', c, FramesTo(w'.log, c)[|FramesTo(w'.log, c)| - 1]))
  {
    if w'.log != w.log {
      assert w'.log == w.log + [w'.log[|w'.log| - 1]];
      FramesToGrow(w.log, w'.log[|w'.log| - 1], c);
    }
  }

  lemma ArriveIsGood(cfg: Config, w: World, c: Conn, p: Packet, env: Env)
    requires Inv(w) && c !in w.ended
    requires p.frame.Hello? ==> FramesTo(w.log, c) == []
    ensures GoodStep(w, HandleTcp(cfg, w, c, p, env), c)
  {
    var w' := HandleTcp(cfg, w, c, p, env);
    TcpKeepsInv(cfg, w, c, p, env);
    TcpVouches(cfg, w, c, p, env);
    LogStep(w, w', c);
    if c in w'.conns {
      if c in w.conns {
        TcpMovesForward(cfg, w, c, p, env);
      } else if !p.frame.Hello? {
        OnlyHelloRevives(cfg, w, c, p, env);
      }
    }
  }

  lemma OtherTcpIsGood(cfg: Config, w: World, d: Conn, p: Packet, env: Env, c: Conn)
    requires Inv(w) && d !in w.ended && d != c
    ensures GoodStep(w, HandleTcp(cfg, w, d, p, env), c)
    ensures c !in w.conns ==> c !in HandleTcp(cfg, w, d, p, env).conns
    ensures FramesTo(HandleTcp(cfg, w, d, p, env).log, c) == FramesTo(w.log, c)
  {
    var w' := HandleTcp(cfg, w, d, p, env);
    TcpKeepsInv(cfg, w, d, p, env);
    TcpIsLocal(cfg, w, d, p, env);
    LocalSparesOthers(w, w', d, c);
    LogQuiet(w, w', c);
  }

  lemma UdpIsGood(cfg: Config, w: World, addr: Addr, p: Packet, env: Env, c: Conn)
    requires Inv(w)
    ensures GoodStep(w, HandleUdp(cfg, w, addr, p, env), c)
    ensures c !in w.conns ==> c !in HandleUdp(cfg, w, addr, p, env).conns
    ensures FramesTo(HandleUdp(cfg, w, addr, p, env).log, c) == FramesTo(w.log, c)
  {
    var w' := HandleUdp(cfg, w, addr, p, env);
    UdpKeepsInv(cfg, w, addr, p, env);
    UdpWrites(cfg, w, addr, p, env);
    LogQuiet(w, w', c);
    UdpKeepsStates(cfg, w, addr, p, env, c);
  }

  lemma UdpKeepsStates(cfg: Config, w: World, addr: Addr, p: Packet, env: Env, c: Conn)
    ensures c !in w.conns ==> c !in HandleUdp(cfg, w, addr, p, env).conns
    ensures c in w.conns ==> c in HandleUdp(cfg, w, addr, p, env).conns && Later(w.conns[c], HandleUdp(cfg, w, addr, p, env).conns[c])
  {
    UdpFrame(cfg, w, addr, p, env);
    if c in w.conns { UdpMovesForward(cfg, w, addr, p, env, c); }
  }

  lemma RelayIsGood(w: World, d: Conn, bytes: seq<Byte>, env: Env, c: Conn)
    requires Inv(w) && d in w.conns
    ensures GoodStep(w, Relay(w, d, bytes, env), c)
    ensures c !in w.conns ==> FramesTo(Relay(w, d, bytes, env).log, c) == FramesTo(w.log, c)
  {
    var w' := Relay(w, d, bytes, env);
    RelayWrites(w, d, bytes, env, w');
    LogStep(w, w', c);
    if c !in w.conns { LogQuiet(w, w', c); }
  }

  lemma RelayWrites(w: World, d: Conn, bytes: seq<Byte>, env: Env, w': World)
    requires d in w.conns && w' == Relay(w, d, bytes, env)
    ensures w' == w.(log := w'.log)
    ensures w'.log == w.log || (exists out :: w'.log == w.log + [out] && (out.ToUdp? || (out.ToTcp? && out.conn == d && out.frame.Data?)))
  {
    if w'.log != w.log { assert w'.log == w.log + [w'.log[|w'.log| - 1]]; }
  }

  lemma SweepIsGood(cfg: Config, w: World, now: int, c: Conn)
    requires Inv(w)
    ensures GoodStep(w, DropIdle(cfg, w, now), c)
  {
    SweepKeepsInv(cfg, w, now);
  }

  lemma OtherEventIsGood(cfg: Config, w: World, e: Event, c: Conn)
    requires Inv(w) && Enabled(w, e) && !(e.TcpFrame? && e.conn == c)
    ensures GoodStep(w, Step(cfg, w, e), c)
    ensures c !in w.conns ==> c !in Step(cfg, w, e).conns && FramesTo(Step(cfg, w, e).log, c) == FramesTo(w.log, c)
  {
    match e
    case TcpFrame(d, p, env) => OtherTcpIsGood(cfg, w, d, p, env, c);
    case UdpDatagram(addr, p, env) => UdpIsGood(cfg, w, addr, p, env, c);
    case TunnelPacket(d, bytes, env) => RelayIsGood(w, d, bytes, env, c);
    case Sweep(now) => SweepIsGood(cfg, w, now, c);
    case Hangup(_) =>
  }

  lemma ArriveKeepsSysInv(ccfg: ClientConfig, cfg: Config, s: Sys, c: Conn, bytes: seq<Byte>, env: Env)
    requires SysInv(ccfg, s, c) && Can(cfg, s, c, Arrive(bytes, env))
    ensures SysInv(ccfg, Make(ccfg, cfg, s, c, Arrive(bytes, env)), c)
  {
    var p := Packet(bytes, s.sent[s.arrived]);
    var w' := HandleTcp(cfg, s.world, c, p, env);
    ArriveIsGood(cfg, s.world, c, p, env);
    GoodStepKeepsVouched(s.world, w', c);
  }

  lemma WorldStepKeepsSysInv(ccfg: ClientConfig, s: Sys, c: Conn, w': World)
    requires SysInv(ccfg, s, c) && GoodStep(s.world, w', c)
    requires c !in s.world.conns ==> c !in w'.conns && FramesTo(w'.log, c) == FramesTo(s.world.log, c)
    ensures SysInv(ccfg, s.(world := w'), c)
  {
    GoodStepKeepsVouched(s.world, w', c);
  }

  lemma LogQuiet(w: World, w': World, c: Conn)
    requires w'.log == w.log || (|w'.log| > 0 && w'.log[..|w'.log| - 1] == w.log && !(w'.log[|w'.log| - 1].ToTcp? && w'.log[|w'.log| - 1].conn == c))
    ensures FramesTo(w'.log, c) == FramesTo(w.log, c)
  {
    if w'.log != w.log {
      assert w'.log == w.log + [w'.log[|w'.log| - 1]];
      FramesToGrow(w.log, w'.log[|w'.log| - 1], c);
    }
  }

  lemma MoveKeepsSysInv(ccfg: ClientConfig, cfg: Config, s: Sys, c: Conn, m: Move)
    requires SysInv(ccfg, s, c) && Can(cfg, s, c, m)
    ensures SysInv(ccfg, Make(ccfg, cfg, s, c, m), c)
  {
    match m
    case Arrive(bytes, env) => ArriveKeepsSysInv(ccfg, cfg, s, c, bytes, env);
    case Elsewhere(e) =>
      OtherEventIsGood(cfg, s.world, e, c);
      WorldStepKeepsSysInv(ccfg, s, c, Step(cfg, s.world, e));
    case _ =>
  }

  lemma {:induction false} PlayKeepsSysInv(ccfg: ClientConfig, cfg: Config, s: Sys, c: Conn, ms: seq<Move>)
    requires SysInv(ccfg, s, c) && Plays(ccfg, cfg, s, c, ms)
    ensures SysInv(ccfg, Play(ccfg, cfg, s, c, ms), c)
    decreases |ms|
  {
    if |ms| > 0 {
      MoveKeepsSysInv(ccfg, cfg, s, c, ms[0]);
      PlayKeepsSysInv(ccfg, cfg, Make(ccfg, cfg, s, c, ms[0]), c, ms[1..]);
    }
  }

  /** A client about to connect over a connection the server has not seen. */
  ghost predicate Connecting(s: Sys, c: Conn) {
    s.client.NotStarted? && s.sent == [] && s.arrived == 0 && s.read == 0
    && Inv(s.world) && c !in s.world.conns && FramesTo(s.world.log, c) == []
  }

  /** Agreement. On every run, with any other traffic, sweeps and hangups around it: if the client's v2
      handshake returned key k and session id sid, then the server, as long as it keeps a state for the
      connection, holds a ready v2 session with exactly that key and id, bound under that id whenever
      the indices are complete. A client of another version agrees on the key. */
  lemma Agreement(ccfg: ClientConfig, cfg: Config, s: Sys, c: Conn, ms: seq<Move>)
    requires Connecting(s, c) && Plays(ccfg, cfg, s, c, ms)
    ensures var s' := Play(ccfg, cfg, s, c, ms);
      s'.client.Established? && c in s'.world.conns ==>
        var st := s'.world.conns[c];
        && st.secureReady && st.sessionKey == s'.client.key
        && (ccfg.protoVersion == "v2" <==> st.protoVersion == "v2")
        && (ccfg.protoVersion == "v2" ==> st.sessionID == s'.client.sessionID)
        && (ccfg.protoVersion == "v2" && s'.client.sessionID != "" && Complete(s'.world) ==>
              s'.client.sessionID in s'.world.bySID && s'.world.bySID[s'.client.sessionID] == c)
  {
    PlayKeepsSysInv(ccfg, cfg, s, c, ms);
    var s' := Play(ccfg, cfg, s, c, ms);
    if s'.client.Established? && c in s'.world.conns {
      assert Vouched(s'.world, c, FramesTo(s'.world.log, c)[s'.read - 1]);
    }
  }

  // ---------- the honest run goes through ----------

  /** Client and server were given each other's keys. */
  predicate Paired(ccfg: ClientConfig, cfg: Config) {
    && ccfg.privateKey.Private? && ccfg.publicKey == PublicOf(ccfg.privateKey.id)
    && cfg.privateKey.Private? && ccfg.serverPublicKey == PublicOf(cfg.privateKey.id)
  }

  function AgreedKey(ccfg: ClientConfig, nonce: Nonce16, serverNonce: Nonce16): Key
    requires ccfg.privateKey.Private? && ccfg.serverPublicKey.PublicOf?
  {
    DeriveSessionKey(SharedSecret(ccfg.privateKey, ccfg.serverPublicKey).value, nonce, serverNonce)
  }

  /** The server accepts a paired client's hello exactly when the timestamp passes, the pre-shared keys
      match or none is configured, and it can draw a nonce; it then holds the client's key. */
  lemma HonestHelloAcceptedIff(ccfg: ClientConfig, cfg: Config, nonce: Nonce16, timestamp: int, env: Env)
    requires Paired(ccfg, cfg)
    ensures var v := JudgeHello(cfg, NewHello(ccfg.publicKey, ccfg.psk, ccfg.protoVersion, nonce, timestamp), env);
      && (v.HelloAccepted? <==>
            ValidateTimestamp(env.later / SECOND, timestamp, cfg.skewSec) && (cfg.psk == "" || cfg.psk == ccfg.psk) && env.serverNonce.Some?)
      && (v.HelloAccepted? ==>
            v == HelloAccepted(AgreedKey(ccfg, nonce, env.serverNonce.value), if ccfg.protoVersion == "" then "v1" else ccfg.protoVersion, env.serverNonce.value))
  {
    HelloRoundTrip(ccfg.publicKey, ccfg.psk, cfg.psk, ccfg.protoVersion, nonce, timestamp);
    SharedSecretCommutes(ccfg.privateKey.id, cfg.privateKey.id);
  }

  /** A frame the server will look at, over a connection that takes the answer. */
  predicate Delivered(cfg: Config, w: World, c: Conn, bytes: seq<Byte>, env: Env) {
    0 < |bytes| <= cfg.maxPacketSize * 8 && env.writeOk && c !in w.closed && c !in w.ended
  }

  lemma HelloArrives(ccfg: ClientConfig, cfg: Config, w: World, c: Conn, nonce: Nonce16, timestamp: int, bytes: seq<Byte>, env: Env)
    requires Paired(ccfg, cfg) && c !in w.conns && Delivered(cfg, w, c, bytes, env)
    requires ValidateTimestamp(env.later / SECOND, timestamp, cfg.skewSec) && (cfg.psk == "" || cfg.psk == ccfg.psk) && env.serverNonce.Some?
    ensures var hello := NewHello(ccfg.publicKey, ccfg.psk, ccfg.protoVersion, nonce, timestamp);
      var v := JudgeHello(cfg, hello, env);
      var w' := HandleTcp(cfg, w, c, Packet(bytes, hello), env);
      && v.HelloAccepted? && v.key == AgreedKey(ccfg, nonce, env.serverNonce.value) && v.serverNonce == env.serverNonce.value
      && v.protoVersion == (if ccfg.protoVersion == "" then "v1" else ccfg.protoVersion)
      && c in w'.conns && w'.conns[c] == AfterHello(Fresh(env.now), v) && w'.closed == w.closed && w'.ended == w.ended
      && FramesTo(w'.log, c) == FramesTo(w.log, c) + [HelloReply(v)]
  {
    var hello := NewHello(ccfg.publicKey, ccfg.psk, ccfg.protoVersion, nonce, timestamp);
    HonestHelloAcceptedIff(ccfg, cfg, nonce, timestamp, env);
    var v := JudgeHello(cfg, hello, env);
    var w1 := Entered(w, c, env.now);
    assert w1.conns[c] == Fresh(env.now);
    assert HandleTcp(cfg, w, c, Packet(bytes, hello), env) == Write(Put(w1, c, AfterHello(Fresh(env.now), v)), c, HelloReply(v), true);
    FramesToGrow(w.log, ToTcp(c, HelloReply(v)), c);
  }

  lemma ProofArrives(cfg: Config, w: World, c: Conn, key: Key, bytes: seq<Byte>, env: Env)
    requires c in w.conns && !w.conns[c].secureReady && w.conns[c].awaitAuthV2 && w.conns[c].sessionKey == key
    requires Delivered(cfg, w, c, bytes, env) && !cfg.privateKey.NoPrivateKey?
    ensures var w' := HandleTcp(cfg, w, c, Packet(bytes, Auth("v2", ProofTag(key, w.conns[c].pendingTicket))), env);
      && c in w'.conns && w'.conns[c] == AfterAuth(w.conns[c].(lastSeen := env.now), env.newSessionID) && w'.closed == w.closed
      && FramesTo(w'.log, c) == FramesTo(w.log, c) + [BuildReady(key, env.newSessionID)]
  {
    var frame := Auth("v2", ProofTag(key, w.conns[c].pendingTicket));
    var w1 := Entered(w, c, env.now);
    assert w1.conns[c] == w.conns[c].(lastSeen := env.now);
    assert JudgeAuth(w1.conns[c], frame).None?;
    var w2 := BindSessionID(Put(w1, c, AfterAuth(w1.conns[c], env.newSessionID)), env.newSessionID, c);
    assert HandleTcp(cfg, w, c, Packet(bytes, frame), env) == Write(w2, c, BuildReady(key, env.newSessionID), true);
    FramesToGrow(w.log, ToTcp(c, BuildReady(key, env.newSessionID)), c);
  }

  /** The exchange of hello and challenge, as three moves. */
  lemma HelloExchange(ccfg: ClientConfig, cfg: Config, s: Sys, c: Conn, nonce: Nonce16, timestamp: int, bytes: seq<Byte>, env: Env)
      returns (s1: Sys, s2: Sys, s3: Sys)
    requires Connecting(s, c) && Paired(ccfg, cfg) && ccfg.protoVersion == "v2" && Delivered(cfg, s.world, c, bytes, env)
    requires ValidateTimestamp(env.later / SECOND, timestamp, cfg.skewSec) && (cfg.psk == "" || cfg.psk == ccfg.psk) && env.serverNonce.Some?
    ensures Can(cfg, s, c, Start(nonce, timestamp)) && s1 == Make(ccfg, cfg, s, c, Start(nonce, timestamp))
    ensures Can(cfg, s1, c, Arrive(bytes, env)) && s2 == Make(ccfg, cfg, s1, c, Arrive(bytes, env))
    ensures Can(cfg, s2, c, Receive) && s3 == Make(ccfg, cfg, s2, c, Receive)
    ensures var key := AgreedKey(ccfg, nonce, env.serverNonce.value);
      && s3.client == AwaitingReady(key) && |s3.sent| == 2 && s3.arrived == 1 && s3.read == 1
      && c in s3.world.conns && s3.sent[1] == Auth("v2", ProofTag(key, s3.world.conns[c].pendingTicket))
      && !s3.world.conns[c].secureReady && s3.world.conns[c].awaitAuthV2 && s3.world.conns[c].sessionKey == key
      && s3.world.closed == s.world.closed && s3.world.ended == s.world.ended && |FramesTo(s3.world.log, c)| == 1
  {
    s1 := Make(ccfg, cfg, s, c, Start(nonce, timestamp));
    HelloArrives(ccfg, cfg, s1.world, c, nonce, timestamp, bytes, env);
    s2 := Make(ccfg, cfg, s1, c, Arrive(bytes, env));
    var key := AgreedKey(ccfg, nonce, env.serverNonce.value);
    assert FramesTo(s2.world.log, c) == [BuildChallenge(key, env.serverNonce.value)];
    ChallengeAnswered(ccfg, nonce, env.serverNonce.value);
    s3 := Make(ccfg, cfg, s2, c, Receive);
  }

  lemma ChallengeAnswered(ccfg: ClientConfig, nonce: Nonce16, serverNonce: Nonce16)
    requires ccfg.privateKey.Private? && ccfg.serverPublicKey.PublicOf? && ccfg.protoVersion == "v2"
    ensures var key := AgreedKey(ccfg, nonce, serverNonce);
      OnFirst(ccfg, nonce, BuildChallenge(key, serverNonce)) == (AwaitingReady(key), [Auth("v2", ProofTag(key, ChallengeTag(key, serverNonce)))])
  {
  }

  /** The exchange of proof and ready, as two moves. */
  lemma ProofExchange(ccfg: ClientConfig, cfg: Config, s: Sys, c: Conn, key: Key, bytes: seq<Byte>, env: Env) returns (s1: Sys, s2: Sys)
    requires s.client == AwaitingReady(key) && |s.sent| == 2 && s.arrived == 1 && s.read == 1
    requires c in s.world.conns && s.sent[1] == Auth("v2", ProofTag(key, s.world.conns[c].pendingTicket))
    requires !s.world.conns[c].secureReady && s.world.conns[c].awaitAuthV2 && s.world.conns[c].sessionKey == key
    requires Delivered(cfg, s.world, c, bytes, env) && !cfg.privateKey.NoPrivateKey? && |FramesTo(s.world.log, c)| == 1
    ensures Can(cfg, s, c, Arrive(bytes, env)) && s1 == Make(ccfg, cfg, s, c, Arrive(bytes, env))
    ensures Can(cfg, s1, c, Receive) && s2 == Make(ccfg, cfg, s1, c, Receive)
    ensures s2.client == Established(key, env.newSessionID) && c in s2.world.conns
    ensures s2.world.conns[c].secureReady && s2.world.conns[c].sessionKey == key && s2.world.conns[c].sessionID == env.newSessionID
  {
    ProofArrives(cfg, s.world, c, key, bytes, env);
    s1 := Make(ccfg, cfg, s, c, Arrive(bytes, env));
    s2 := Make(ccfg, cfg, s1, c, Receive);
  }

  /** A paired v2 client whose hello is acceptable reaches agreement in one exchange of four frames: it
      returns the agreed key and the id the server drew, and the server is ready with both. */
  lemma HonestV2Completes(ccfg: ClientConfig, cfg: Config, s: Sys, c: Conn, nonce: Nonce16, timestamp: int,
                          bytes0: seq<Byte>, env0: Env, bytes1: seq<Byte>, env1: Env)
    requires Connecting(s, c) && Paired(ccfg, cfg) && ccfg.protoVersion == "v2"
    requires Delivered(cfg, s.world, c, bytes0, env0) && Delivered(cfg, s.world, c, bytes1, env1)
    requires ValidateTimestamp(env0.later / SECOND, timestamp, cfg.skewSec) && (cfg.psk == "" || cfg.psk == ccfg.psk) && env0.serverNonce.Some?
    ensures var ms := [Start(nonce, timestamp), Arrive(bytes0, env0), Receive, Arrive(bytes1, env1), Receive];
      && Plays(ccfg, cfg, s, c, ms)
      && var s' := Play(ccfg, cfg, s, c, ms);
        && s'.client == Established(AgreedKey(ccfg, nonce, env0.serverNonce.value), env1.newSessionID)
        && c in s'.world.conns && s'.world.conns[c].secureReady
        && s'.world.conns[c].sessionKey == s'.client.key && s'.world.conns[c].sessionID == s'.client.sessionID
  {
    var s1, s2, s3 := HelloExchange(ccfg, cfg, s, c, nonce, timestamp, bytes0, env0);
    var s4, s5 := ProofExchange(ccfg, cfg, s3, c, AgreedKey(ccfg, nonce, env0.serverNonce.value), bytes1, env1);
    PlayFive(ccfg, cfg, s, c, Start(nonce, timestamp), Arrive(bytes0, env0), Receive, Arrive(bytes1, env1), Receive, s1, s2, s3, s4, s5);
  }

  lemma PlayFive(ccfg: ClientConfig, cfg: Config, s: Sys, c: Conn, m1: Move, m2: Move, m3: Move, m4: Move, m5: Move,
                 s1: Sys, s2: Sys, s3: Sys, s4: Sys, s5: Sys)
    requires Can(cfg, s, c, m1) && s1 == Make(ccfg, cfg, s, c, m1)
    requires Can(cfg, s1, c, m2) && s2 == Make(ccfg, cfg, s1, c, m2)
    requires Can(cfg, s2, c, m3) && s3 == Make(ccfg, cfg, s2, c, m3)
    requires Can(cfg, s3, c, m4) && s4 == Make(ccfg, cfg, s3, c, m4)
    requires Can(cfg, s4, c, m5) && s5 == Make(ccfg, cfg, s4, c, m5)
    ensures Plays(ccfg, cfg, s, c, [m1, m2, m3, m4, m5]) && Play(ccfg, cfg, s, c, [m1, m2, m3, m4, m5]) == s5
  {
    PlayFirst(ccfg, cfg, s4, c, m5, []);
    PlayFirst(ccfg, cfg, s3, c, m4, [m5]);
    PlayFirst(ccfg, cfg, s2, c, m3, [m4, m5]);
    PlayFirst(ccfg, cfg, s1, c, m2, [m3, m4, m5]);
    PlayFirst(ccfg, cfg, s, c, m1, [m2, m3, m4, m5]);
    assert [m1] + [m2, m3, m4, m5] == [m1, m2, m3, m4, m5];
    assert [m2] + [m3, m4, m5] == [m2, m3, m4, m5];
    assert [m3] + [m4, m5] == [m3, m4, m5];
    assert [m4] + [m5] == [m4, m5];
    assert [m5] + [] == [m5];
  }

  lemma PlayFirst(ccfg: ClientConfig, cfg: Config, s: Sys, c: Conn, m: Move, ms: seq<Move>)
    requires Can(cfg, s, c, m)
    ensures Plays(ccfg, cfg, s, c, [m] + ms) == Plays(ccfg, cfg, Make(ccfg, cfg, s, c, m), c, ms)
    ensures Plays(ccfg, cfg, s, c, [m] + ms) ==> Play(ccfg, cfg, s, c, [m] + ms) == Play(ccfg, cfg, Make(ccfg, cfg, s, c, m), c, ms)
  {
    assert ([m] + ms)[1..] == ms;
  }
}
