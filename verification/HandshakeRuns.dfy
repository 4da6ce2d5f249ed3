/** Honest handshakes on every schedule: frames take their time, and any other traffic of the server, its
    datagrams, sweeps and hangups come in between. No such handshake fails, and it is over, in agreement,
    exactly when all its moves have been made. */
module HandshakeRuns {
  import opened Wire
  import opened SessionModel
  import opened SessionInvariants
  import opened SessionRuns
  import opened Handshake

  // ---------- traffic that spares a connection ----------

  /** Any event of the server but a frame of c, a hangup of c, and a sweep that finds c idle. */
  predicate Spares(cfg: Config, w: World, e: Event, c: Conn) {
    && Enabled(w, e) && !(e.TcpFrame? && e.conn == c) && e != Hangup(c)
    && (e.Sweep? && cfg.idleSec > 0 && c in w.conns ==> !Idle(cfg, w.conns[c], e.now))
  }

  /** A state that neither a datagram nor a packet of the tunnel reaches. */
  predicate Still(st: State) {
    !(st.secureReady && st.protoVersion == "v2") && !CarriesTunnel(st)
  }

  lemma SparedStays(cfg: Config, w: World, e: Event, c: Conn)
    requires Inv(w) && Spares(cfg, w, e, c)
    ensures var w' := Step(cfg, w, e);
      && Inv(w') && (c in w'.conns <==> c in w.conns)
      && (c in w.conns && Still(w.conns[c]) ==> w'.conns[c] == w.conns[c])
  {
    StepKeepsInv(cfg, w, e);
    match e
    case TcpFrame(d, p, env) =>
      OtherTcpIsGood(cfg, w, d, p, env, c);
      TcpIsLocal(cfg, w, d, p, env);
      LocalSparesOthers(w, Step(cfg, w, e), d, c);
    case UdpDatagram(addr, p, env) => UdpFrame(cfg, w, addr, p, env);
    case _ =>
  }

  lemma SparedStaysOpen(cfg: Config, w: World, e: Event, c: Conn)
    requires Spares(cfg, w, e, c) && c !in w.closed
    ensures c !in Step(cfg, w, e).closed
  {
    match e
    case TcpFrame(d, p, env) =>
      TcpIsLocal(cfg, w, d, p, env);
      LocalSparesOthers(w, Step(cfg, w, e), d, c);
    case UdpDatagram(addr, p, env) => UdpFrame(cfg, w, addr, p, env);
    case _ =>
  }

  /** Nothing is written to c while its state is still or it has none; later, what was written stays. */
  lemma SparedFrames(cfg: Config, w: World, e: Event, c: Conn)
    requires Inv(w) && Spares(cfg, w, e, c)
    ensures FramesTo(w.log, c) <= FramesTo(Step(cfg, w, e).log, c)
    ensures c !in w.conns || Still(w.conns[c]) ==> FramesTo(Step(cfg, w, e).log, c) == FramesTo(w.log, c)
  {
    match e
    case TcpFrame(d, p, env) => OtherTcpIsGood(cfg, w, d, p, env, c);
    case UdpDatagram(addr, p, env) => UdpIsGood(cfg, w, addr, p, env, c);
    case TunnelPacket(d, bytes, env) => RelayFrames(w, d, bytes, env, c);
    case _ =>
  }

  lemma RelayFrames(w: World, d: Conn, bytes: seq<Byte>, env: Env, c: Conn)
    requires d in w.conns
    ensures FramesTo(w.log, c) <= FramesTo(Relay(w, d, bytes, env).log, c)
    ensures d != c ==> FramesTo(Relay(w, d, bytes, env).log, c) == FramesTo(w.log, c)
  {
    var w' := Relay(w, d, bytes, env);
    RelayWrites(w, d, bytes, env, w');
    if w'.log != w.log {
      var out :| w'.log == w.log + [out] && (out.ToUdp? || (out.ToTcp? && out.conn == d && out.frame.Data?));
      FramesToGrow(w.log, out, c);
    }
  }

  /** A ready state that is spared keeps its key, its version and its id. */
  lemma SparedKeepsSession(cfg: Config, w: World, e: Event, c: Conn)
    requires Inv(w) && Spares(cfg, w, e, c) && c in w.conns
    ensures c in Step(cfg, w, e).conns && Later(w.conns[c], Step(cfg, w, e).conns[c])
  {
    SparedStays(cfg, w, e, c);
    StepMovesForward(cfg, w, e, c);
  }

  // ---------- smooth runs ----------

  /** Moves of an honest handshake: the client does not give up, a frame arrives in a size the server
      looks at over a connection that takes the answer, the hello is acceptable when it arrives, and
      everything else spares the connection. */
  predicate SmoothMove(ccfg: ClientConfig, cfg: Config, s: Sys, c: Conn, m: Move) {
    match m
    case Start(_, _) => true
    case Receive => true
    case GiveUp => false
    case SendData(_) => false
    case Arrive(bytes, env) =>
      && 0 < |bytes| <= cfg.maxPacketSize * 8 && env.writeOk
      && (s.arrived < |s.sent| && s.sent[s.arrived].Hello? ==>
            ValidateTimestamp(env.later / SECOND, s.sent[s.arrived].timestamp, cfg.skewSec) && (cfg.psk == "" || cfg.psk == ccfg.psk) && env.serverNonce.Some?)
    case Elsewhere(e) => Spares(cfg, s.world, e, c)
  }

  predicate SmoothRun(ccfg: ClientConfig, cfg: Config, s: Sys, c: Conn, ms: seq<Move>)
    decreases |ms|
  {
    |ms| == 0 ||
    (Can(cfg, s, c, ms[0]) && SmoothMove(ccfg, cfg, s, c, ms[0]) && SmoothRun(ccfg, cfg, Make(ccfg, cfg, s, c, ms[0]), c, ms[1..]))
  }

  /** How many moves of the run are the handshake's own. */
  function OwnMoves(ms: seq<Move>): nat {
    if |ms| == 0 then 0 else (if ms[0].Elsewhere? then 0 else 1) + OwnMoves(ms[1..])
  }

  /** Start, two arrivals and two frames read; one of each for a client of another version. */
  function Goal(ccfg: ClientConfig): nat {
    if ccfg.protoVersion == "v2" then 5 else 3
  }

  /** How far the handshake has come. */
  function Progress(ccfg: ClientConfig, s: Sys): nat {
    match s.client
    case NotStarted => 0
    case AwaitingFirst(_) => 1 + s.arrived
    case AwaitingReady(_) => 2 + s.arrived
    case Established(_, _) => Goal(ccfg)
    case Failed => 6
  }

  // ---------- the phases of an honest handshake ----------

  /** The hello is on its way. */
  ghost predicate HelloSent(ccfg: ClientConfig, s: Sys, c: Conn)
    requires s.client.AwaitingFirst?
  {
    && |s.sent| == 1 && s.arrived == 0 && s.sent[0].Hello?
    && s.sent[0] == NewHello(ccfg.publicKey, ccfg.psk, ccfg.protoVersion, s.client.nonce, s.sent[0].timestamp)
    && c !in s.world.conns && FramesTo(s.world.log, c) == []
  }

  /** The server has answered the hello. */
  ghost predicate HelloAnswered(ccfg: ClientConfig, s: Sys, c: Conn)
    requires s.client.AwaitingFirst?
  {
    && |s.sent| == 1 && s.arrived == 1 && c in s.world.conns
    && var st := s.world.conns[c];
      && st.sessionKey.SessionKey? && |st.sessionKey.serverNonce| == 16
      && ccfg.privateKey.Private? && ccfg.serverPublicKey.PublicOf?
      && st.sessionKey == AgreedKey(ccfg, s.client.nonce, st.sessionKey.serverNonce)
      && (if ccfg.protoVersion == "v2"
          then st == AfterHello(Fresh(st.lastSeen), HelloAccepted(st.sessionKey, "v2", st.sessionKey.serverNonce))
               && FramesTo(s.world.log, c) == [BuildChallenge(st.sessionKey, st.sessionKey.serverNonce)]
          else st.secureReady && st.protoVersion != "v2" && !st.tunnelEnabled
               && FramesTo(s.world.log, c) == [BuildAck(st.sessionKey, st.sessionKey.serverNonce)])
  }

  /** The proof is on its way. */
  ghost predicate ProofSent(s: Sys, c: Conn)
    requires s.client.AwaitingReady?
  {
    && |s.sent| == 2 && s.arrived == 1 && c in s.world.conns
    && var st := s.world.conns[c];
      && !st.secureReady && st.awaitAuthV2 && st.sessionKey == s.client.key
      && s.sent[1] == Auth("v2", ProofTag(s.client.key, st.pendingTicket)) && |FramesTo(s.world.log, c)| == 1
  }

  /** The server has accepted the proof. */
  ghost predicate ProofAnswered(s: Sys, c: Conn)
    requires s.client.AwaitingReady?
  {
    && |s.sent| == 2 && s.arrived == 2 && ReadyWith(s.world, c, s.client.key)
    && |FramesTo(s.world.log, c)| >= 2 && FramesTo(s.world.log, c)[1] == BuildReady(s.client.key, s.world.conns[c].sessionID)
  }

  ghost predicate ReadyWith(w: World, c: Conn, key: Key) {
    c in w.conns && w.conns[c].secureReady && w.conns[c].sessionKey == key && w.conns[c].protoVersion == "v2"
  }

  ghost predicate Done(ccfg: ClientConfig, s: Sys, c: Conn)
    requires s.client.Established?
  {
    && s.arrived == |s.sent| && c in s.world.conns
    && var st := s.world.conns[c];
      && st.secureReady && st.sessionKey == s.client.key && (st.protoVersion == "v2" <==> ccfg.protoVersion == "v2")
      && (ccfg.protoVersion == "v2" ==> st.sessionID == s.client.sessionID)
  }

  ghost predicate Phase(ccfg: ClientConfig, s: Sys, c: Conn) {
    && Inv(s.world) && c !in s.world.closed
    && match s.client
       case NotStarted => s.sent == [] && s.arrived == 0 && s.read == 0 && c !in s.world.conns && FramesTo(s.world.log, c) == []
       case AwaitingFirst(_) => s.read == 0 && (HelloSent(ccfg, s, c) || HelloAnswered(ccfg, s, c))
       case AwaitingReady(_) => ccfg.protoVersion == "v2" && s.read == 1 && (ProofSent(s, c) || ProofAnswered(s, c))
       case Established(_, _) => Done(ccfg, s, c)
       case Failed => false
  }

  // ---------- one move ----------

  lemma HelloArrivesInPhase(ccfg: ClientConfig, cfg: Config, s: Sys, c: Conn, bytes: seq<Byte>, env: Env)
    requires Paired(ccfg, cfg) && s.client.AwaitingFirst? && Phase(ccfg, s, c) && HelloSent(ccfg, s, c)
    requires Can(cfg, s, c, Arrive(bytes, env)) && SmoothMove(ccfg, cfg, s, c, Arrive(bytes, env))
    ensures Phase(ccfg, Make(ccfg, cfg, s, c, Arrive(bytes, env)), c)
  {
    TcpKeepsInv(cfg, s.world, c, Packet(bytes, s.sent[0]), env);
    HelloArrives(ccfg, cfg, s.world, c, s.client.nonce, s.sent[0].timestamp, bytes, env);
    var s' := Make(ccfg, cfg, s, c, Arrive(bytes, env));
    assert HelloAnswered(ccfg, s', c);
  }

  lemma ProofArrivesInPhase(ccfg: ClientConfig, cfg: Config, s: Sys, c: Conn, bytes: seq<Byte>, env: Env)
    requires Paired(ccfg, cfg) && s.client.AwaitingReady? && Phase(ccfg, s, c) && ProofSent(s, c)
    requires Can(cfg, s, c, Arrive(bytes, env)) && SmoothMove(ccfg, cfg, s, c, Arrive(bytes, env))
    ensures Phase(ccfg, Make(ccfg, cfg, s, c, Arrive(bytes, env)), c)
  {
    TcpKeepsInv(cfg, s.world, c, Packet(bytes, s.sent[1]), env);
    ProofArrives(cfg, s.world, c, s.client.key, bytes, env);
    var s' := Make(ccfg, cfg, s, c, Arrive(bytes, env));
    assert PhaseOk(s.world.conns[c]);
    assert ProofAnswered(s', c);
  }

  lemma FirstIsRead(ccfg: ClientConfig, cfg: Config, s: Sys, c: Conn)
    requires s.client.AwaitingFirst? && Phase(ccfg, s, c) && HelloAnswered(ccfg, s, c)
    ensures Can(cfg, s, c, Receive) && Phase(ccfg, Make(ccfg, cfg, s, c, Receive), c)
    ensures Make(ccfg, cfg, s, c, Receive).client.AwaitingReady? == (ccfg.protoVersion == "v2")
  {
    var st := s.world.conns[c];
    if ccfg.protoVersion == "v2" {
      ChallengeAnswered(ccfg, s.client.nonce, st.sessionKey.serverNonce);
      assert ProofSent(Make(ccfg, cfg, s, c, Receive), c);
    } else {
      assert Done(ccfg, Make(ccfg, cfg, s, c, Receive), c);
    }
  }

  lemma SecondIsRead(ccfg: ClientConfig, cfg: Config, s: Sys, c: Conn)
    requires s.client.AwaitingReady? && Phase(ccfg, s, c) && ProofAnswered(s, c)
    ensures Can(cfg, s, c, Receive) && Phase(ccfg, Make(ccfg, cfg, s, c, Receive), c)
    ensures Make(ccfg, cfg, s, c, Receive).client.Established?
  {
  }

  lemma ElsewhereInPhase(ccfg: ClientConfig, cfg: Config, s: Sys, c: Conn, e: Event)
    requires Phase(ccfg, s, c) && Spares(cfg, s.world, e, c)
    ensures Phase(ccfg, s.(world := Step(cfg, s.world, e)), c)
  {
    SparedStays(cfg, s.world, e, c);
    SparedStaysOpen(cfg, s.world, e, c);
    SparedFrames(cfg, s.world, e, c);
    if c in s.world.conns { SparedKeepsSession(cfg, s.world, e, c); }
  }

  lemma MoveInPhase(ccfg: ClientConfig, cfg: Config, s: Sys, c: Conn, m: Move)
    requires Paired(ccfg, cfg) && Phase(ccfg, s, c) && Can(cfg, s, c, m) && SmoothMove(ccfg, cfg, s, c, m)
    ensures Phase(ccfg, Make(ccfg, cfg, s, c, m), c)
    ensures Progress(ccfg, Make(ccfg, cfg, s, c, m)) == Progress(ccfg, s) + (if m.Elsewhere? then 0 else 1)
  {
    match m
    case Start(_, _) =>
    case Receive =>
      if s.client.AwaitingFirst? { FirstIsRead(ccfg, cfg, s, c); } else { SecondIsRead(ccfg, cfg, s, c); }
    case Arrive(bytes, env) =>
      if s.client.AwaitingFirst? { HelloArrivesInPhase(ccfg, cfg, s, c, bytes, env); } else { ProofArrivesInPhase(ccfg, cfg, s, c, bytes, env); }
    case Elsewhere(e) => ElsewhereInPhase(ccfg, cfg, s, c, e);
  }

  // ---------- every smooth run ----------

  lemma {:induction false} SmoothRunInPhase(ccfg: ClientConfig, cfg: Config, s: Sys, c: Conn, ms: seq<Move>)
    requires Paired(ccfg, cfg) && Phase(ccfg, s, c) && SmoothRun(ccfg, cfg, s, c, ms)
    ensures Plays(ccfg, cfg, s, c, ms)
    ensures Phase(ccfg, Play(ccfg, cfg, s, c, ms), c)
    ensures Progress(ccfg, Play(ccfg, cfg, s, c, ms)) == Progress(ccfg, s) + OwnMoves(ms)
    decreases |ms|
  {
    if |ms| > 0 {
      MoveInPhase(ccfg, cfg, s, c, ms[0]);
      SmoothRunInPhase(ccfg, cfg, Make(ccfg, cfg, s, c, ms[0]), c, ms[1..]);
    }
  }

  /** On every schedule, with any traffic around it that spares the connection: an honest client never
      fails; it is done if and only if the handshake has made all its moves, five for v2 and three
      otherwise; and then the server is ready with its key and, for v2, its session id. */
  lemma HonestCompletesIff(ccfg: ClientConfig, cfg: Config, s: Sys, c: Conn, ms: seq<Move>)
    requires Connecting(s, c) && c !in s.world.closed && Paired(ccfg, cfg) && SmoothRun(ccfg, cfg, s, c, ms)
    ensures Plays(ccfg, cfg, s, c, ms)
    ensures var s' := Play(ccfg, cfg, s, c, ms);
      && !s'.client.Failed? && OwnMoves(ms) <= Goal(ccfg)
      && (s'.client.Established? <==> OwnMoves(ms) == Goal(ccfg))
      && (s'.client.Established? ==> Done(ccfg, s', c))
  {
    SmoothRunInPhase(ccfg, cfg, s, c, ms);
  }

  /** The own move that comes when n have been made. */
  function NextMove(n: nat, nonce: Nonce16, timestamp: int, bytes: seq<Byte>, env: Env): Move {
    if n == 0 then Start(nonce, timestamp)
    else if n == 1 || n == 3 then Arrive(bytes, env)
    else Receive
  }

  lemma PhaseGoesOn(ccfg: ClientConfig, cfg: Config, s: Sys, c: Conn, nonce: Nonce16, timestamp: int, bytes: seq<Byte>, env: Env)
    requires Phase(ccfg, s, c) && Progress(ccfg, s) < Goal(ccfg)
    ensures Can(cfg, s, c, NextMove(Progress(ccfg, s), nonce, timestamp, bytes, env))
  {
    assert c !in s.world.ended;
  }

  /** And it is never stuck: until it is done, its next own move can be made. */
  lemma HonestGoesOn(ccfg: ClientConfig, cfg: Config, s: Sys, c: Conn, ms: seq<Move>, nonce: Nonce16, timestamp: int, bytes: seq<Byte>, env: Env)
    requires Connecting(s, c) && c !in s.world.closed && Paired(ccfg, cfg) && SmoothRun(ccfg, cfg, s, c, ms)
    requires OwnMoves(ms) < Goal(ccfg)
    ensures Plays(ccfg, cfg, s, c, ms)
    ensures Can(cfg, Play(ccfg, cfg, s, c, ms), c, NextMove(OwnMoves(ms), nonce, timestamp, bytes, env))
  {
    SmoothRunInPhase(ccfg, cfg, s, c, ms);
    PhaseGoesOn(ccfg, cfg, Play(ccfg, cfg, s, c, ms), c, nonce, timestamp, bytes, env);
  }
}
