/** Properties of whole runs of the session machine: isolation, progress in one direction, nothing after
    a close, outputs under the right key, and the bounds of the idle sweep. */
module SessionRuns {
  import opened Wire
  import opened SessionModel
  import opened SessionInvariants

  // ---------- what one step may change and write ----------

  ghost predicate SameState(w: World, w': World, d: Conn) {
    (d in w.conns <==> d in w'.conns) && (d in w.conns ==> w'.conns[d] == w.conns[d]) && (d in w.closed <==> d in w'.closed)
  }

  predicate Addressed(out: Output, c: Conn) {
    (out.ToTcp? || out.ToTcpPlain?) && out.conn == c
  }

  /** Output that a handler for c may write in world w: to c and only while it is open, or a packet to
      the tunnel; application data only once c is ready, sealed with c's key. */
  ghost predicate OwnOutput(w: World, out: Output, c: Conn) {
    && (out.ToTunnel? || (Addressed(out, c) && c !in w.closed))
    && (out.ToTcp? && out.frame.Data? ==>
          c in w.conns && w.conns[c].secureReady && out.frame.ciphertext.Sealed? && out.frame.ciphertext.key == w.conns[c].sessionKey)
  }

  /** From w to w' only connection c was touched, and at most one output was written, for c. */
  ghost predicate Local(w: World, w': World, c: Conn) {
    && (forall d | d != c :: SameState(w, w', d))
    && w.closed <= w'.closed && w'.ended == w.ended && w'.udpUp == w.udpUp
    && (w'.log == w.log || (|w'.log| > 0 && w'.log[..|w'.log| - 1] == w.log && OwnOutput(w, w'.log[|w'.log| - 1], c)))
  }

  lemma FailIsLocal(w: World, c: Conn, message: string, ok: bool)
    ensures Local(w, FailConn(w, c, message, ok), c)
  {
  }

  lemma WriteOrRemoveIsLocal(w0: World, w: World, c: Conn, frame: Frame, ok: bool)
    requires Local(w0, w, c) && w.log == w0.log && w.closed == w0.closed
    requires OwnOutput(w0, ToTcp(c, frame), c) || c in w0.closed
    ensures Local(w0, WriteOrRemove(w, c, frame, ok), c)
  {
    forall d | d != c ensures SameState(w0, WriteOrRemove(w, c, frame, ok), d) {
      assert SameState(w0, w, d);
    }
  }

  lemma JudgedReplySealed(cfg: Config, st: State, frame: Frame, env: Env)
    ensures var v := JudgeData(cfg, st, frame, env);
            v.Answer? ==> v.reply.Data? && v.reply.ciphertext.Sealed? && v.reply.ciphertext.key == st.sessionKey
  {
  }

  lemma TunnelIsLocal(w: World, c: Conn, packet: seq<Byte>, env: Env)
    requires c in w.conns && w.conns[c].secureReady
    ensures Local(w, ActOnData(w, c, ForTunnel(packet), env), c)
  {
    var w1 := ToTunnelDevice(w, c, packet, env.tunnelOk);
    if !env.tunnelOk {
      var w2 := FailConn(w1, c, "tunnel write failed", env.errorWriteOk);
      FailIsLocal(w1, c, "tunnel write failed", env.errorWriteOk);
      forall d | d != c ensures SameState(w, w2, d) {
        assert SameState(w1, w2, d);
      }
    }
  }

  lemma DataIsLocal(w: World, c: Conn, v: DataVerdict, env: Env)
    requires c in w.conns && w.conns[c].secureReady
    requires v.Answer? ==> v.reply.Data? && v.reply.ciphertext.Sealed? && v.reply.ciphertext.key == w.conns[c].sessionKey
    ensures Local(w, ActOnData(w, c, v, env), c)
  {
    match v
    case DataRefused(message) => FailIsLocal(w, c, message, env.errorWriteOk);
    case ForTunnel(packet) => TunnelIsLocal(w, c, packet, env);
    case Answer(reply) => WriteOrRemoveIsLocal(w, w, c, reply, env.sealOk && env.writeOk);
  }

  lemma DispatchIsLocal(cfg: Config, w: World, c: Conn, frame: Frame, env: Env)
    requires c in w.conns
    ensures Local(w, Dispatch(cfg, w, c, frame, env), c)
  {
    var st := w.conns[c];
    if st.secureReady {
      JudgedReplySealed(cfg, st, frame, env);
      DataIsLocal(w, c, JudgeData(cfg, st, frame, env), env);
    } else if st.awaitAuthV2 {
      var refusal := JudgeAuth(st, frame);
      if refusal.Some? {
        FailIsLocal(w, c, refusal.value, env.errorWriteOk);
      } else {
        var sid := env.newSessionID;
        WriteOrRemoveIsLocal(w, BindSessionID(Put(w, c, AfterAuth(st, sid)), sid, c), c, BuildReady(st.sessionKey, sid), env.writeOk);
      }
    } else {
      var v := JudgeHello(cfg, frame, env);
      if v.HelloRejected? {
        FailIsLocal(w, c, v.message, env.errorWriteOk);
      } else {
        WriteOrRemoveIsLocal(w, Put(w, c, AfterHello(st, v)), c, HelloReply(v), env.writeOk);
      }
    }
  }

  lemma EnteredThenLocal(w: World, c: Conn, now: int, w': World)
    requires Local(Entered(w, c, now), w', c)
    ensures Local(w, w', c)
  {
    forall d | d != c ensures SameState(w, w', d) {
      assert SameState(Entered(w, c, now), w', d);
    }
  }

  /** A TCP frame touches no connection but its own, and the answer goes to that connection, only while
      it is open, under its own key. */
  lemma TcpIsLocal(cfg: Config, w: World, c: Conn, p: Packet, env: Env)
    ensures Local(w, HandleTcp(cfg, w, c, p, env), c)
  {
    if |p.bytes| == 0 {
      FailIsLocal(w, c, "empty frame", env.errorWriteOk);
    } else if cfg.privateKey.NoPrivateKey? {
      if |p.bytes| > cfg.maxPacketSize { FailIsLocal(w, c, "frame too large", env.errorWriteOk); }
    } else if |p.bytes| > cfg.maxPacketSize * 8 {
      FailIsLocal(w, c, "frame too large", env.errorWriteOk);
    } else {
      DispatchIsLocal(cfg, Entered(w, c, env.now), c, p.frame, env);
      EnteredThenLocal(w, c, env.now, Dispatch(cfg, Entered(w, c, env.now), c, p.frame, env));
    }
  }

  // ---------- each connection only moves forward ----------

  /** b is a possible later state of the connection whose state was a. */
  ghost predicate Later(a: State, b: State) {
    && b.sessionKey == a.sessionKey && b.protoVersion == a.protoVersion
    && (a.secureReady ==> b.secureReady && b.sessionID == a.sessionID)
    && (b.awaitAuthV2 ==> a.awaitAuthV2 && b.pendingTicket == a.pendingTicket)
    && (a.tunnelEnabled ==> b.tunnelEnabled)
    && (a.udpAddr.Some? ==> b.udpAddr.Some?)
  }

  lemma DispatchMovesForward(cfg: Config, w: World, c: Conn, frame: Frame, env: Env)
    requires c in w.conns && PhaseOk(w.conns[c])
    requires c in Dispatch(cfg, w, c, frame, env).conns
    ensures Later(w.conns[c], Dispatch(cfg, w, c, frame, env).conns[c])
  {
    var st := w.conns[c];
    if st.secureReady {
      DataMovesForward(w, c, JudgeData(cfg, st, frame, env), env);
    }
  }

  lemma DataMovesForward(w: World, c: Conn, v: DataVerdict, env: Env)
    requires c in w.conns && c in ActOnData(w, c, v, env).conns
    ensures ActOnData(w, c, v, env).conns[c] == w.conns[c] || ActOnData(w, c, v, env).conns[c] == w.conns[c].(tunnelEnabled := true)
  {
  }

  lemma TcpMovesForward(cfg: Config, w: World, c: Conn, p: Packet, env: Env)
    requires Inv(w) && c !in w.ended
    requires c in w.conns && c in HandleTcp(cfg, w, c, p, env).conns
    ensures Later(w.conns[c], HandleTcp(cfg, w, c, p, env).conns[c])
  {
    if 0 < |p.bytes| <= cfg.maxPacketSize * 8 && !cfg.privateKey.NoPrivateKey? {
      EnteredKeepsInv(w, c, env.now);
      DispatchMovesForward(cfg, Entered(w, c, env.now), c, p.frame, env);
    }
  }

  lemma UdpMovesForward(cfg: Config, w: World, addr: Addr, p: Packet, env: Env, c: Conn)
    requires c in w.conns
    ensures c in HandleUdp(cfg, w, addr, p, env).conns
    ensures Later(w.conns[c], HandleUdp(cfg, w, addr, p, env).conns[c])
  {
    UdpFrame(cfg, w, addr, p, env);
  }

  /** While a connection keeps its state, its key and version never change, it never goes back to
      awaiting the proof, and its session id, once given, is final. So a hello succeeds at most once
      for a state, and a proof at most once. */
  lemma StepMovesForward(cfg: Config, w: World, e: Event, c: Conn)
    requires Inv(w) && Enabled(w, e)
    requires c in w.conns && c in Step(cfg, w, e).conns
    ensures Later(w.conns[c], Step(cfg, w, e).conns[c])
  {
    match e
    case TcpFrame(d, p, env) =>
      if d == c {
        TcpMovesForward(cfg, w, c, p, env);
      } else {
        TcpIsLocal(cfg, w, d, p, env);
        LocalSparesOthers(w, Step(cfg, w, e), d, c);
      }
    case UdpDatagram(addr, p, env) => UdpMovesForward(cfg, w, addr, p, env, c);
    case _ =>
  }

  lemma LocalSparesOthers(w: World, w': World, c: Conn, d: Conn)
    requires Local(w, w', c) && d != c
    ensures SameState(w, w', d)
  {
  }

  // ---------- outputs ----------

  /** Output that is correct in world w. */
  ghost predicate OutputOk(w: World, out: Output) {
    match out
    case ToTcp(c, frame) =>
      && c !in w.closed
      && (frame.Data? ==> c in w.conns && w.conns[c].secureReady && frame.ciphertext.Sealed? && frame.ciphertext.key == w.conns[c].sessionKey)
    case ToTcpPlain(c, _) => c !in w.closed
    case ToUdp(_, frame) =>
      && frame.Data? && frame.sessionID in w.bySID && w.bySID[frame.sessionID] in w.conns
      && frame.ciphertext.Sealed? && frame.ciphertext.key == w.conns[w.bySID[frame.sessionID]].sessionKey
    case _ => true
  }

  lemma UdpWrites(cfg: Config, w: World, addr: Addr, p: Packet, env: Env)
    requires Inv(w)
    ensures var w' := HandleUdp(cfg, w, addr, p, env);
      w'.log == w.log || (|w'.log| > 0 && w'.log[..|w'.log| - 1] == w.log && OutputOk(w, w'.log[|w'.log| - 1]) && !w'.log[|w'.log| - 1].ToTcp? && !w'.log[|w'.log| - 1].ToTcpPlain?)
  {
  }

  /** The log grew by at most one output, which was correct. */
  ghost predicate WroteOk(w: World, w': World) {
    w'.log == w.log || (|w'.log| > 0 && w'.log[..|w'.log| - 1] == w.log && OutputOk(w, w'.log[|w'.log| - 1]))
  }

  lemma LocalWritesOk(w: World, w': World, c: Conn)
    requires Local(w, w', c)
    ensures WroteOk(w, w')
  {
  }

  lemma RelayWritesOk(w: World, c: Conn, packet: seq<Byte>, env: Env)
    requires Inv(w) && Complete(w) && c in w.conns && CarriesTunnel(w.conns[c])
    ensures WroteOk(w, Relay(w, c, packet, env))
  {
  }

  /** Every step writes at most one output, to an open connection, and application data only under the
      key of the ready session it belongs to; a datagram carries that session's bound id. */
  lemma StepWritesCorrectly(cfg: Config, w: World, e: Event)
    requires Inv(w) && Complete(w) && Enabled(w, e)
    ensures WroteOk(w, Step(cfg, w, e))
  {
    match e
    case TcpFrame(c, p, env) =>
      TcpIsLocal(cfg, w, c, p, env);
      LocalWritesOk(w, Step(cfg, w, e), c);
    case UdpDatagram(addr, p, env) => UdpWrites(cfg, w, addr, p, env);
    case TunnelPacket(c, packet, env) => RelayWritesOk(w, c, packet, env);
    case _ =>
  }

  // ---------- after the server closes a connection ----------

  ghost predicate SilentFor(w: World, w': World, c: Conn) {
    w.log <= w'.log && forall i | |w.log| <= i < |w'.log| :: !Addressed(w'.log[i], c)
  }

  lemma LocalKeepsClosedGone(w: World, w': World, d: Conn, c: Conn)
    requires Local(w, w', d) && Inv(w') && d !in w.ended
    requires c in w.closed && c !in w.conns
    ensures c in w'.closed && c !in w'.conns && SilentFor(w, w', c)
  {
    if d != c { assert SameState(w, w', c); }
  }

  lemma UdpKeepsClosedGone(cfg: Config, w: World, addr: Addr, p: Packet, env: Env, c: Conn)
    requires Inv(w)
    requires c in w.closed && c !in w.conns
    ensures var w' := HandleUdp(cfg, w, addr, p, env);
      c in w'.closed && c !in w'.conns && SilentFor(w, w', c)
  {
    UdpFrame(cfg, w, addr, p, env);
    UdpWrites(cfg, w, addr, p, env);
  }

  lemma StepKeepsClosedGone(cfg: Config, w: World, e: Event, c: Conn)
    requires Inv(w) && Enabled(w, e)
    requires c in w.closed && c !in w.conns
    ensures var w' := Step(cfg, w, e);
      c in w'.closed && c !in w'.conns && SilentFor(w, w', c)
  {
    match e
    case TcpFrame(d, p, env) =>
      TcpIsLocal(cfg, w, d, p, env);
      TcpKeepsInv(cfg, w, d, p, env);
      LocalKeepsClosedGone(w, Step(cfg, w, e), d, c);
    case UdpDatagram(addr, p, env) => UdpKeepsClosedGone(cfg, w, addr, p, env, c);
    case _ =>
  }

  /** With atomic handlers: once the server has closed a connection, no run of events, whatever frames its
      read loop still holds, gives it a state again or writes to it. (LockClose has the same question at
      lock granularity, where the answer differs for the sweep.) */
  lemma {:induction false} NothingAfterClose(cfg: Config, w: World, es: seq<Event>, c: Conn)
    requires Inv(w) && Runs(cfg, w, es)
    requires c in w.closed && c !in w.ended
    ensures var w' := Run(cfg, w, es);
      c !in w'.conns && c in w'.closed && SilentFor(w, w', c)
  {
    GoneStaysGone(cfg, w, es, c);
  }

  lemma {:induction false} GoneStaysGone(cfg: Config, w: World, es: seq<Event>, c: Conn)
    requires Inv(w) && Runs(cfg, w, es)
    requires c in w.closed && c !in w.conns
    ensures var w' := Run(cfg, w, es);
      c !in w'.conns && c in w'.closed && SilentFor(w, w', c)
    decreases |es|
  {
    if |es| > 0 {
      StepKeepsClosedGone(cfg, w, es[0], c);
      StepKeepsInv(cfg, w, es[0]);
      GoneStaysGone(cfg, Step(cfg, w, es[0]), es[1..], c);
    }
  }

  // ---------- the idle sweep over time ----------

  /** The event refreshes the idle clock of c. */
  predicate Touches(cfg: Config, w: World, e: Event, c: Conn) {
    match e
    case TcpFrame(d, _, _) => d == c
    case UdpDatagram(_, p, _) => DatagramOwner(cfg, w, p) == Some(c)
    case _ => false
  }

  predicate UntouchedRun(cfg: Config, w: World, es: seq<Event>, c: Conn)
    requires Runs(cfg, w, es)
    decreases |es|
  {
    |es| > 0 ==> !Touches(cfg, w, es[0], c) && UntouchedRun(cfg, Step(cfg, w, es[0]), es[1..], c)
  }

  /** An event that does not touch c leaves its state alone, except that a sweep may remove it. */
  lemma UntouchedStep(cfg: Config, w: World, e: Event, c: Conn)
    requires Enabled(w, e) && !Touches(cfg, w, e, c)
    ensures var w' := Step(cfg, w, e);
      && (c in w'.conns ==> c in w.conns && w'.conns[c] == w.conns[c])
      && (c in w.conns && c !in w'.conns ==> e.Sweep? && cfg.idleSec > 0 && Idle(cfg, w.conns[c], e.now))
      && (c in w.conns && e.Sweep? && cfg.idleSec > 0 && Idle(cfg, w.conns[c], e.now) ==> c !in w'.conns)
  {
    match e
    case TcpFrame(d, p, env) =>
      TcpIsLocal(cfg, w, d, p, env);
      LocalSparesOthers(w, Step(cfg, w, e), d, c);
    case UdpDatagram(addr, p, env) => UdpFrame(cfg, w, addr, p, env);
    case _ =>
  }

  ghost predicate GoneFromIndices(w: World, c: Conn) {
    c !in w.conns && forall sid | sid in w.bySID :: w.bySID[sid] != c
  }

  /** A connection nobody touches is gone from both indices as soon as the run has swept at a time more
      than the idle limit after it was last seen. */
  lemma {:induction false} UntouchedIsSwept(cfg: Config, w: World, es: seq<Event>, c: Conn, now: int)
    requires Inv(w) && Runs(cfg, w, es) && UntouchedRun(cfg, w, es, c) && cfg.idleSec > 0
    requires c in w.conns ==> Sweep(now) in es && w.conns[c].lastSeen < now - cfg.idleSec * SECOND
    ensures GoneFromIndices(Run(cfg, w, es), c)
    decreases |es|
  {
    if |es| > 0 {
      UntouchedStep(cfg, w, es[0], c);
      StepKeepsInv(cfg, w, es[0]);
      UntouchedIsSwept(cfg, Step(cfg, w, es[0]), es[1..], c, now);
    }
  }

  const TICK: int := 15 * SECOND

  /** Tick number k of the sweep's ticker. */
  function TickAt(phase: int, k: int): int {
    phase + k * TICK
  }

  /** With the sweep ticking every 15 seconds, a connection untouched since it was last seen is gone from
      both indices by the idle limit plus one tick, whatever the phase of the ticker. */
  lemma IdleBound(cfg: Config, w: World, es: seq<Event>, c: Conn, phase: int)
    requires Inv(w) && Runs(cfg, w, es) && UntouchedRun(cfg, w, es, c) && cfg.idleSec > 0 && c in w.conns
    requires forall k: int | w.conns[c].lastSeen < TickAt(phase, k) <= w.conns[c].lastSeen + cfg.idleSec * SECOND + TICK ::
               Sweep(TickAt(phase, k)) in es
    ensures GoneFromIndices(Run(cfg, w, es), c)
  {
    var k := TickAfter(w.conns[c].lastSeen + cfg.idleSec * SECOND, phase);
    UntouchedIsSwept(cfg, w, es, c, TickAt(phase, k));
  }

  lemma TickAfter(limit: int, phase: int) returns (k: int)
    ensures limit < TickAt(phase, k) <= limit + TICK
  {
    k := (limit - phase) / TICK + 1;
  }

  /** Every sweep of the run comes within the idle limit of the last touch of c, while c has a state. */
  predicate KeptAlive(cfg: Config, w: World, es: seq<Event>, c: Conn, lastTouch: int)
    requires Runs(cfg, w, es)
    decreases |es|
  {
    |es| > 0 ==>
      && (es[0].Sweep? && c in w.conns ==> es[0].now - cfg.idleSec * SECOND <= lastTouch)
      && KeptAlive(cfg, Step(cfg, w, es[0]), es[1..], c, if Touches(cfg, w, es[0], c) then es[0].env.now else lastTouch)
  }

  /** No sweep of the run removes c. */
  predicate NeverSwept(cfg: Config, w: World, es: seq<Event>, c: Conn)
    requires Runs(cfg, w, es)
    decreases |es|
  {
    |es| > 0 ==>
      && (es[0].Sweep? && c in w.conns ==> c in Step(cfg, w, es[0]).conns)
      && NeverSwept(cfg, Step(cfg, w, es[0]), es[1..], c)
  }

  lemma WriteOrRemoveKeepsStates(w: World, c: Conn, frame: Frame, ok: bool)
    ensures c in WriteOrRemove(w, c, frame, ok).conns ==> WriteOrRemove(w, c, frame, ok).conns == w.conns
  {
  }

  lemma AuthKeepsLastSeen(w: World, c: Conn, frame: Frame, env: Env)
    requires c in w.conns && c in HandleAuth(w, c, frame, env).conns
    ensures HandleAuth(w, c, frame, env).conns[c].lastSeen == w.conns[c].lastSeen
  {
    if JudgeAuth(w.conns[c], frame).None? {
      var sid := env.newSessionID;
      WriteOrRemoveKeepsStates(BindSessionID(Put(w, c, AfterAuth(w.conns[c], sid)), sid, c), c, BuildReady(w.conns[c].sessionKey, sid), env.writeOk);
    }
  }

  lemma HelloKeepsLastSeen(cfg: Config, w: World, c: Conn, frame: Frame, env: Env)
    requires c in w.conns && c in HandleHello(cfg, w, c, frame, env).conns
    ensures HandleHello(cfg, w, c, frame, env).conns[c].lastSeen == w.conns[c].lastSeen
  {
    var v := JudgeHello(cfg, frame, env);
    if v.HelloAccepted? {
      WriteOrRemoveKeepsStates(Put(w, c, AfterHello(w.conns[c], v)), c, HelloReply(v), env.writeOk);
    }
  }

  lemma DispatchKeepsLastSeen(cfg: Config, w: World, c: Conn, frame: Frame, env: Env)
    requires c in w.conns && c in Dispatch(cfg, w, c, frame, env).conns
    ensures Dispatch(cfg, w, c, frame, env).conns[c].lastSeen == w.conns[c].lastSeen
  {
    if w.conns[c].secureReady {
      DataMovesForward(w, c, JudgeData(cfg, w.conns[c], frame, env), env);
    } else if w.conns[c].awaitAuthV2 {
      AuthKeepsLastSeen(w, c, frame, env);
    } else {
      HelloKeepsLastSeen(cfg, w, c, frame, env);
    }
  }

  lemma TouchedStep(cfg: Config, w: World, e: Event, c: Conn)
    requires Inv(w) && Enabled(w, e) && Touches(cfg, w, e, c) && !cfg.privateKey.NoPrivateKey?
    requires c in Step(cfg, w, e).conns
    ensures Step(cfg, w, e).conns[c].lastSeen == e.env.now
  {
    match e
    case TcpFrame(_, p, env) =>
      if 0 < |p.bytes| <= cfg.maxPacketSize * 8 {
        DispatchKeepsLastSeen(cfg, Entered(w, c, env.now), c, p.frame, env);
      }
    case UdpDatagram(addr, p, env) => UdpFrame(cfg, w, addr, p, env);
  }

  /** The sweeps of a run never remove c if and only if each of them comes within the idle limit of the
      last time c was touched. */
  lemma {:induction false} NeverSweptIffKeptAlive(cfg: Config, w: World, es: seq<Event>, c: Conn, lastTouch: int)
    requires Inv(w) && Runs(cfg, w, es) && cfg.idleSec > 0 && !cfg.privateKey.NoPrivateKey?
    requires c in w.conns ==> w.conns[c].lastSeen == lastTouch
    ensures NeverSwept(cfg, w, es, c) <==> KeptAlive(cfg, w, es, c, lastTouch)
    decreases |es|
  {
    if |es| > 0 {
      var w' := Step(cfg, w, es[0]);
      StepKeepsInv(cfg, w, es[0]);
      if Touches(cfg, w, es[0], c) {
        if c in w'.conns { TouchedStep(cfg, w, es[0], c); }
        NeverSweptIffKeptAlive(cfg, w', es[1..], c, es[0].env.now);
      } else {
        UntouchedStep(cfg, w, es[0], c);
        NeverSweptIffKeptAlive(cfg, w', es[1..], c, lastTouch);
      }
    }
  }
}
