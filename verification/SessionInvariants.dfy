/** What every step and every run of the session machine keeps. */
module SessionInvariants {
  import opened Wire
  import opened SessionModel

  // ---------- the phases of one connection ----------

  /** A state that survives a handler is awaiting the v2 proof or ready, never both, and carries the
      data of its phase. */
  ghost predicate PhaseOk(st: State) {
    && st.secureReady != st.awaitAuthV2
    && st.sessionKey.SessionKey?
    && (st.awaitAuthV2 ==> st.protoVersion == "v2" && st.pendingTicket == BuildChallenge(st.sessionKey, st.sessionKey.serverNonce).ticket)
    && (st.secureReady ==> st.pendingTicket == NoTag)
    && (st.tunnelEnabled ==> st.secureReady)
    && (st.sessionID != "" ==> st.secureReady && st.protoVersion == "v2")
    && (st.udpAddr.Some? ==> st.secureReady && st.protoVersion == "v2" && st.sessionID != "")
  }

  /** Every bound session id names a connection whose state carries that id. */
  ghost predicate Sound(w: World) {
    forall sid | sid in w.bySID :: sid != "" && w.bySID[sid] in w.conns && w.conns[w.bySID[sid]].sessionID == sid
  }

  /** Every state with a session id is bound under it. */
  ghost predicate Complete(w: World) {
    forall c | c in w.conns && w.conns[c].sessionID != "" ::
      w.conns[c].sessionID in w.bySID && w.bySID[w.conns[c].sessionID] == c
  }

  /** A connection the server itself closed has no state. (A peer's hangup leaves its state to the sweep.)
      This is of atomic handlers; LockClose says what is left of it at lock granularity. */
  ghost predicate ClosedGone(w: World) {
    forall c | c in w.conns && c in w.closed :: c in w.ended
  }

  ghost predicate Inv(w: World) {
    && (forall c | c in w.conns :: PhaseOk(w.conns[c]))
    && Sound(w)
    && ClosedGone(w)
    && w.ended <= w.closed
  }

  ghost predicate Agreement(w: World) {
    Sound(w) && Complete(w)
  }

  // ---------- lemmas on the table operations ----------

  lemma RemoveKeepsInv(w: World, c: Conn)
    requires forall d | d in w.conns && d != c :: PhaseOk(w.conns[d])
    requires Sound(w)
    requires forall d | d in w.conns && d in w.closed && d != c :: d in w.ended
    requires w.ended <= w.closed
    ensures Inv(RemoveConnState(w, c))
  {
  }

  lemma RemoveKeepsComplete(w: World, c: Conn)
    requires Complete(w)
    ensures Complete(RemoveConnState(w, c))
  {
  }

  /** The invariant with the phase and closedness of c left open, as it holds inside a handler for c. */
  ghost predicate InvExcept(w: World, c: Conn) {
    && (forall d | d in w.conns && d != c :: PhaseOk(w.conns[d]))
    && Sound(w)
    && (forall d | d in w.conns && d in w.closed && d != c :: d in w.ended)
    && w.ended <= w.closed
    && c in w.conns && c !in w.ended
  }

  lemma WriteOrRemoveKeepsInv(w: World, c: Conn, frame: Frame, ok: bool)
    requires InvExcept(w, c) && PhaseOk(w.conns[c])
    ensures Inv(WriteOrRemove(w, c, frame, ok))
    ensures Complete(w) ==> Complete(WriteOrRemove(w, c, frame, ok))
  {
    if !Writable(w, c, ok) { RemoveKeepsInv(w, c); }
  }

  lemma FailKeepsInv(w: World, c: Conn, message: string, ok: bool)
    requires forall d | d in w.conns && d != c :: PhaseOk(w.conns[d])
    requires Sound(w)
    requires forall d | d in w.conns && d in w.closed && d != c :: d in w.ended
    requires w.ended <= w.closed
    ensures Inv(FailConn(w, c, message, ok))
    ensures Complete(w) ==> Complete(FailConn(w, c, message, ok))
    ensures c !in FailConn(w, c, message, ok).conns && c in FailConn(w, c, message, ok).closed
  {
    var w1 := Close(Write(w, c, Error(message), ok), c);
    RemoveKeepsInv(w1, c);
    if Complete(w) { RemoveKeepsComplete(w1, c); }
  }

  lemma HelloKeepsInv(cfg: Config, w: World, c: Conn, frame: Frame, env: Env)
    requires InvExcept(w, c) && w.conns[c] == Fresh(w.conns[c].lastSeen)
    ensures Inv(HandleHello(cfg, w, c, frame, env))
    ensures Complete(w) ==> Complete(HandleHello(cfg, w, c, frame, env))
  {
    var v := JudgeHello(cfg, frame, env);
    if v.HelloRejected? {
      FailKeepsInv(w, c, v.message, env.errorWriteOk);
    } else {
      WriteOrRemoveKeepsInv(Put(w, c, AfterHello(w.conns[c], v)), c, HelloReply(v), env.writeOk);
    }
  }

  lemma DataKeepsInv(w: World, c: Conn, v: DataVerdict, env: Env)
    requires InvExcept(w, c) && PhaseOk(w.conns[c]) && w.conns[c].secureReady && c !in w.closed
    ensures Inv(ActOnData(w, c, v, env))
    ensures Complete(w) ==> Complete(ActOnData(w, c, v, env))
  {
    match v
    case DataRefused(message) => FailKeepsInv(w, c, message, env.errorWriteOk);
    case ForTunnel(packet) =>
      if !env.tunnelOk {
        FailKeepsInv(ToTunnelDevice(w, c, packet, env.tunnelOk), c, "tunnel write failed", env.errorWriteOk);
      }
    case Answer(reply) => WriteOrRemoveKeepsInv(w, c, reply, env.sealOk && env.writeOk);
  }

  /** A session id is usable when it is empty or bound to nobody. */
  predicate FreshID(w: World, sid: string) {
    sid == "" || sid !in w.bySID
  }

  lemma AuthKeepsInv(w: World, c: Conn, frame: Frame, env: Env)
    requires InvExcept(w, c) && PhaseOk(w.conns[c]) && w.conns[c].awaitAuthV2
    ensures Inv(HandleAuth(w, c, frame, env))
  {
    var refusal := JudgeAuth(w.conns[c], frame);
    if refusal.Some? {
      FailKeepsInv(w, c, refusal.value, env.errorWriteOk);
    } else {
      var sid := env.newSessionID;
      var w1 := BindSessionID(Put(w, c, AfterAuth(w.conns[c], sid)), sid, c);
      WriteOrRemoveKeepsInv(w1, c, BuildReady(w.conns[c].sessionKey, sid), env.writeOk);
    }
  }

  /** Binding a fresh id keeps the indices complete. Binding an id that another connection holds does
      not, and neither dropping the new state afterwards nor keeping it repairs them. */
  lemma BindKeepsCompleteIff(w: World, c: Conn, st: State, w': World)
    requires Sound(w) && Complete(w)
    requires c in w.conns && w.conns[c].sessionID == ""
    requires w' == BindSessionID(Put(w, c, st), st.sessionID, c)
    ensures Complete(w') <==> FreshID(w, st.sessionID)
    ensures Complete(RemoveConnState(w', c)) <==> FreshID(w, st.sessionID)
  {
    var sid := st.sessionID;
    if FreshID(w, sid) {
      RemoveKeepsComplete(w', c);
    } else {
      var holder := w.bySID[sid];
      assert holder != c && w'.conns[holder] == w.conns[holder];
      assert sid !in RemoveConnState(w', c).bySID;
      assert holder in RemoveConnState(w', c).conns;
    }
  }

  /** An accepted proof keeps the two indices in agreement exactly when the id it is given is fresh. */
  lemma AuthKeepsAgreementIff(w: World, c: Conn, frame: Frame, env: Env)
    requires InvExcept(w, c) && PhaseOk(w.conns[c]) && w.conns[c].awaitAuthV2 && Complete(w)
    ensures Complete(HandleAuth(w, c, frame, env)) <==> (JudgeAuth(w.conns[c], frame).None? ==> FreshID(w, env.newSessionID))
  {
    var refusal := JudgeAuth(w.conns[c], frame);
    if refusal.Some? {
      FailKeepsInv(w, c, refusal.value, env.errorWriteOk);
    } else {
      var st := AfterAuth(w.conns[c], env.newSessionID);
      var w1 := BindSessionID(Put(w, c, st), st.sessionID, c);
      BindKeepsCompleteIff(w, c, st, w1);
    }
  }

  // ---------- every step ----------

  lemma EnteredKeepsInv(w: World, c: Conn, now: int)
    requires Inv(w) && c !in w.ended
    ensures InvExcept(Entered(w, c, now), c)
    ensures c in w.conns ==> PhaseOk(Entered(w, c, now).conns[c]) && c !in w.closed
    ensures c !in w.conns ==> Entered(w, c, now).conns[c] == Fresh(now)
    ensures Complete(Entered(w, c, now)) == Complete(w)
  {
    var w' := Entered(w, c, now);
    assert forall d | d in w.conns :: d in w'.conns && w'.conns[d].sessionID == w.conns[d].sessionID;
    assert forall d | d in w'.conns && w'.conns[d].sessionID != "" :: d in w.conns;
    if c in w.conns { assert w'.conns[c] == w.conns[c].(lastSeen := now); }
  }

  /** The step in which the server hands out a session id. */
  predicate IssuesSession(cfg: Config, w: World, e: Event) {
    && e.TcpFrame? && 0 < |e.packet.bytes| <= cfg.maxPacketSize * 8 && !cfg.privateKey.NoPrivateKey?
    && e.conn in w.conns && !w.conns[e.conn].secureReady && w.conns[e.conn].awaitAuthV2
    && JudgeAuth(w.conns[e.conn], e.packet.frame).None?
  }

  predicate FreshStep(cfg: Config, w: World, e: Event) {
    IssuesSession(cfg, w, e) ==> FreshID(w, e.env.newSessionID)
  }

  lemma DispatchKeepsInv(cfg: Config, w: World, c: Conn, frame: Frame, env: Env)
    requires InvExcept(w, c)
    requires w.conns[c] == Fresh(w.conns[c].lastSeen) || (PhaseOk(w.conns[c]) && c !in w.closed)
    ensures Inv(Dispatch(cfg, w, c, frame, env))
    ensures Complete(w) ==>
      (Complete(Dispatch(cfg, w, c, frame, env)) <==>
        (w.conns[c].awaitAuthV2 && JudgeAuth(w.conns[c], frame).None? ==> FreshID(w, env.newSessionID)))
  {
    if w.conns[c].secureReady {
      DataKeepsInv(w, c, JudgeData(cfg, w.conns[c], frame, env), env);
    } else if w.conns[c].awaitAuthV2 {
      AuthKeepsInv(w, c, frame, env);
      if Complete(w) { AuthKeepsAgreementIff(w, c, frame, env); }
    } else {
      HelloKeepsInv(cfg, w, c, frame, env);
    }
  }

  lemma EnteredDispatchKeepsInv(cfg: Config, w: World, c: Conn, frame: Frame, env: Env)
    requires Inv(w) && c !in w.ended
    ensures var w' := Dispatch(cfg, Entered(w, c, env.now), c, frame, env);
      && Inv(w')
      && (Complete(w) ==> (Complete(w') <==>
            (c in w.conns && w.conns[c].awaitAuthV2 && JudgeAuth(w.conns[c], frame).None? ==> FreshID(w, env.newSessionID))))
  {
    var w2 := Entered(w, c, env.now);
    EnteredKeepsInv(w, c, env.now);
    DispatchKeepsInv(cfg, w2, c, frame, env);
  }

  lemma TcpKeepsInv(cfg: Config, w: World, c: Conn, p: Packet, env: Env)
    requires Inv(w) && c !in w.ended
    ensures Inv(HandleTcp(cfg, w, c, p, env))
    ensures Complete(w) ==>
      (Complete(HandleTcp(cfg, w, c, p, env)) <==> FreshStep(cfg, w, TcpFrame(c, p, env)))
  {
    if |p.bytes| == 0 {
      FailKeepsInv(w, c, "empty frame", env.errorWriteOk);
    } else if cfg.privateKey.NoPrivateKey? {
      if |p.bytes| > cfg.maxPacketSize { FailKeepsInv(w, c, "frame too large", env.errorWriteOk); }
    } else if |p.bytes| > cfg.maxPacketSize * 8 {
      FailKeepsInv(w, c, "frame too large", env.errorWriteOk);
    } else {
      EnteredDispatchKeepsInv(cfg, w, c, p.frame, env);
    }
  }

  lemma UdpKeepsInv(cfg: Config, w: World, addr: Addr, p: Packet, env: Env)
    requires Inv(w)
    ensures Inv(HandleUdp(cfg, w, addr, p, env))
    ensures Complete(HandleUdp(cfg, w, addr, p, env)) == Complete(w)
  {
    var w' := HandleUdp(cfg, w, addr, p, env);
    UdpFrame(cfg, w, addr, p, env);
    assert forall d | d in w.conns :: w'.conns[d].sessionID == w.conns[d].sessionID;
  }

  /** A datagram changes at most the state its session id names, and of that only three fields. */
  lemma UdpFrame(cfg: Config, w: World, addr: Addr, p: Packet, env: Env)
    ensures var w' := HandleUdp(cfg, w, addr, p, env);
      && w' == w.(conns := w'.conns, log := w'.log) && w.log <= w'.log && w'.conns.Keys == w.conns.Keys
      && (DatagramOwner(cfg, w, p).None? ==> w'.conns == w.conns)
      && (DatagramOwner(cfg, w, p).Some? ==>
            var c := DatagramOwner(cfg, w, p).value;
            && (forall d | d in w.conns && d != c :: w'.conns[d] == w.conns[d])
            && w'.conns[c] == w.conns[c].(lastSeen := env.now, udpAddr := Some(addr), tunnelEnabled := w'.conns[c].tunnelEnabled)
            && (w.conns[c].tunnelEnabled ==> w'.conns[c].tunnelEnabled))
  {
  }

  lemma SweepKeepsInv(cfg: Config, w: World, now: int)
    requires Inv(w)
    ensures Inv(DropIdle(cfg, w, now))
    ensures Complete(w) ==> Complete(DropIdle(cfg, w, now))
  {
    if cfg.idleSec > 0 {
      var idle := IdleConns(cfg, w, now);
      var w' := DropIdle(cfg, w, now);
      forall sid | sid in w'.bySID ensures w'.bySID[sid] in w'.conns {
        assert w.bySID[sid] in idle ==> sid in SessionIDs(w, idle);
      }
      if Complete(w) {
        forall c | c in w'.conns && w'.conns[c].sessionID != "" ensures w'.conns[c].sessionID in w'.bySID {
          assert forall d | d in idle && w.conns[d].sessionID != "" :: w.bySID[w.conns[d].sessionID] == d;
        }
      }
    }
  }

  /** Every step keeps the invariant, with no assumption on the ids it hands out. */
  lemma StepKeepsInv(cfg: Config, w: World, e: Event)
    requires Inv(w) && Enabled(w, e)
    ensures Inv(Step(cfg, w, e))
  {
    match e
    case TcpFrame(c, p, env) => TcpKeepsInv(cfg, w, c, p, env);
    case UdpDatagram(addr, p, env) => UdpKeepsInv(cfg, w, addr, p, env);
    case TunnelPacket(_, _, _) =>
    case Sweep(now) => SweepKeepsInv(cfg, w, now);
    case Hangup(_) =>
  }

  /** A step keeps the indices in exact agreement if and only if any session id it hands out is fresh. */
  lemma StepKeepsAgreementIff(cfg: Config, w: World, e: Event)
    requires Inv(w) && Complete(w) && Enabled(w, e)
    ensures Agreement(Step(cfg, w, e)) <==> FreshStep(cfg, w, e)
  {
    StepKeepsInv(cfg, w, e);
    match e
    case TcpFrame(c, p, env) => TcpKeepsInv(cfg, w, c, p, env);
    case UdpDatagram(addr, p, env) => UdpKeepsInv(cfg, w, addr, p, env);
    case TunnelPacket(_, _, _) =>
    case Sweep(now) => SweepKeepsInv(cfg, w, now);
    case Hangup(_) =>
  }

  // ---------- every run ----------

  lemma {:induction false} RunKeepsInv(cfg: Config, w: World, es: seq<Event>)
    requires Inv(w) && Runs(cfg, w, es)
    ensures Inv(Run(cfg, w, es))
    decreases |es|
  {
    if |es| > 0 {
      StepKeepsInv(cfg, w, es[0]);
      RunKeepsInv(cfg, Step(cfg, w, es[0]), es[1..]);
    }
  }

  ghost predicate FreshRun(cfg: Config, w: World, es: seq<Event>)
    requires Runs(cfg, w, es)
    decreases |es|
  {
    |es| > 0 ==> FreshStep(cfg, w, es[0]) && FreshRun(cfg, Step(cfg, w, es[0]), es[1..])
  }

  /** The indices agree after every step of a run. */
  ghost predicate AgreementThroughout(cfg: Config, w: World, es: seq<Event>)
    requires Runs(cfg, w, es)
    decreases |es|
  {
    Agreement(w) && (|es| > 0 ==> AgreementThroughout(cfg, Step(cfg, w, es[0]), es[1..]))
  }

  /** From agreement, the indices agree after every step of a run if and only if every session id the
      run hands out is fresh at that moment. */
  lemma {:induction false} RunKeepsAgreementIff(cfg: Config, w: World, es: seq<Event>)
    requires Inv(w) && Agreement(w) && Runs(cfg, w, es)
    ensures AgreementThroughout(cfg, w, es) <==> FreshRun(cfg, w, es)
    decreases |es|
  {
    if |es| > 0 {
      StepKeepsInv(cfg, w, es[0]);
      StepKeepsAgreementIff(cfg, w, es[0]);
      if Agreement(Step(cfg, w, es[0])) {
        RunKeepsAgreementIff(cfg, Step(cfg, w, es[0]), es[1..]);
      }
    }
  }

  /** In agreement the two indices are each other's inverse. */
  lemma AgreementIsExact(w: World, sid: string, c: Conn)
    requires Agreement(w)
    ensures (sid in w.bySID && w.bySID[sid] == c) <==> (sid != "" && c in w.conns && w.conns[c].sessionID == sid)
  {
  }
}
