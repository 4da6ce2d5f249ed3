/** The server as the program has it: connection states are objects shared by the two indices and
    updated in place. Every method is proved to compute the corresponding function of SessionModel. */
module SessionServer {
  import opened Wire
  import opened SessionModel
  import opened SessionInvariants

  class ConnState {
    var secureReady: bool
    var tunnelEnabled: bool
    var protoVersion: string
    var awaitAuthV2: bool
    var pendingTicket: Tag
    var sessionID: string
    var udpAddr: Option<Addr>
    var sessionKey: Key
    var lastSeen: int
    var conn: Conn

    constructor (conn: Conn, now: int)
      ensures View() == Fresh(now) && this.conn == conn
    {
      secureReady, tunnelEnabled, protoVersion, awaitAuthV2 := false, false, "", false;
      pendingTicket, sessionID, udpAddr, sessionKey := NoTag, "", None, NoKey;
      lastSeen := now;
      this.conn := conn;
    }

    function View(): State
      reads this
    {
      State(secureReady, tunnelEnabled, protoVersion, awaitAuthV2, pendingTicket, sessionID, udpAddr, sessionKey, lastSeen)
    }
  }

  /** The sockets and the tunnel device, with the outcome of each call given by the caller. */
  class Network {
    var closed: set<Conn>
    var ended: set<Conn>
    var log: seq<Output>

    constructor ()
      ensures closed == {} && ended == {} && log == []
    {
      closed, ended, log := {}, {}, [];
    }

    method WriteFrame(conn: Conn, frame: Frame, ok: bool) returns (written: bool)
      modifies `log
      ensures written == (ok && conn !in closed)
      ensures log == if written then old(log) + [ToTcp(conn, frame)] else old(log)
    {
      written := ok && conn !in closed;
      if written { log := log + [ToTcp(conn, frame)]; }
    }

    method Close(conn: Conn)
      modifies `closed
      ensures closed == old(closed) + {conn}
    {
      closed := closed + {conn};
    }

    method HangUp(conn: Conn)
      modifies `closed, `ended
      ensures closed == old(closed) + {conn} && ended == old(ended) + {conn}
    {
      closed := closed + {conn};
      ended := ended + {conn};
    }

    method Append(out: Output, ok: bool)
      modifies `log
      ensures log == if ok then old(log) + [out] else old(log)
    {
      if ok { log := log + [out]; }
    }
  }

  class Server {
    const cfg: Config
    const net: Network
    var conns: map<Conn, ConnState>
    var bySID: map<string, ConnState>
    var udpUp: bool

    /** Both indices hold the same objects: an object bound to a session id is the state of its connection. */
    ghost predicate Shape()
      reads this, conns.Values, bySID.Values
    {
      && (forall c | c in conns :: conns[c].conn == c)
      && (forall sid | sid in bySID :: sid != "" && bySID[sid].sessionID == sid && bySID[sid].conn in conns && conns[bySID[sid].conn] == bySID[sid])
    }

    ghost function View(): World
      reads this, net, conns.Values, bySID.Values
    {
      World(map c | c in conns :: conns[c].View(), map sid | sid in bySID :: bySID[sid].conn, net.closed, net.ended, udpUp, net.log)
    }

    ghost predicate Valid()
      reads this, net, conns.Values, bySID.Values
    {
      Shape() && Inv(View())
    }

    constructor (cfg: Config)
      ensures Valid() && this.cfg == cfg && fresh(net)
      ensures View() == Initial(false) && conns == map[] && bySID == map[] && !udpUp
      ensures net.closed == {} && net.ended == {} && net.log == []
    {
      this.cfg := cfg;
      net := new Network();
      conns, bySID, udpUp := map[], map[], false;
    }

    method SetUDPSrv()
      requires Valid()
      modifies `udpUp
      ensures Valid() && View() == old(View()).(udpUp := true)
    {
      udpUp := true;
    }

    // ---------- session table (server_sessions.go) ----------

    /** Changing one state object changes the view of its connection and nothing else. */
    twostate lemma OneStateChanged(state: ConnState)
      requires old(Shape())
      requires conns == old(conns) && bySID == old(bySID) && udpUp == old(udpUp) && unchanged(net)
      requires state.conn == old(state.conn) && state.conn in conns && conns[state.conn] == state
      requires forall c | c in conns && conns[c] != state :: unchanged(conns[c])
      ensures View() == Put(old(View()), state.conn, state.View())
      ensures state.sessionID == old(state.sessionID) || old(state.sessionID) == "" ==> Shape()
    {
      assert forall c | c in conns && c != state.conn :: conns[c] != state;
      assert View().conns == old(View()).conns[state.conn := state.View()];
      assert View().bySID == old(View()).bySID;
    }

    method GetConnState(conn: Conn, now: int) returns (state: ConnState)
      requires Shape()
      modifies `conns
      ensures Shape() && conn in conns && conns[conn] == state && state.conn == conn
      ensures View() == SessionModel.GetConnState(old(View()), conn, now)
      ensures conn in old(conns) ==> state == old(conns)[conn]
      ensures conn !in old(conns) ==> fresh(state)
      ensures conns == old(conns)[conn := state]
    {
      if conn in conns {
        return conns[conn];
      }
      state := new ConnState(conn, now);
      AddState(conn, state);
    }

    method AddState(conn: Conn, state: ConnState)
      requires Shape() && conn !in conns && state.conn == conn
      modifies `conns
      ensures Shape() && conns == old(conns)[conn := state]
      ensures View() == Put(old(View()), conn, state.View())
    {
      conns := conns[conn := state];
      assert View().conns == old(View()).conns[conn := state.View()];
    }

    method UnbindSessionID(sid: string)
      modifies `bySID
      ensures bySID == if sid == "" then old(bySID) else old(bySID) - {sid}
    {
      if sid == "" { return; }
      bySID := bySID - {sid};
    }

    method BindSessionID(sid: string, state: ConnState)
      requires Shape()
      requires state.conn in conns && conns[state.conn] == state && state.sessionID == sid
      modifies `bySID
      ensures Shape()
      ensures View() == SessionModel.BindSessionID(old(View()), sid, state.conn)
    {
      if sid == "" { return; }
      bySID := bySID[sid := state];
      assert View().bySID == old(View()).bySID[sid := state.conn];
    }

    method FindStateBySessionID(sid: string) returns (state: ConnState?)
      requires Shape()
      ensures state == null <==> sid !in bySID
      ensures state != null ==> state == bySID[sid]
    {
      if sid == "" || sid !in bySID { return null; }
      state := bySID[sid];
    }

    /** Dropping entries from the indices drops them from the view w they had. */
    lemma EntriesDropped(w: World, before: map<Conn, ConnState>, beforeSID: map<string, ConnState>, idle: set<Conn>, gone: set<string>)
      requires conns == before - idle && bySID == beforeSID - gone
      requires w.conns.Keys == before.Keys && forall c | c in before :: w.conns[c] == before[c].View()
      requires w.bySID.Keys == beforeSID.Keys && forall sid | sid in beforeSID :: w.bySID[sid] == beforeSID[sid].conn
      ensures View().conns == w.conns - idle
      ensures View().bySID == w.bySID - gone
    {
    }

    lemma RemovalDrops(w: World, conn: Conn, gone: set<string>)
      requires gone == if conn in w.conns && w.conns[conn].sessionID != "" then {w.conns[conn].sessionID} else {}
      ensures SessionModel.RemoveConnState(w, conn) == w.(conns := w.conns - {conn}, bySID := w.bySID - gone)
    {
      assert w.bySID - {} == w.bySID;
    }

    /** The indices keep sharing their objects when states are dropped together with their ids. */
    lemma DropKeepsShape(before: map<Conn, ConnState>, beforeSID: map<string, ConnState>, dropped: set<Conn>, gone: set<string>)
      requires conns == before - dropped && bySID == beforeSID - gone
      requires forall c | c in before :: before[c].conn == c
      requires forall sid | sid in beforeSID ::
                 var st := beforeSID[sid]; sid != "" && st.sessionID == sid && st.conn in before && before[st.conn] == st
      requires forall c | c in dropped && c in before && before[c].sessionID != "" :: before[c].sessionID in gone
      ensures Shape()
    {
    }

    method RemoveConnState(conn: Conn)
      requires Shape()
      modifies `conns, `bySID
      ensures Shape()
      ensures View() == SessionModel.RemoveConnState(old(View()), conn)
      ensures conns == old(conns) - {conn}
    {
      ghost var w, before, beforeSID := View(), conns, bySID;
      var st: ConnState? := if conn in conns then conns[conn] else null;
      conns := conns - {conn};
      if st != null && st.sessionID != "" {
        UnbindSessionID(st.sessionID);
      }
      ghost var gone := if st != null && st.sessionID != "" then {st.sessionID} else {};
      DropKeepsShape(before, beforeSID, {conn}, gone);
      EntriesDropped(w, before, beforeSID, {conn}, gone);
      RemovalDrops(w, conn, gone);
    }

    method FailConn(conn: Conn, message: string, ok: bool)
      requires Shape()
      modifies `conns, `bySID, net
      ensures Shape()
      ensures View() == SessionModel.FailConn(old(View()), conn, message, ok)
      ensures conns == old(conns) - {conn}
    {
      var _ := net.WriteFrame(conn, Error(message), ok);
      net.Close(conn);
      assert View() == SessionModel.Close(Write(old(View()), conn, Error(message), ok), conn);
      RemoveConnState(conn);
    }

    /** Write a frame on the connection and drop its state when that fails. */
    method WriteOrRemove(conn: Conn, frame: Frame, ok: bool)
      requires Shape()
      modifies `conns, `bySID, net
      ensures Shape()
      ensures View() == SessionModel.WriteOrRemove(old(View()), conn, frame, ok)
      ensures conns.Values <= old(conns.Values)
    {
      var written := SendOnConn(conn, frame, ok);
      if !written {
        RemoveConnState(conn);
      }
    }

    // ---------- TCP frames (server_secure.go) ----------

    method HandleTCPPayload(conn: Conn, p: Packet, env: Env)
      requires Valid() && conn !in net.ended
      modifies this, net, conns.Values
      ensures Valid() && fresh(conns.Values - old(conns.Values))
      ensures View() == HandleTcp(cfg, old(View()), conn, p, env)
    {
      TcpKeepsInv(cfg, View(), conn, p, env);
      if |p.bytes| == 0 {
        FailConn(conn, "empty frame", env.errorWriteOk);
        return;
      }
      if cfg.privateKey.NoPrivateKey? {
        EchoPlain(conn, p, env);
        return;
      }
      if |p.bytes| > cfg.maxPacketSize * 8 {
        FailConn(conn, "frame too large", env.errorWriteOk);
        return;
      }
      HandleKeyedPayload(conn, p.frame, env);
    }

    /** Without a private key the server answers in the clear and keeps no state. */
    method EchoPlain(conn: Conn, p: Packet, env: Env)
      requires Shape() && cfg.privateKey.NoPrivateKey? && |p.bytes| > 0
      modifies `conns, `bySID, net
      ensures Shape() && conns.Values <= old(conns.Values)
      ensures View() == HandleTcp(cfg, old(View()), conn, p, env)
    {
      if |p.bytes| > cfg.maxPacketSize {
        FailConn(conn, "frame too large", env.errorWriteOk);
        return;
      }
      net.Append(ToTcpPlain(conn, DecorateReply(cfg, p.bytes, env.pad)), env.writeOk && conn !in net.closed);
    }

    method HandleKeyedPayload(conn: Conn, frame: Frame, env: Env)
      requires Valid() && conn !in net.ended
      modifies this, net, conns.Values
      ensures Shape() && fresh(conns.Values - old(conns.Values))
      ensures View() == Dispatch(cfg, Entered(old(View()), conn, env.now), conn, frame, env)
    {
      var state := EnterState(conn, env.now);
      HandleFrame(conn, frame, state, env);
    }

    method EnterState(conn: Conn, now: int) returns (state: ConnState)
      requires Valid() && conn !in net.ended
      modifies this, conns.Values
      ensures Shape() && conn in conns && conns[conn] == state && (!state.secureReady ==> state.sessionID == "")
      ensures conns.Values <= old(conns.Values) + {state} && (state in old(conns.Values) || fresh(state))
      ensures View() == Entered(old(View()), conn, now)
    {
      UnreadyHasNoID(View(), conn, now);
      state := GetAndTouch(conn, now);
      assert state.View() == View().conns[conn];
    }

    method HandleFrame(conn: Conn, frame: Frame, state: ConnState, env: Env)
      requires Shape() && conn in conns && conns[conn] == state
      requires !state.secureReady ==> state.sessionID == ""
      modifies this, net, state
      ensures Shape() && conns.Values <= old(conns.Values)
      ensures View() == Dispatch(cfg, old(View()), conn, frame, env)
    {
      if !state.secureReady {
        HandlePreSecureFrame(conn, frame, state, env);
        return;
      }
      HandleDataFrame(conn, frame, state, env);
    }

    lemma UnreadyHasNoID(w: World, c: Conn, now: int)
      requires Inv(w) && c !in w.ended
      ensures var st := Entered(w, c, now).conns[c];
        !st.secureReady ==> st.sessionID == ""
    {
      assert c in w.conns ==> PhaseOk(w.conns[c]);
    }

    method GetAndTouch(conn: Conn, now: int) returns (state: ConnState)
      requires Shape()
      modifies this, conns.Values
      ensures Shape() && conn in conns && conns[conn] == state
      ensures conns == old(conns)[conn := state] && (conn in old(conns) ==> state == old(conns)[conn]) && (conn !in old(conns) ==> fresh(state))
      ensures View() == Entered(old(View()), conn, now)
    {
      state := GetConnState(conn, now);
      label got:
      state.lastSeen := now;
      OneStateChanged@got(state);
    }

    method HandlePreSecureFrame(conn: Conn, frame: Frame, state: ConnState, env: Env)
      requires Shape() && conn in conns && conns[conn] == state && !state.secureReady
      requires state.sessionID == ""
      modifies this, net, state
      ensures Shape() && conns.Values <= old(conns.Values)
      ensures View() == Dispatch(cfg, old(View()), conn, frame, env)
    {
      if state.awaitAuthV2 {
        HandleAuthV2Frame(conn, frame, state, env);
        return;
      }
      HandleHelloFrame(conn, frame, state, env);
    }

    method HandleHelloFrame(conn: Conn, frame: Frame, state: ConnState, env: Env)
      requires Shape() && conn in conns && conns[conn] == state
      modifies this, net, state
      ensures Shape() && conns.Values <= old(conns.Values)
      ensures View() == HandleHello(cfg, old(View()), conn, frame, env)
    {
      var hello := ParseHello(frame);
      if hello.None? {
        FailConn(conn, "invalid hello", env.errorWriteOk);
        return;
      }
      if !ValidateTimestamp(env.later / SECOND, hello.value.timestamp, cfg.skewSec) {
        FailConn(conn, "stale hello timestamp", env.errorWriteOk);
        return;
      }
      if !VerifyHelloAuth(cfg.psk, hello.value) {
        FailConn(conn, "hello auth failed", env.errorWriteOk);
        return;
      }
      var shared := SharedSecret(cfg.privateKey, hello.value.clientPublicKey);
      if shared.None? {
        FailConn(conn, "handshake failed", env.errorWriteOk);
        return;
      }
      if env.serverNonce.None? {
        FailConn(conn, "nonce failed", env.errorWriteOk);
        return;
      }
      AcceptHello(conn, hello.value, shared.value, env.serverNonce.value, state, env);
    }

    method AcceptHello(conn: Conn, hello: ParsedHello, shared: Shared, serverNonce: Nonce16, state: ConnState, env: Env)
      requires Shape() && conn in conns && conns[conn] == state
      modifies this, net, state
      ensures Shape() && conns.Values <= old(conns.Values)
      ensures var v := HelloAccepted(DeriveSessionKey(shared, hello.nonce, serverNonce), hello.protoVersion, serverNonce);
        View() == SessionModel.WriteOrRemove(Put(old(View()), conn, AfterHello(old(state.View()), v)), conn, HelloReply(v), env.writeOk)
    {
      var reply := RecordHello(conn, hello, shared, serverNonce, state);
      WriteOrRemove(conn, reply, env.writeOk);
    }

    method RecordHello(conn: Conn, hello: ParsedHello, shared: Shared, serverNonce: Nonce16, state: ConnState) returns (reply: Frame)
      requires Shape() && conn in conns && conns[conn] == state
      modifies state
      ensures Shape()
      ensures var v := HelloAccepted(DeriveSessionKey(shared, hello.nonce, serverNonce), hello.protoVersion, serverNonce);
        View() == Put(old(View()), conn, AfterHello(old(state.View()), v)) && reply == HelloReply(v)
    {
      state.sessionKey := DeriveSessionKey(shared, hello.nonce, serverNonce);
      state.conn := conn;
      state.protoVersion := hello.protoVersion;
      if hello.protoVersion == "v2" {
        reply := BuildChallenge(state.sessionKey, serverNonce);
        state.pendingTicket := reply.ticket;
        state.awaitAuthV2 := true;
      } else {
        state.secureReady := true;
        reply := BuildAck(state.sessionKey, serverNonce);
      }
      OneStateChanged(state);
    }

    method HandleAuthV2Frame(conn: Conn, frame: Frame, state: ConnState, env: Env)
      requires Shape() && conn in conns && conns[conn] == state
      requires state.sessionID == ""
      modifies this, net, state
      ensures Shape() && conns.Values <= old(conns.Values)
      ensures View() == HandleAuth(old(View()), conn, frame, env)
    {
      if frame.Garbage? {
        FailConn(conn, "invalid auth_v2", env.errorWriteOk);
        return;
      }
      if !frame.Auth? || frame.protoVersion != "v2" {
        FailConn(conn, "bad auth_v2 frame", env.errorWriteOk);
        return;
      }
      if !VerifyAuthProof(state.sessionKey, state.pendingTicket, frame.proof) {
        FailConn(conn, "auth_v2 proof mismatch", env.errorWriteOk);
        return;
      }
      AcceptAuth(conn, state, env);
    }

    method AcceptAuth(conn: Conn, state: ConnState, env: Env)
      requires Shape() && conn in conns && conns[conn] == state
      requires state.sessionID == ""
      modifies this, net, state
      ensures Shape() && conns.Values <= old(conns.Values)
      ensures var w := Put(old(View()), conn, AfterAuth(old(state.View()), env.newSessionID));
        View() == SessionModel.WriteOrRemove(SessionModel.BindSessionID(w, env.newSessionID, conn), conn, BuildReady(old(state.sessionKey), env.newSessionID), env.writeOk)
    {
      RecordAuth(state, env.newSessionID);
      BindSessionID(state.sessionID, state);
      WriteOrRemove(conn, BuildReady(state.sessionKey, state.sessionID), env.writeOk);
    }

    method RecordAuth(state: ConnState, sid: string)
      requires Shape() && state.conn in conns && conns[state.conn] == state
      requires state.sessionID == ""
      modifies state
      ensures Shape() && state.conn == old(state.conn) && state.sessionID == sid && state.sessionKey == old(state.sessionKey)
      ensures View() == Put(old(View()), state.conn, AfterAuth(old(state.View()), sid))
    {
      state.awaitAuthV2 := false;
      state.pendingTicket := NoTag;
      state.secureReady := true;
      state.sessionID := sid;
      OneStateChanged(state);
    }

    method HandleDataFrame(conn: Conn, frame: Frame, state: ConnState, env: Env)
      requires Shape() && conn in conns && conns[conn] == state && state.secureReady
      modifies this, net, state
      ensures Shape() && conns.Values <= old(conns.Values)
      ensures View() == Dispatch(cfg, old(View()), conn, frame, env)
    {
      if state.protoVersion == "v2" {
        HandleDataFrameV2(conn, frame, state, env);
        return;
      }
      HandleDataFrameV1(conn, frame, state, env);
    }

    method HandleDataFrameV1(conn: Conn, frame: Frame, state: ConnState, env: Env)
      requires Shape() && conn in conns && conns[conn] == state
      modifies this, net, state
      ensures Shape() && conns.Values <= old(conns.Values)
      ensures View() == ActOnData(old(View()), conn, JudgeDataV1(cfg, old(state.sessionKey), frame, env), env)
    {
      if !frame.Data? {
        FailConn(conn, "bad secure frame", env.errorWriteOk);
        return;
      }
      var plain := Decrypt(state.sessionKey, frame.ciphertext);
      if plain.None? {
        FailConn(conn, "decrypt failed", env.errorWriteOk);
        return;
      }
      if |plain.value| > cfg.maxPacketSize {
        FailConn(conn, "payload too large", env.errorWriteOk);
        return;
      }
      if cfg.tunnel && IsIPPacket(plain.value) {
        DeliverToTunnel(conn, plain.value, state, env);
        return;
      }
      var reply := DecorateReply(cfg, plain.value, env.pad);
      WriteOrRemove(conn, SealV1(state.sessionKey, reply), env.sealOk && env.writeOk);
    }

    method HandleDataFrameV2(conn: Conn, frame: Frame, state: ConnState, env: Env)
      requires Shape() && conn in conns && conns[conn] == state
      modifies this, net, state
      ensures Shape() && conns.Values <= old(conns.Values)
      ensures View() == ActOnData(old(View()), conn, JudgeDataV2(cfg, old(state.sessionKey), frame, env), env)
    {
      var plain := ParseDataFrameV2(state.sessionKey, frame);
      if plain.None? {
        FailConn(conn, "bad v2 data frame", env.errorWriteOk);
        return;
      }
      if |plain.value| > cfg.maxPacketSize {
        FailConn(conn, "payload too large", env.errorWriteOk);
        return;
      }
      if cfg.tunnel && frame.channel == 1 && IsIPPacket(plain.value) {
        DeliverToTunnel(conn, plain.value, state, env);
        return;
      }
      var reply := DecorateReply(cfg, plain.value, env.pad);
      var mode := SelectObfsMode(Next(frame.sequence), |reply|);
      WriteOrRemove(conn, BuildDataFrameV2(state.sessionKey, frame.channel, Next(frame.sequence), mode, reply), env.sealOk && env.writeOk);
    }

    method WriteToTunnel(packet: seq<Byte>, state: ConnState, ok: bool)
      requires Shape() && state.conn in conns && conns[state.conn] == state
      modifies net`log, state
      ensures Shape() && state.conn == old(state.conn)
      ensures View() == ToTunnelDevice(old(View()), state.conn, packet, ok)
    {
      MarkTunnel(state);
      SendToTunnel(packet, ok);
    }

    method MarkTunnel(state: ConnState)
      requires Shape() && state.conn in conns && conns[state.conn] == state
      modifies state
      ensures Shape() && state.conn == old(state.conn)
      ensures View() == Put(old(View()), state.conn, old(state.View()).(tunnelEnabled := true))
    {
      state.tunnelEnabled := true;
      OneStateChanged(state);
    }

    method SendToTunnel(packet: seq<Byte>, ok: bool)
      requires Shape()
      modifies net`log
      ensures Shape() && View() == if ok then Emit(old(View()), ToTunnel(packet)) else old(View())
    {
      net.Append(ToTunnel(packet), ok);
    }

    method DeliverToTunnel(conn: Conn, packet: seq<Byte>, state: ConnState, env: Env)
      requires Shape() && conn in conns && conns[conn] == state
      modifies this, net, state
      ensures Shape() && conns.Values <= old(conns.Values)
      ensures View() == ActOnData(old(View()), conn, ForTunnel(packet), env)
    {
      WriteToTunnel(packet, state, env.tunnelOk);
      if !env.tunnelOk {
        FailConn(conn, "tunnel write failed", env.errorWriteOk);
      }
    }

    // ---------- UDP datagrams (server_udp_secure.go) ----------

    method HandleUDPPayload(addr: Addr, p: Packet, env: Env)
      requires Valid()
      modifies net, conns.Values
      ensures Valid() && conns == old(conns)
      ensures View() == HandleUdp(cfg, old(View()), addr, p, env)
    {
      UdpKeepsInv(cfg, View(), addr, p, env);
      ServeDatagram(addr, p, env);
    }

    method ServeDatagram(addr: Addr, p: Packet, env: Env)
      requires Shape()
      modifies net, conns.Values
      ensures Shape()
      ensures View() == HandleUdp(cfg, old(View()), addr, p, env)
    {
      if |p.bytes| == 0 || !udpUp { return; }
      if cfg.privateKey.NoPrivateKey? {
        if |p.bytes| <= cfg.maxPacketSize {
          net.Append(ToUdpPlain(addr, DecorateReply(cfg, p.bytes, env.pad)), env.udpWriteOk);
        }
        return;
      }
      var state := OwnerOf(p);
      if state == null { return; }
      HandleDatagramOf(state, addr, p.frame, env);
    }

    /** The secure v2 state a datagram belongs to, or null when it is ignored. */
    method OwnerOf(p: Packet) returns (state: ConnState?)
      requires Shape() && |p.bytes| > 0 && udpUp && !cfg.privateKey.NoPrivateKey?
      ensures state == null ==> DatagramOwner(cfg, View(), p).None?
      ensures state != null ==> state.conn in conns && conns[state.conn] == state && DatagramOwner(cfg, View(), p) == Some(state.conn)
    {
      if |p.bytes| > cfg.maxPacketSize * 8 { return null; }
      var sid := ParseDatagramSessionID(p.frame);
      if sid.None? { return null; }
      state := FindStateBySessionID(sid.value);
      if state == null || !state.secureReady || state.protoVersion != "v2" { return null; }
    }

    method HandleDatagramOf(state: ConnState, addr: Addr, frame: Frame, env: Env)
      requires Shape() && state.conn in conns && conns[state.conn] == state
      modifies net, state
      ensures Shape()
      ensures View() == HandleDatagram(cfg, old(View()), old(state.conn), addr, frame, env)
    {
      RecordDatagram(state, addr, env.now);
      assert state.View() == View().conns[state.conn];
      AnswerDatagram(state, addr, frame, env);
    }

    method AnswerDatagram(state: ConnState, addr: Addr, frame: Frame, env: Env)
      requires Shape() && state.conn in conns && conns[state.conn] == state
      modifies net, state
      ensures Shape()
      ensures View() == ActOnDatagram(old(View()), old(state.conn), addr, JudgeDatagram(cfg, old(state.View()), frame, env), env)
    {
      var plain := ParseDatagramFrameV2(state.sessionKey, frame);
      if plain.None? || |plain.value| > cfg.maxPacketSize { return; }
      if frame.mode == "bind" {
        var reply := BuildDatagramFrameV2(state.sessionKey, state.sessionID, 2, Next(frame.sequence), "obfs-plane", Ascii("udp-bound"));
        SendUdp(addr, reply, env.sealOk && env.udpWriteOk);
        return;
      }
      if cfg.tunnel && frame.channel == 1 && IsIPPacket(plain.value) {
        WriteToTunnel(plain.value, state, env.tunnelOk);
        return;
      }
      var reply := DecorateReply(cfg, plain.value, env.pad);
      var mode := SelectObfsMode(Next(frame.sequence), |reply|);
      var resp := BuildDatagramFrameV2(state.sessionKey, state.sessionID, frame.channel, Next(frame.sequence), mode, reply);
      SendUdp(addr, resp, env.sealOk && env.udpWriteOk);
    }

    method RecordDatagram(state: ConnState, addr: Addr, now: int)
      requires Shape() && state.conn in conns && conns[state.conn] == state
      modifies state
      ensures Shape() && state.conn == old(state.conn)
      ensures View() == Put(old(View()), state.conn, old(state.View()).(lastSeen := now, udpAddr := Some(addr)))
    {
      state.lastSeen := now;
      state.udpAddr := Some(addr);
      OneStateChanged(state);
    }

    // ---------- the idle sweep ----------

    method DropIdleConnStates(now: int)
      requires Valid()
      modifies this, net
      ensures Valid() && conns.Values <= old(conns.Values)
      ensures View() == DropIdle(cfg, old(View()), now)
    {
      SweepKeepsInv(cfg, View(), now);
      if cfg.idleSec <= 0 { return; }
      SweepShared(now);
    }

    /** A sweep keeps the indices sharing their objects. */
    method SweepShared(now: int)
      requires Shape() && cfg.idleSec > 0
      modifies this, net
      ensures Shape() && conns.Values <= old(conns.Values)
      ensures View() == DropIdle(cfg, old(View()), now)
    {
      ghost var w, before, beforeSID := View(), conns, bySID;
      ghost var idle := IdleConns(cfg, w, now);
      IdleIDsAreGone(w, before, idle);
      Sweep(now);
      DropKeepsShape(before, beforeSID, idle, SessionIDs(w, idle));
    }

    method Sweep(now: int)
      requires Shape() && cfg.idleSec > 0
      modifies this, net
      ensures View() == DropIdle(cfg, old(View()), now)
      ensures conns == old(conns) - IdleConns(cfg, old(View()), now)
      ensures bySID == old(bySID) - SessionIDs(old(View()), IdleConns(cfg, old(View()), now))
    {
      ghost var w, before, beforeSID := View(), conns, bySID;
      var toClose := RemoveIdle(now);
      CloseAll(toClose);
      EntriesDropped(w, before, beforeSID, IdleConns(cfg, w, now), SessionIDs(w, IdleConns(cfg, w, now)));
    }

    lemma IdleIDsAreGone(w: World, before: map<Conn, ConnState>, idle: set<Conn>)
      requires w.conns.Keys == before.Keys && forall c | c in before :: w.conns[c] == before[c].View()
      ensures forall c | c in idle && c in before && before[c].sessionID != "" :: before[c].sessionID in SessionIDs(w, idle)
    {
      forall c | c in idle && c in before && before[c].sessionID != "" ensures before[c].sessionID in SessionIDs(w, idle) {
        assert w.conns[c].sessionID == before[c].sessionID;
      }
    }

    /** The sweep's first two loops: what is left to do is to close the connections. */
    method RemoveIdle(now: int) returns (toClose: seq<Conn>)
      requires Shape()
      modifies `conns, `bySID
      ensures (set c | c in toClose) == IdleConns(cfg, old(View()), now)
      ensures conns == old(conns) - IdleConns(cfg, old(View()), now)
      ensures bySID == old(bySID) - SessionIDs(old(View()), IdleConns(cfg, old(View()), now))
    {
      var sids;
      toClose, sids := CollectIdle(now);
      UnbindAll(sids);
    }

    method UnbindAll(sids: seq<string>)
      requires "" !in sids
      modifies `bySID
      ensures bySID == old(bySID) - (set sid | sid in sids)
    {
      for i := 0 to |sids|
        invariant bySID == old(bySID) - (set sid | sid in sids[..i])
      {
        UnbindSessionID(sids[i]);
        assert sids[..i + 1] == sids[..i] + [sids[i]];
      }
      assert sids[..|sids|] == sids;
    }

    method CloseAll(toClose: seq<Conn>)
      modifies net`closed
      ensures net.closed == old(net.closed) + (set c | c in toClose)
    {
      for i := 0 to |toClose|
        invariant net.closed == old(net.closed) + (set c | c in toClose[..i])
      {
        net.Close(toClose[i]);
        assert toClose[..i + 1] == toClose[..i] + [toClose[i]];
      }
      assert toClose[..|toClose|] == toClose;
    }

    method CollectIdle(now: int) returns (toClose: seq<Conn>, sids: seq<string>)
      requires Shape()
      modifies `conns
      ensures (set c | c in toClose) == IdleConns(cfg, old(View()), now)
      ensures (set sid | sid in sids) == SessionIDs(old(View()), IdleConns(cfg, old(View()), now)) && "" !in sids
      ensures conns == old(conns) - (set c | c in toClose)
    {
      ghost var w := View();
      toClose, sids := TakeIdle(now - cfg.idleSec * SECOND);
      ghost var idle := IdleConns(cfg, w, now);
      assert forall c | c in w.conns :: w.conns[c].sessionID == old(conns)[c].sessionID && w.conns[c].lastSeen == old(conns)[c].lastSeen;
      assert forall sid | sid in sids :: sid in SessionIDs(w, idle);
    }

    /** Take every idle state out of the connection index, remembering what to close and to unbind. */
    method TakeIdle(cutoff: int) returns (toClose: seq<Conn>, sids: seq<string>)
      requires Shape()
      modifies `conns
      ensures conns == old(conns) - (set c | c in toClose)
      ensures forall c | c in old(conns) :: c in toClose <==> old(conns)[c].lastSeen < cutoff
      ensures forall c | c in toClose :: c in old(conns)
      ensures forall sid | sid in sids :: sid != "" && exists c | c in toClose :: old(conns)[c].sessionID == sid
      ensures forall c | c in toClose && old(conns)[c].sessionID != "" :: old(conns)[c].sessionID in sids
    {
      toClose, sids := [], [];
      var pending := conns.Keys;
      while pending != {}
        invariant pending <= old(conns).Keys
        invariant conns == old(conns) - (set c | c in toClose)
        invariant forall c | c in toClose :: c in old(conns) && c !in pending
        invariant forall c | c in old(conns) && c !in pending :: c in toClose <==> old(conns)[c].lastSeen < cutoff
        invariant forall sid | sid in sids :: sid != "" && exists c | c in toClose :: old(conns)[c].sessionID == sid
        invariant forall c | c in toClose && old(conns)[c].sessionID != "" :: old(conns)[c].sessionID in sids
        decreases |pending|
      {
        var c :| c in pending;
        var st := conns[c];
        if st.lastSeen < cutoff {
          toClose := toClose + [c];
          if st.sessionID != "" {
            sids := sids + [st.sessionID];
          }
          conns := conns - {c};
        }
        pending := pending - {c};
      }
    }

    // ---------- packets from the tunnel device (tunnel_types.go) ----------

    /** Some ready state that carries a tunnel, or null when there is none. */
    method FindSecureConnState() returns (state: ConnState?)
      requires Shape()
      ensures state == null <==> forall c | c in conns :: !CarriesTunnel(conns[c].View())
      ensures state != null ==> state.conn in conns && conns[state.conn] == state && CarriesTunnel(state.View())
    {
      var pending := conns.Keys;
      while pending != {}
        invariant pending <= conns.Keys
        invariant forall c | c in conns && c !in pending :: !CarriesTunnel(conns[c].View())
        decreases |pending|
      {
        var c :| c in pending;
        if conns[c].secureReady && conns[c].tunnelEnabled {
          return conns[c];
        }
        pending := pending - {c};
      }
      return null;
    }

    /** One round of the relay loop, after a packet was read. */
    method RelayPacket(packet: seq<Byte>, env: Env) returns (ghost chosen: Option<Conn>)
      requires Valid()
      modifies net`log
      ensures Valid()
      ensures chosen.None? ==> View() == old(View()) && (packet == [] || forall c | c in old(View()).conns :: !CarriesTunnel(old(View()).conns[c]))
      ensures chosen.Some? ==> packet != [] && chosen.value in old(View()).conns && CarriesTunnel(old(View()).conns[chosen.value])
      ensures chosen.Some? ==> View() == Relay(old(View()), chosen.value, packet, env)
    {
      chosen := None;
      if |packet| == 0 { return; }
      var state := FindSecureConnState();
      if state == null { return; }
      chosen := Some(state.conn);
      RelayTo(state, packet, env);
    }

    method RelayTo(state: ConnState, packet: seq<Byte>, env: Env)
      requires Shape() && state.conn in conns && conns[state.conn] == state
      modifies net`log
      ensures Shape()
      ensures View() == Relay(old(View()), state.conn, packet, env)
    {
      if state.protoVersion == "v2" {
        if state.udpAddr.Some? && udpUp && state.sessionID != "" && env.sealOk && env.udpWriteOk {
          var mode := SelectObfsMode(Low32(env.now), |packet|);
          SendUdp(state.udpAddr.value, BuildDatagramFrameV2(state.sessionKey, state.sessionID, 1, Low32(env.later), mode, packet), true);
        } else {
          var _ := SendOnConn(state.conn, BuildDataFrameV2(state.sessionKey, 1, Low32(env.later), "obfs-plane", packet), env.fallbackSealOk && env.writeOk);
        }
      } else {
        var _ := SendOnConn(state.conn, SealV1(state.sessionKey, packet), env.fallbackSealOk && env.writeOk);
      }
    }

    method SendUdp(addr: Addr, frame: Frame, ok: bool)
      requires Shape()
      modifies net`log
      ensures Shape() && View() == if ok then Emit(old(View()), ToUdp(addr, frame)) else old(View())
    {
      net.Append(ToUdp(addr, frame), ok);
    }

    method SendOnConn(conn: Conn, frame: Frame, ok: bool) returns (written: bool)
      requires Shape()
      modifies net`log
      ensures Shape() && View() == Write(old(View()), conn, frame, ok) && written == Writable(old(View()), conn, ok)
    {
      written := net.WriteFrame(conn, frame, ok);
    }

    // ---------- the read loop's end, and whole runs ----------

    /** The peer hangs up or the framing breaks: the read loop returns and its deferred close runs. */
    method EndReadLoop(conn: Conn)
      requires Valid()
      modifies net
      ensures Valid()
      ensures View() == Step(cfg, old(View()), Hangup(conn))
    {
      StepKeepsInv(cfg, View(), Hangup(conn));
      HangUp(conn);
    }

    method HangUp(conn: Conn)
      requires Shape()
      modifies net`closed, net`ended
      ensures Shape() && View() == Step(cfg, old(View()), Hangup(conn))
    {
      net.HangUp(conn);
    }

    method ServeEvent(e: Event)
      requires Valid() && Enabled(View(), e)
      modifies this, net, conns.Values
      ensures Valid() && fresh(conns.Values - old(conns.Values))
      ensures View() == Step(cfg, old(View()), e)
    {
      match e
      case TcpFrame(c, p, env) => HandleTCPPayload(c, p, env);
      case UdpDatagram(addr, p, env) => HandleUDPPayload(addr, p, env);
      case TunnelPacket(c, bytes, env) =>
        StepKeepsInv(cfg, View(), e);
        RelayTo(conns[c], bytes, env);
      case Sweep(now) => DropIdleConnStates(now);
      case Hangup(c) => EndReadLoop(c);
    }

    /** The objects of the server follow the machine through any run of events. */
    method ServeEvents(es: seq<Event>)
      requires Valid() && Runs(cfg, View(), es)
      modifies this, net, conns.Values
      ensures Valid() && fresh(conns.Values - old(conns.Values))
      ensures View() == Run(cfg, old(View()), es)
    {
      ghost var w := View();
      var i := 0;
      while i < |es|
        invariant 0 <= i <= |es|
        invariant Valid() && fresh(conns.Values - old(conns.Values))
        invariant Runs(cfg, View(), es[i..])
        invariant Run(cfg, View(), es[i..]) == Run(cfg, w, es)
      {
        assert es[i..][0] == es[i] && es[i..][1..] == es[i + 1..];
        ServeEvent(es[i]);
        i := i + 1;
      }
    }
  }
}
