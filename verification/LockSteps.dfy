/** The session table at lock granularity: one goroutine per connection, the sweep, and the UDP handler,
    interleaved between the sections that hold connMu or sidMu and between single assignments.

    A state is an object in a heap, named by a reference; the indices hold references. */
module LockSteps {
  import opened Wire
  import opened SessionModel

  type Ref = nat

  /** Where the handler of a connection stands. */
  datatype Pc =
    | Reading
    | Got(r: Ref)
    | Touched(r: Ref)
    | InHello(r: Ref, v: HelloVerdict, done: nat)
    | InAuth(r: Ref, sid: string, done: nat)
    | MarkingTunnel(r: Ref, delivered: bool)
    | Writing
    | Failing
    | Detaching
    | Unbinding(st: Option<Ref>)

  datatype SweepPc = SweepIdle | Sweeping(sids: set<string>, toClose: set<Conn>)

  datatype UdpPc = UdpIdle | UdpFound(r: Ref)

  datatype Table = Table(
    heap: map<Ref, State>,
    owner: map<Ref, Conn>,
    conns: map<Conn, Ref>,
    bySID: map<string, Ref>,
    closed: set<Conn>,
    pcs: map<Conn, Pc>,
    sweep: SweepPc,
    udp: UdpPc)

  function PcOf(t: Table, c: Conn): Pc {
    if c in t.pcs then t.pcs[c] else Reading
  }

  function Goto(t: Table, c: Conn, pc: Pc): Table {
    t.(pcs := t.pcs[c := pc])
  }

  // ---------- the handler of one connection ----------

  const HELLO_V2_ASSIGNMENTS := 4
  const HELLO_V1_ASSIGNMENTS := 3

  function HelloAssignments(v: HelloVerdict): nat {
    if v.HelloAccepted? && v.protoVersion == "v2" then HELLO_V2_ASSIGNMENTS else HELLO_V1_ASSIGNMENTS
  }

  /** The assignment number `done` of an accepted hello. */
  function HelloAssign(st: State, v: HelloVerdict, done: nat): State
    requires v.HelloAccepted?
  {
    if done == 0 then st.(sessionKey := v.key)
    else if done == 1 then st.(protoVersion := v.protoVersion)
    else if v.protoVersion == "v2" then
      if done == 2 then st.(pendingTicket := BuildChallenge(v.key, v.serverNonce).ticket) else st.(awaitAuthV2 := true)
    else
      st.(secureReady := true)
  }

  /** The assignments of an accepted proof; binding the id comes after them. */
  const AUTH_ASSIGNMENTS := 4

  function AuthAssign(st: State, sid: string, done: nat): State {
    if done == 0 then st.(awaitAuthV2 := false)
    else if done == 1 then st.(pendingTicket := NoTag)
    else if done == 2 then st.(secureReady := true)
    else st.(sessionID := sid)
  }

  datatype Step =
    | Enter(c: Conn, r: Ref, now: int)
    | Touch(c: Conn, now: int)
    | Decide(c: Conn, frame: Frame, env: Env)
    | Assign(c: Conn)
    | Bind(c: Conn)
    | Reject(c: Conn)
    | FinishWrite(c: Conn, ok: bool)
    | CloseFailed(c: Conn)
    | Detach(c: Conn)
    | Unbind(c: Conn)
    | Sweep(now: int)
    | SweepUnbind(sid: string)
    | SweepClose(c: Conn)
    | SweepDone
    | Hangup(c: Conn)
    | UdpLookup(sid: string)
    | UdpTouch(addr: Addr, now: int)
    | UdpMarkTunnel
    | UdpDone

  predicate Enabled(t: Table, s: Step) {
    match s
    case Enter(c, r, _) => PcOf(t, c).Reading? && r !in t.heap
    case Touch(c, _) => PcOf(t, c).Got?
    case Decide(c, _, _) => PcOf(t, c).Touched? && PcOf(t, c).r in t.heap
    case Assign(c) =>
      var pc := PcOf(t, c);
      && (pc.InHello? || pc.InAuth? || pc.MarkingTunnel?) && pc.r in t.heap
      && (pc.InHello? ==> pc.v.HelloAccepted? && pc.done < HelloAssignments(pc.v))
      && (pc.InAuth? ==> pc.done < AUTH_ASSIGNMENTS)
    case Bind(c) => PcOf(t, c).InAuth? && PcOf(t, c).done == AUTH_ASSIGNMENTS
    case Reject(c) => PcOf(t, c).Reading?
    case FinishWrite(c, _) => PcOf(t, c).Writing?
    case CloseFailed(c) => PcOf(t, c).Failing?
    case Detach(c) => PcOf(t, c).Detaching?
    case Unbind(c) => PcOf(t, c).Unbinding?
    case Sweep(_) => t.sweep.SweepIdle? && forall c | c in t.conns :: t.conns[c] in t.heap
    case SweepUnbind(sid) => t.sweep.Sweeping? && sid in t.sweep.sids
    case SweepClose(c) => t.sweep.Sweeping? && t.sweep.sids == {} && c in t.sweep.toClose
    case SweepDone => t.sweep.Sweeping? && t.sweep.sids == {} && t.sweep.toClose == {}
    case Hangup(_) => true
    case UdpLookup(sid) => t.udp.UdpIdle? && sid in t.bySID
    case UdpTouch(_, _) => t.udp.UdpFound? && t.udp.r in t.heap && t.heap[t.udp.r].secureReady && t.heap[t.udp.r].protoVersion == "v2"
    case UdpMarkTunnel => t.udp.UdpFound? && t.udp.r in t.heap && t.heap[t.udp.r].secureReady && t.heap[t.udp.r].protoVersion == "v2"
    case UdpDone => t.udp.UdpFound?
  }

  function Update(t: Table, r: Ref, st: State): Table {
    t.(heap := t.heap[r := st])
  }

  /** What the handler does with a frame, given the state object as it is now. */
  function Decision(cfg: Config, st: State, r: Ref, frame: Frame, env: Env): Pc {
    if st.secureReady then
      var v := JudgeData(cfg, st, frame, env);
      if v.DataRefused? then Failing else if v.ForTunnel? then MarkingTunnel(r, env.tunnelOk) else Writing
    else if st.awaitAuthV2 then
      if JudgeAuth(st, frame).Some? then Failing else InAuth(r, env.newSessionID, 0)
    else
      var v := JudgeHello(cfg, frame, env);
      if v.HelloRejected? then Failing else InHello(r, v, 0)
  }

  function SweptRefs(cfg: Config, t: Table, now: int): set<Conn>
    requires forall c | c in t.conns :: t.conns[c] in t.heap
  {
    set c | c in t.conns && Idle(cfg, t.heap[t.conns[c]], now)
  }

  function SweptIDs(cfg: Config, t: Table, now: int): set<string>
    requires forall c | c in t.conns :: t.conns[c] in t.heap
  {
    set c | c in SweptRefs(cfg, t, now) && t.heap[t.conns[c]].sessionID != "" :: t.heap[t.conns[c]].sessionID
  }

  function Apply(cfg: Config, t: Table, s: Step): Table
    requires Enabled(t, s)
  {
    match s
    case Enter(c, r, now) =>
      if c in t.conns then Goto(t, c, Got(t.conns[c]))
      else Goto(t.(heap := t.heap[r := Fresh(now)], owner := t.owner[r := c], conns := t.conns[c := r]), c, Got(r))
    case Touch(c, now) =>
      var r := PcOf(t, c).r;
      Goto(if r in t.heap then Update(t, r, t.heap[r].(lastSeen := now)) else t, c, Touched(r))
    case Decide(c, frame, env) => Goto(t, c, Decision(cfg, t.heap[PcOf(t, c).r], PcOf(t, c).r, frame, env))
    case Assign(c) => ApplyAssign(t, c)
    case Bind(c) =>
      var pc := PcOf(t, c);
      Goto(if pc.sid == "" then t else t.(bySID := t.bySID[pc.sid := pc.r]), c, Writing)
    case Reject(c) => Goto(t, c, Failing)
    case FinishWrite(c, ok) => Goto(t, c, if ok && c !in t.closed then Reading else Detaching)
    case CloseFailed(c) => Goto(t.(closed := t.closed + {c}), c, Detaching)
    case Detach(c) => Goto(t.(conns := t.conns - {c}), c, Unbinding(if c in t.conns then Some(t.conns[c]) else None))
    case Unbind(c) =>
      var st := PcOf(t, c).st;
      Goto(if st.Some? && st.value in t.heap then t.(bySID := t.bySID - {t.heap[st.value].sessionID}) else t, c, Reading)
    case Sweep(now) =>
      if cfg.idleSec <= 0 then t
      else
        var swept := SweptRefs(cfg, t, now);
        t.(conns := t.conns - swept, sweep := Sweeping(SweptIDs(cfg, t, now), swept))
    case SweepUnbind(sid) => t.(bySID := t.bySID - {sid}, sweep := t.sweep.(sids := t.sweep.sids - {sid}))
    case SweepClose(c) => t.(closed := t.closed + {c}, sweep := t.sweep.(toClose := t.sweep.toClose - {c}))
    case SweepDone => t.(sweep := SweepIdle)
    case Hangup(c) => t.(closed := t.closed + {c})
    case UdpLookup(sid) => t.(udp := UdpFound(t.bySID[sid]))
    case UdpTouch(addr, now) => Update(t, t.udp.r, t.heap[t.udp.r].(lastSeen := now, udpAddr := Some(addr)))
    case UdpMarkTunnel => Update(t, t.udp.r, t.heap[t.udp.r].(tunnelEnabled := true))
    case UdpDone => t.(udp := UdpIdle)
  }

  function ApplyAssign(t: Table, c: Conn): Table
    requires Enabled(t, Assign(c))
  {
    var pc := PcOf(t, c);
    var st := t.heap[pc.r];
    match pc
    case InHello(r, v, done) =>
      Goto(Update(t, r, HelloAssign(st, v, done)), c, if done + 1 == HelloAssignments(v) then Writing else InHello(r, v, done + 1))
    case InAuth(r, sid, done) =>
      Goto(Update(t, r, AuthAssign(st, sid, done)), c, InAuth(r, sid, done + 1))
    case MarkingTunnel(r, delivered) =>
      Goto(Update(t, r, st.(tunnelEnabled := true)), c, if delivered then Reading else Failing)
  }

  function Start(): Table {
    Table(map[], map[], map[], map[], {}, map[], SweepIdle, UdpIdle)
  }

  predicate Runs(cfg: Config, t: Table, ss: seq<Step>)
    decreases |ss|
  {
    |ss| == 0 || (Enabled(t, ss[0]) && Runs(cfg, Apply(cfg, t, ss[0]), ss[1..]))
  }

  function Run(cfg: Config, t: Table, ss: seq<Step>): Table
    requires Runs(cfg, t, ss)
    decreases |ss|
  {
    if |ss| == 0 then t else Run(cfg, Apply(cfg, t, ss[0]), ss[1..])
  }

  // ---------- the invariant that needs no assumption ----------

  ghost predicate Owned(t: Table, r: Ref, c: Conn) {
    r in t.heap && r in t.owner && t.owner[r] == c
  }

  /** What an assignment-by-assignment handler knows of the object it holds. */
  ghost predicate HandlerOk(t: Table, c: Conn) {
    match PcOf(t, c)
    case Got(r) => Owned(t, r, c) && Settled(t.heap[r])
    case Touched(r) => Owned(t, r, c) && Settled(t.heap[r])
    case InHello(r, v, done) =>
      && Owned(t, r, c) && v.HelloAccepted? && done < HelloAssignments(v)
      && !t.heap[r].secureReady && !t.heap[r].awaitAuthV2 && t.heap[r].sessionID == ""
      && (done >= 2 ==> t.heap[r].protoVersion == v.protoVersion)
    case InAuth(r, sid, done) =>
      && Owned(t, r, c) && done <= AUTH_ASSIGNMENTS && t.heap[r].protoVersion == "v2"
      && t.heap[r].awaitAuthV2 == (done == 0) && t.heap[r].secureReady == (done >= 3)
      && t.heap[r].sessionID == (if done == 4 then sid else "")
    case MarkingTunnel(r, _) => Owned(t, r, c) && Settled(t.heap[r])
    case Unbinding(st) => st.Some? ==> Owned(t, st.value, c)
    case _ => true
  }

  /** A state object no handler is in the middle of changing. */
  ghost predicate Settled(st: State) {
    && !(st.secureReady && st.awaitAuthV2)
    && (st.awaitAuthV2 ==> st.protoVersion == "v2")
    && (st.sessionID != "" ==> st.secureReady && st.protoVersion == "v2" && !st.awaitAuthV2)
  }

  /** The handler of c is between the first and the last assignment to object r. */
  predicate Changing(t: Table, c: Conn, r: Ref) {
    var pc := PcOf(t, c);
    (pc.InHello? || pc.InAuth?) && pc.r == r
  }

  ghost predicate Inv(t: Table) {
    && t.owner.Keys == t.heap.Keys
    && (forall c | c in t.conns :: t.conns[c] in t.heap && t.owner[t.conns[c]] == c)
    && (forall c | c in t.pcs :: HandlerOk(t, c))
    && (forall r | r in t.heap :: Settled(t.heap[r]) || Changing(t, t.owner[r], r))
    && BoundIsSecure(t)
  }

  /** Every object bound to a session id carries that id and is a ready v2 session. */
  ghost predicate BoundIsSecure(t: Table) {
    forall sid | sid in t.bySID ::
      var r := t.bySID[sid];
      && sid != "" && r in t.heap
      && t.heap[r].sessionID == sid && t.heap[r].secureReady && t.heap[r].protoVersion == "v2" && !t.heap[r].awaitAuthV2
  }

  /** The handler of c may change an object it owns and move on, if what it leaves behind is in order. */
  lemma OwnChangeKeepsInv(t: Table, c: Conn, r: Ref, st: State, pc: Pc)
    requires Inv(t) && Owned(t, r, c)
    requires HandlerOk(Goto(Update(t, r, st), c, pc), c)
    requires Settled(st) || ((pc.InHello? || pc.InAuth?) && pc.r == r)
    requires PcOf(t, c).InHello? || PcOf(t, c).InAuth? ==> PcOf(t, c).r == r
    requires forall sid | sid in t.bySID && t.bySID[sid] == r ::
               st.sessionID == sid && st.secureReady && st.protoVersion == "v2" && !st.awaitAuthV2
    ensures Inv(Goto(Update(t, r, st), c, pc))
  {
    var t' := Goto(Update(t, r, st), c, pc);
    forall d | d in t'.pcs ensures HandlerOk(t', d) {
      if d != c { assert HandlerOk(t, d) && PcOf(t', d) == PcOf(t, d); }
    }
    forall q | q in t'.heap ensures Settled(t'.heap[q]) || Changing(t', t'.owner[q], q) {
      assert t.owner[q] != c ==> Changing(t', t.owner[q], q) == Changing(t, t.owner[q], q);
      assert q != r && t.owner[q] == c ==> !Changing(t, c, q);
    }
  }

  lemma HelloAssignKeepsInv(t: Table, c: Conn)
    requires Inv(t) && Enabled(t, Assign(c)) && PcOf(t, c).InHello?
    ensures Inv(ApplyAssign(t, c))
  {
    var pc := PcOf(t, c);
    assert c in t.pcs && HandlerOk(t, c);
    var st := HelloAssign(t.heap[pc.r], pc.v, pc.done);
    var next := if pc.done + 1 == HelloAssignments(pc.v) then Writing else InHello(pc.r, pc.v, pc.done + 1);
    assert ApplyAssign(t, c) == Goto(Update(t, pc.r, st), c, next);
    OwnChangeKeepsInv(t, c, pc.r, st, next);
  }

  lemma AuthAssignKeepsInv(t: Table, c: Conn)
    requires Inv(t) && Enabled(t, Assign(c)) && PcOf(t, c).InAuth?
    ensures Inv(ApplyAssign(t, c))
  {
    var pc := PcOf(t, c);
    assert c in t.pcs && HandlerOk(t, c);
    var st := AuthAssign(t.heap[pc.r], pc.sid, pc.done);
    var next := InAuth(pc.r, pc.sid, pc.done + 1);
    assert ApplyAssign(t, c) == Goto(Update(t, pc.r, st), c, next);
    OwnChangeKeepsInv(t, c, pc.r, st, next);
  }

  lemma MarkKeepsInv(t: Table, c: Conn)
    requires Inv(t) && Enabled(t, Assign(c)) && PcOf(t, c).MarkingTunnel?
    ensures Inv(ApplyAssign(t, c))
  {
    var pc := PcOf(t, c);
    assert c in t.pcs && HandlerOk(t, c);
    OwnChangeKeepsInv(t, c, pc.r, t.heap[pc.r].(tunnelEnabled := true), if pc.delivered then Reading else Failing);
  }

  /** Moving a handler that is not in the middle of its assignments, without changing any object. */
  lemma MoveKeepsInv(t: Table, t': Table, c: Conn)
    requires Inv(t)
    requires t'.heap == t.heap && t'.owner == t.owner
    requires forall d | d != c :: (d in t.pcs <==> d in t'.pcs) && PcOf(t', d) == PcOf(t, d)
    requires HandlerOk(t', c)
    requires !PcOf(t, c).InHello? && !PcOf(t, c).InAuth?
    requires t'.conns.Keys <= t.conns.Keys && forall d | d in t'.conns :: t'.conns[d] == t.conns[d]
    requires BoundIsSecure(t')
    ensures Inv(t')
  {
    forall d | d in t'.pcs ensures HandlerOk(t', d) {
      if d != c { assert HandlerOk(t, d); }
    }
    forall q | q in t'.heap ensures Settled(t'.heap[q]) || Changing(t', t'.owner[q], q) {
      assert t.owner[q] != c ==> Changing(t', t.owner[q], q) == Changing(t, t.owner[q], q);
    }
  }

  lemma NewObjectKeepsHandler(t: Table, t': Table, d: Conn)
    requires HandlerOk(t, d) && PcOf(t', d) == PcOf(t, d)
    requires forall q | q in t.heap :: q in t'.heap && t'.heap[q] == t.heap[q]
    requires forall q | q in t.owner :: q in t'.owner && t'.owner[q] == t.owner[q]
    ensures HandlerOk(t', d)
  {
  }

  lemma OtherObjectInOrder(t: Table, t': Table, c: Conn, q: Ref)
    requires q in t.heap && q in t.owner && (Settled(t.heap[q]) || Changing(t, t.owner[q], q))
    requires q in t'.heap && q in t'.owner && t'.heap[q] == t.heap[q] && t'.owner[q] == t.owner[q]
    requires PcOf(t, c).Reading? && forall d | d != c :: PcOf(t', d) == PcOf(t, d)
    ensures Settled(t'.heap[q]) || Changing(t', t'.owner[q], q)
  {
  }

  lemma EnterKeepsInv(t: Table, c: Conn, r: Ref, now: int, t': Table)
    requires Inv(t) && PcOf(t, c).Reading? && r !in t.heap && c !in t.conns
    requires t' == Goto(t.(heap := t.heap[r := Fresh(now)], owner := t.owner[r := c], conns := t.conns[c := r]), c, Got(r))
    ensures Inv(t')
  {
    forall d | d in t'.pcs ensures HandlerOk(t', d) {
      if d != c { NewObjectKeepsHandler(t, t', d); }
    }
    forall q | q in t'.heap ensures Settled(t'.heap[q]) || Changing(t', t'.owner[q], q) {
      if q != r {
        assert Settled(t.heap[q]) || Changing(t, t.owner[q], q);
        OtherObjectInOrder(t, t', c, q);
      }
    }
  }

  lemma BindKeepsInv(t: Table, c: Conn, r: Ref, sid: string, t': Table)
    requires Inv(t) && PcOf(t, c) == InAuth(r, sid, AUTH_ASSIGNMENTS)
    requires t' == Goto(if sid == "" then t else t.(bySID := t.bySID[sid := r]), c, Writing)
    ensures Inv(t')
  {
    assert c in t.pcs && HandlerOk(t, c);
    forall d | d in t'.pcs ensures HandlerOk(t', d) {
      if d != c { assert HandlerOk(t, d); }
    }
    forall q | q in t'.heap ensures Settled(t'.heap[q]) || Changing(t', t'.owner[q], q) {
      assert q != r && t.owner[q] != c ==> Changing(t', t.owner[q], q) == Changing(t, t.owner[q], q);
    }
  }

  lemma UdpKeepsInv(t: Table, r: Ref, st: State)
    requires Inv(t) && r in t.heap
    requires st == t.heap[r].(lastSeen := st.lastSeen, udpAddr := st.udpAddr, tunnelEnabled := st.tunnelEnabled)
    ensures Inv(Update(t, r, st))
  {
    var t' := Update(t, r, st);
    forall d | d in t'.pcs ensures HandlerOk(t', d) {
      assert HandlerOk(t, d);
    }
    forall q | q in t'.heap ensures Settled(t'.heap[q]) || Changing(t', t'.owner[q], q) {
      assert Changing(t', t.owner[q], q) == Changing(t, t.owner[q], q);
    }
  }

  lemma DecideKeepsInv(cfg: Config, t: Table, c: Conn, frame: Frame, env: Env)
    requires Inv(t) && Enabled(t, Decide(c, frame, env))
    ensures Inv(Apply(cfg, t, Decide(c, frame, env)))
  {
    var r := PcOf(t, c).r;
    var pc := Decision(cfg, t.heap[r], r, frame, env);
    DecisionOk(cfg, t, c, frame, env, Goto(t, c, pc));
    MoveKeepsInv(t, Goto(t, c, pc), c);
  }

  lemma DecisionOk(cfg: Config, t: Table, c: Conn, frame: Frame, env: Env, t': Table)
    requires Inv(t) && Enabled(t, Decide(c, frame, env))
    requires t' == Goto(t, c, Decision(cfg, t.heap[PcOf(t, c).r], PcOf(t, c).r, frame, env))
    ensures HandlerOk(t', c)
  {
    assert c in t.pcs && HandlerOk(t, c);
  }

  lemma WriteStepKeepsInv(cfg: Config, t: Table, s: Step)
    requires Inv(t) && Enabled(t, s) && (s.Reject? || s.FinishWrite? || s.CloseFailed?)
    ensures Inv(Apply(cfg, t, s))
  {
    MoveKeepsInv(t, Apply(cfg, t, s), s.c);
  }

  lemma DetachKeepsInv(cfg: Config, t: Table, c: Conn)
    requires Inv(t) && Enabled(t, Detach(c))
    ensures Inv(Apply(cfg, t, Detach(c)))
  {
    MoveKeepsInv(t, Apply(cfg, t, Detach(c)), c);
  }

  lemma UnbindKeepsInv(cfg: Config, t: Table, c: Conn)
    requires Inv(t) && Enabled(t, Unbind(c))
    ensures Inv(Apply(cfg, t, Unbind(c)))
  {
    MoveKeepsInv(t, Apply(cfg, t, Unbind(c)), c);
  }

  lemma TouchKeepsInv(t: Table, c: Conn, now: int)
    requires Inv(t) && PcOf(t, c).Got?
    ensures var r := PcOf(t, c).r; r in t.heap && Inv(Goto(Update(t, r, t.heap[r].(lastSeen := now)), c, Touched(r)))
  {
    assert c in t.pcs && HandlerOk(t, c);
    var r := PcOf(t, c).r;
    OwnChangeKeepsInv(t, c, r, t.heap[r].(lastSeen := now), Touched(r));
  }

  lemma SharedStepKeepsInv(cfg: Config, t: Table, s: Step)
    requires Inv(t) && Enabled(t, s)
    requires s.Sweep? || s.SweepUnbind? || s.SweepClose? || s.SweepDone? || s.Hangup? || s.UdpLookup? || s.UdpDone?
    ensures Inv(Apply(cfg, t, s))
  {
    ShrunkIndicesKeepInv(t, Apply(cfg, t, s));
  }

  /** Taking entries out of the indices, with every object and handler as it was. */
  lemma ShrunkIndicesKeepInv(t: Table, t': Table)
    requires Inv(t)
    requires t'.heap == t.heap && t'.owner == t.owner && t'.pcs == t.pcs
    requires forall c | c in t'.conns :: c in t.conns && t'.conns[c] == t.conns[c]
    requires forall sid | sid in t'.bySID :: sid in t.bySID && t'.bySID[sid] == t.bySID[sid]
    ensures Inv(t')
  {
    forall d | d in t'.pcs ensures HandlerOk(t', d) {
      assert HandlerOk(t, d);
    }
    forall q | q in t'.heap ensures Settled(t'.heap[q]) || Changing(t', t'.owner[q], q) {
      assert Changing(t', t.owner[q], q) == Changing(t, t.owner[q], q);
    }
  }

  /** Every single step, whatever the other goroutines are doing, keeps every bound session id on a
      ready v2 session that carries it. */
  lemma StepKeepsInv(cfg: Config, t: Table, s: Step)
    requires Inv(t) && Enabled(t, s)
    ensures Inv(Apply(cfg, t, s))
  {
    match s
    case Enter(c, r, now) =>
      if c in t.conns { MoveKeepsInv(t, Apply(cfg, t, s), c); } else { EnterKeepsInv(t, c, r, now, Apply(cfg, t, s)); }
    case Assign(c) =>
      if PcOf(t, c).InHello? { HelloAssignKeepsInv(t, c); }
      else if PcOf(t, c).InAuth? { AuthAssignKeepsInv(t, c); }
      else { MarkKeepsInv(t, c); }
    case Bind(c) => BindKeepsInv(t, c, PcOf(t, c).r, PcOf(t, c).sid, Apply(cfg, t, s));
    case UdpTouch(addr, now) => UdpKeepsInv(t, t.udp.r, t.heap[t.udp.r].(lastSeen := now, udpAddr := Some(addr)));
    case UdpMarkTunnel => UdpKeepsInv(t, t.udp.r, t.heap[t.udp.r].(tunnelEnabled := true));
    case Touch(c, now) => TouchKeepsInv(t, c, now);
    case Decide(c, frame, env) => DecideKeepsInv(cfg, t, c, frame, env);
    case Reject(_) => WriteStepKeepsInv(cfg, t, s);
    case FinishWrite(_, _) => WriteStepKeepsInv(cfg, t, s);
    case CloseFailed(_) => WriteStepKeepsInv(cfg, t, s);
    case Detach(c) => DetachKeepsInv(cfg, t, c);
    case Unbind(c) => UnbindKeepsInv(cfg, t, c);
    case _ => SharedStepKeepsInv(cfg, t, s);
  }

  lemma {:induction false} RunKeepsInv(cfg: Config, t: Table, ss: seq<Step>)
    requires Inv(t) && Runs(cfg, t, ss)
    ensures Inv(Run(cfg, t, ss))
    decreases |ss|
  {
    if |ss| > 0 {
      StepKeepsInv(cfg, t, ss[0]);
      RunKeepsInv(cfg, Apply(cfg, t, ss[0]), ss[1..]);
    }
  }
}
