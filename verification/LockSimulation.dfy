/** The two granularities agree: every run of the atomic machine is a run of the lock-granularity
    machine, one that lets each goroutine finish before the next begins. So what LockSteps and
    LockAgreement prove of every interleaving covers the atomic machine as well. */
module LockSimulation {
  import opened Wire
  import SM = SessionModel
  import LA = LockAgreement
  import opened LockSteps

  // ---------- runs from one table to another ----------

  ghost predicate Leads(cfg: SM.Config, t: Table, t': Table) {
    exists ss :: Runs(cfg, t, ss) && Run(cfg, t, ss) == t'
  }

  lemma LeadsToItself(cfg: SM.Config, t: Table)
    ensures Leads(cfg, t, t)
  {
    assert Runs(cfg, t, []) && Run(cfg, t, []) == t;
  }

  lemma LeadsBy(cfg: SM.Config, t: Table, s: Step, t1: Table, t2: Table)
    requires Enabled(t, s) && t1 == Apply(cfg, t, s) && Leads(cfg, t1, t2)
    ensures Leads(cfg, t, t2)
  {
    var ss :| Runs(cfg, t1, ss) && Run(cfg, t1, ss) == t2;
    Prefixed(cfg, t, s, ss);
  }

  lemma Prefixed(cfg: SM.Config, t: Table, s: Step, ss: seq<Step>)
    requires Enabled(t, s) && Runs(cfg, Apply(cfg, t, s), ss)
    ensures Runs(cfg, t, [s] + ss) && Run(cfg, t, [s] + ss) == Run(cfg, Apply(cfg, t, s), ss)
  {
    assert ([s] + ss)[1..] == ss;
  }

  lemma LeadsOn(cfg: SM.Config, t: Table, t1: Table, t2: Table)
    requires Leads(cfg, t, t1) && Leads(cfg, t1, t2)
    ensures Leads(cfg, t, t2)
  {
    var ss :| Runs(cfg, t, ss) && Run(cfg, t, ss) == t1;
    LeadsAfter(cfg, t, ss, t2);
  }

  lemma {:induction false} LeadsAfter(cfg: SM.Config, t: Table, ss: seq<Step>, t2: Table)
    requires Runs(cfg, t, ss) && Leads(cfg, Run(cfg, t, ss), t2)
    ensures Leads(cfg, t, t2)
    decreases |ss|
  {
    if |ss| > 0 {
      LeadsAfter(cfg, Apply(cfg, t, ss[0]), ss[1..], t2);
      LeadsBy(cfg, t, ss[0], Apply(cfg, t, ss[0]), t2);
    }
  }

  // ---------- what a table stands for ----------

  /** The table holds what the world holds, each state as an object of the heap that both indices share. */
  ghost predicate Matches(t: Table, w: SM.World) {
    && w.conns.Keys == t.conns.Keys
    && (forall c | c in t.conns :: t.conns[c] in t.heap && w.conns[c] == t.heap[t.conns[c]])
    && w.bySID.Keys == t.bySID.Keys
    && (forall sid | sid in t.bySID :: LA.InTable(t, t.bySID[sid]) && w.bySID[sid] == t.owner[t.bySID[sid]])
    && w.closed == t.closed
  }

  /** Only the handler of c moved. */
  ghost predicate Beside(t: Table, t': Table, c: SM.Conn) {
    t'.sweep == t.sweep && t'.udp == t.udp && forall d | d != c :: PcOf(t', d) == PcOf(t, d)
  }

  ghost predicate EndsAt(cfg: SM.Config, t: Table, c: SM.Conn, w: SM.World, t': Table) {
    Leads(cfg, t, t') && Inv(t') && Beside(t, t', c) && PcOf(t', c).Reading? && Matches(t', w)
  }

  /** The handler of c can run from t to its end, and leaves what world w holds. */
  ghost predicate Ends(cfg: SM.Config, t: Table, c: SM.Conn, w: SM.World) {
    exists t' :: EndsAt(cfg, t, c, w, t')
  }

  lemma EndsHere(cfg: SM.Config, t: Table, c: SM.Conn, w: SM.World)
    requires Inv(t) && PcOf(t, c).Reading? && Matches(t, w)
    ensures Ends(cfg, t, c, w)
  {
    LeadsToItself(cfg, t);
    assert EndsAt(cfg, t, c, w, t);
  }

  lemma EndsBy(cfg: SM.Config, t: Table, s: Step, t1: Table, c: SM.Conn, w: SM.World)
    requires Enabled(t, s) && t1 == Apply(cfg, t, s) && Beside(t, t1, c) && Ends(cfg, t1, c, w)
    ensures Ends(cfg, t, c, w)
  {
    var t' :| EndsAt(cfg, t1, c, w, t');
    LeadsBy(cfg, t, s, t1, t');
    assert EndsAt(cfg, t, c, w, t');
  }

  // ---------- the tail of a handler: write, close, remove ----------

  lemma RemovedMatches(t: Table, w: SM.World, c: SM.Conn, t': Table)
    requires Inv(t) && Matches(t, w)
    requires t'.heap == t.heap && t'.owner == t.owner && t'.closed == t.closed && t'.conns == t.conns - {c}
    requires t'.bySID == if c in t.conns then t.bySID - {t.heap[t.conns[c]].sessionID} else t.bySID
    ensures Matches(t', SM.RemoveConnState(w, c))
  {
    assert "" !in w.bySID;
    RemovalDrops(w, c, t.bySID.Keys);
    var w' := SM.RemoveConnState(w, c);
    RemovedMatchesWorld(t, w, c, t', w');
  }

  lemma RemovalDrops(w: SM.World, c: SM.Conn, sids: set<string>)
    requires w.bySID.Keys == sids && "" !in sids
    ensures SM.RemoveConnState(w, c) ==
      w.(conns := w.conns - {c}, bySID := if c in w.conns then w.bySID - {w.conns[c].sessionID} else w.bySID)
  {
    if c in w.conns && w.conns[c].sessionID == "" { assert w.bySID - {""} == w.bySID; }
  }

  lemma RemovedMatchesWorld(t: Table, w: SM.World, c: SM.Conn, t': Table, w': SM.World)
    requires Inv(t) && Matches(t, w)
    requires t'.heap == t.heap && t'.owner == t.owner && t'.closed == t.closed && t'.conns == t.conns - {c}
    requires t'.bySID == if c in t.conns then t.bySID - {t.heap[t.conns[c]].sessionID} else t.bySID
    requires w' == w.(conns := w.conns - {c}, bySID := if c in w.conns then w.bySID - {w.conns[c].sessionID} else w.bySID)
    ensures Matches(t', w')
  {
    forall sid | sid in t'.bySID ensures LA.InTable(t', t'.bySID[sid]) {
      RemovalSpares(t, c, sid);
    }
  }

  /** Only the removed state was bound under its id. */
  lemma RemovalSpares(t: Table, c: SM.Conn, sid: string)
    requires Inv(t) && sid in t.bySID && LA.InTable(t, t.bySID[sid])
    requires c in t.conns ==> sid != t.heap[t.conns[c]].sessionID
    ensures t.owner[t.bySID[sid]] != c
  {
    assert t.heap[t.bySID[sid]].sessionID == sid;
  }

  lemma UnbindEnds(cfg: SM.Config, t: Table, w: SM.World, c: SM.Conn, t': Table)
    requires Inv(t) && Enabled(t, Unbind(c)) && t' == Apply(cfg, t, Unbind(c)) && Matches(t', w)
    ensures Ends(cfg, t, c, w)
  {
    StepKeepsInv(cfg, t, Unbind(c));
    EndsHere(cfg, t', c, w);
    EndsBy(cfg, t, Unbind(c), t', c, w);
  }

  lemma RemoveEnds(cfg: SM.Config, t: Table, w: SM.World, c: SM.Conn)
    requires Inv(t) && Matches(t, w) && PcOf(t, c).Detaching?
    ensures Ends(cfg, t, c, SM.RemoveConnState(w, c))
  {
    var t1 := Apply(cfg, t, Detach(c));
    StepKeepsInv(cfg, t, Detach(c));
    var t2 := Apply(cfg, t1, Unbind(c));
    RemovedMatches(t, w, c, t2);
    UnbindEnds(cfg, t1, SM.RemoveConnState(w, c), c, t2);
    EndsBy(cfg, t, Detach(c), t1, c, SM.RemoveConnState(w, c));
  }

  lemma FailEnds(cfg: SM.Config, t: Table, w: SM.World, c: SM.Conn, message: string, ok: bool)
    requires Inv(t) && Matches(t, w) && PcOf(t, c).Failing?
    ensures Ends(cfg, t, c, SM.FailConn(w, c, message, ok))
  {
    var t1 := Apply(cfg, t, CloseFailed(c));
    StepKeepsInv(cfg, t, CloseFailed(c));
    RemoveEnds(cfg, t1, SM.Close(SM.Write(w, c, Error(message), ok), c), c);
    EndsBy(cfg, t, CloseFailed(c), t1, c, SM.FailConn(w, c, message, ok));
  }

  lemma WriteEnds(cfg: SM.Config, t: Table, w: SM.World, c: SM.Conn, frame: Frame, ok: bool)
    requires Inv(t) && Matches(t, w) && PcOf(t, c).Writing?
    ensures Ends(cfg, t, c, SM.WriteOrRemove(w, c, frame, ok))
  {
    var t1 := Apply(cfg, t, FinishWrite(c, ok));
    StepKeepsInv(cfg, t, FinishWrite(c, ok));
    if SM.Writable(w, c, ok) {
      EndsHere(cfg, t1, c, SM.WriteOrRemove(w, c, frame, ok));
    } else {
      RemoveEnds(cfg, t1, w, c);
    }
    EndsBy(cfg, t, FinishWrite(c, ok), t1, c, SM.WriteOrRemove(w, c, frame, ok));
  }

  // ---------- the assignments of a handler ----------

  /** Assigning to the object of c changes the state of c in the world and nothing else. */
  lemma UpdateMatches(t: Table, w: SM.World, c: SM.Conn, st: SM.State, t': Table)
    requires Inv(t) && Matches(t, w) && c in t.conns
    requires t'.heap == t.heap[t.conns[c] := st] && t'.owner == t.owner && t'.conns == t.conns && t'.bySID == t.bySID && t'.closed == t.closed
    ensures Matches(t', SM.Put(w, c, st))
  {
    forall d | d in t'.conns ensures SM.Put(w, c, st).conns[d] == t'.heap[t'.conns[d]] {
      assert t.owner[t.conns[d]] == d;
    }
  }

  /** One assignment of a handler to the object of its connection. */
  lemma Assigned(cfg: SM.Config, t: Table, w: SM.World, c: SM.Conn, st: SM.State, pc: Pc, t': Table)
    requires Inv(t) && Matches(t, w) && c in t.conns && Enabled(t, Assign(c))
    requires t' == Goto(Update(t, t.conns[c], st), c, pc) && ApplyAssign(t, c) == t'
    ensures t' == Apply(cfg, t, Assign(c)) && Inv(t') && Beside(t, t', c) && PcOf(t', c) == pc
    ensures Matches(t', SM.Put(w, c, st)) && t'.conns == t.conns
  {
    AssignKeepsInv(cfg, t, c, t');
    UpdateMatches(t, w, c, st, t');
  }

  lemma AssignKeepsInv(cfg: SM.Config, t: Table, c: SM.Conn, t': Table)
    requires Inv(t) && Enabled(t, Assign(c)) && t' == ApplyAssign(t, c)
    ensures t' == Apply(cfg, t, Assign(c)) && Inv(t')
  {
    StepKeepsInv(cfg, t, Assign(c));
  }

  /** The assignments of an accepted hello from number `done` on. */
  function HelloRest(st: SM.State, v: SM.HelloVerdict, done: nat): SM.State
    requires v.HelloAccepted?
    decreases HelloAssignments(v) - done
  {
    if done >= HelloAssignments(v) then st else HelloRest(HelloAssign(st, v, done), v, done + 1)
  }

  lemma HelloRestIsAfterHello(st: SM.State, v: SM.HelloVerdict)
    requires v.HelloAccepted?
    ensures HelloRest(st, v, 0) == SM.AfterHello(st, v)
  {
    var st3 := HelloAssign(HelloAssign(HelloAssign(st, v, 0), v, 1), v, 2);
    assert HelloRest(st, v, 0) == HelloRest(HelloAssign(st, v, 0), v, 1);
    assert HelloRest(st, v, 0) == HelloRest(st3, v, 3);
    LA.HelloAssignmentsAddUp(st, v);
  }

  lemma HelloAssigned(cfg: SM.Config, t: Table, w: SM.World, c: SM.Conn, v: SM.HelloVerdict, done: nat) returns (t1: Table)
    requires Inv(t) && Matches(t, w) && c in t.conns && PcOf(t, c) == InHello(t.conns[c], v, done)
    requires v.HelloAccepted? && done < HelloAssignments(v)
    ensures Enabled(t, Assign(c)) && t1 == Apply(cfg, t, Assign(c)) && Inv(t1) && Beside(t, t1, c) && t1.conns == t.conns
    ensures PcOf(t1, c) == if done + 1 == HelloAssignments(v) then Writing else InHello(t.conns[c], v, done + 1)
    ensures Matches(t1, SM.Put(w, c, HelloAssign(w.conns[c], v, done)))
  {
    var st := HelloAssign(w.conns[c], v, done);
    var next := if done + 1 == HelloAssignments(v) then Writing else InHello(t.conns[c], v, done + 1);
    t1 := Goto(Update(t, t.conns[c], st), c, next);
    Assigned(cfg, t, w, c, st, next, t1);
  }

  lemma {:induction false} HelloEnds(cfg: SM.Config, t: Table, w: SM.World, c: SM.Conn, v: SM.HelloVerdict, done: nat, ok: bool)
    requires Inv(t) && Matches(t, w) && c in t.conns && PcOf(t, c) == InHello(t.conns[c], v, done)
    requires v.HelloAccepted? && done < HelloAssignments(v)
    ensures Ends(cfg, t, c, SM.WriteOrRemove(SM.Put(w, c, HelloRest(w.conns[c], v, done)), c, SM.HelloReply(v), ok))
    decreases HelloAssignments(v) - done
  {
    var st := HelloAssign(w.conns[c], v, done);
    var t1 := HelloAssigned(cfg, t, w, c, v, done);
    var w1 := SM.Put(w, c, st);
    var w' := SM.WriteOrRemove(SM.Put(w, c, HelloRest(w.conns[c], v, done)), c, SM.HelloReply(v), ok);
    PutTwice(w, c, st, HelloRest(st, v, done + 1));
    if done + 1 == HelloAssignments(v) {
      PutSame(w1, c);
      WriteEnds(cfg, t1, w1, c, SM.HelloReply(v), ok);
    } else {
      HelloEnds(cfg, t1, w1, c, v, done + 1, ok);
    }
    EndsBy(cfg, t, Assign(c), t1, c, w');
  }

  lemma PutTwice(w: SM.World, c: SM.Conn, st: SM.State, st': SM.State)
    ensures SM.Put(SM.Put(w, c, st), c, st') == SM.Put(w, c, st')
  {
    assert w.conns[c := st][c := st'] == w.conns[c := st'];
  }

  lemma PutSame(w: SM.World, c: SM.Conn)
    requires c in w.conns
    ensures SM.Put(w, c, w.conns[c]) == w
  {
    assert w.conns[c := w.conns[c]] == w.conns;
  }

  /** The assignments of an accepted proof from number `done` on. */
  function AuthRest(st: SM.State, sid: string, done: nat): SM.State
    decreases AUTH_ASSIGNMENTS - done
  {
    if done >= AUTH_ASSIGNMENTS then st else AuthRest(AuthAssign(st, sid, done), sid, done + 1)
  }

  lemma AuthRestIsAfterAuth(st: SM.State, sid: string)
    ensures AuthRest(st, sid, 0) == SM.AfterAuth(st, sid)
  {
    var st2 := AuthAssign(AuthAssign(st, sid, 0), sid, 1);
    assert AuthRest(st, sid, 0) == AuthRest(st2, sid, 2);
    var st4 := AuthAssign(AuthAssign(st2, sid, 2), sid, 3);
    assert AuthRest(st2, sid, 2) == AuthRest(st4, sid, 4);
    LA.AuthAssignmentsAddUp(st, sid);
  }

  lemma BindMatches(t: Table, w: SM.World, c: SM.Conn, sid: string, t': Table)
    requires Inv(t) && Matches(t, w) && c in t.conns
    requires t'.heap == t.heap && t'.owner == t.owner && t'.conns == t.conns && t'.closed == t.closed
    requires t'.bySID == if sid == "" then t.bySID else t.bySID[sid := t.conns[c]]
    ensures Matches(t', SM.BindSessionID(w, sid, c))
  {
  }

  lemma BindEnds(cfg: SM.Config, t: Table, w: SM.World, c: SM.Conn, sid: string, frame: Frame, ok: bool)
    requires Inv(t) && Matches(t, w) && c in t.conns && PcOf(t, c) == InAuth(t.conns[c], sid, AUTH_ASSIGNMENTS)
    ensures Ends(cfg, t, c, SM.WriteOrRemove(SM.BindSessionID(w, sid, c), c, frame, ok))
  {
    var t1 := Apply(cfg, t, Bind(c));
    StepKeepsInv(cfg, t, Bind(c));
    BindMatches(t, w, c, sid, t1);
    WriteEnds(cfg, t1, SM.BindSessionID(w, sid, c), c, frame, ok);
    EndsBy(cfg, t, Bind(c), t1, c, SM.WriteOrRemove(SM.BindSessionID(w, sid, c), c, frame, ok));
  }

  lemma {:induction false} AuthEnds(cfg: SM.Config, t: Table, w: SM.World, c: SM.Conn, sid: string, done: nat, frame: Frame, ok: bool)
    requires Inv(t) && Matches(t, w) && c in t.conns && PcOf(t, c) == InAuth(t.conns[c], sid, done) && done <= AUTH_ASSIGNMENTS
    ensures Ends(cfg, t, c, SM.WriteOrRemove(SM.BindSessionID(SM.Put(w, c, AuthRest(w.conns[c], sid, done)), sid, c), c, frame, ok))
    decreases AUTH_ASSIGNMENTS - done
  {
    if done == AUTH_ASSIGNMENTS {
      PutSame(w, c);
      BindEnds(cfg, t, w, c, sid, frame, ok);
    } else {
      var st := AuthAssign(w.conns[c], sid, done);
      var t1 := Goto(Update(t, t.conns[c], st), c, InAuth(t.conns[c], sid, done + 1));
      Assigned(cfg, t, w, c, st, InAuth(t.conns[c], sid, done + 1), t1);
      PutTwice(w, c, st, AuthRest(st, sid, done + 1));
      AuthEnds(cfg, t1, SM.Put(w, c, st), c, sid, done + 1, frame, ok);
      EndsBy(cfg, t, Assign(c), t1, c,
             SM.WriteOrRemove(SM.BindSessionID(SM.Put(w, c, AuthRest(w.conns[c], sid, done)), sid, c), c, frame, ok));
    }
  }

  lemma TunnelMarked(cfg: SM.Config, t: Table, w: SM.World, c: SM.Conn, packet: seq<Byte>, ok: bool) returns (t1: Table)
    requires Inv(t) && Matches(t, w) && c in t.conns && PcOf(t, c) == MarkingTunnel(t.conns[c], ok)
    ensures Enabled(t, Assign(c)) && t1 == Apply(cfg, t, Assign(c)) && Inv(t1) && Beside(t, t1, c)
    ensures PcOf(t1, c) == (if ok then Reading else Failing) && Matches(t1, SM.ToTunnelDevice(w, c, packet, ok))
  {
    var st := w.conns[c].(tunnelEnabled := true);
    var next := if ok then Reading else Failing;
    t1 := Goto(Update(t, t.conns[c], st), c, next);
    Assigned(cfg, t, w, c, st, next, t1);
    assert SameTables(SM.Put(w, c, st), SM.ToTunnelDevice(w, c, packet, ok));
  }

  lemma TunnelEnds(cfg: SM.Config, t: Table, w: SM.World, c: SM.Conn, packet: seq<Byte>, env: SM.Env)
    requires Inv(t) && Matches(t, w) && c in t.conns && PcOf(t, c) == MarkingTunnel(t.conns[c], env.tunnelOk)
    ensures Ends(cfg, t, c, SM.ActOnData(w, c, SM.ForTunnel(packet), env))
  {
    var w1 := SM.ToTunnelDevice(w, c, packet, env.tunnelOk);
    var t1 := TunnelMarked(cfg, t, w, c, packet, env.tunnelOk);
    if env.tunnelOk {
      EndsHere(cfg, t1, c, w1);
    } else {
      FailEnds(cfg, t1, w1, c, "tunnel write failed", env.errorWriteOk);
    }
    EndsBy(cfg, t, Assign(c), t1, c, SM.ActOnData(w, c, SM.ForTunnel(packet), env));
  }

  // ---------- one TCP frame ----------

  lemma DataEnds(cfg: SM.Config, t: Table, w: SM.World, c: SM.Conn, v: SM.DataVerdict, env: SM.Env)
    requires Inv(t) && Matches(t, w) && c in t.conns
    requires PcOf(t, c) == if v.DataRefused? then Failing else if v.ForTunnel? then MarkingTunnel(t.conns[c], env.tunnelOk) else Writing
    ensures Ends(cfg, t, c, SM.ActOnData(w, c, v, env))
  {
    match v
    case DataRefused(message) => FailEnds(cfg, t, w, c, message, env.errorWriteOk);
    case ForTunnel(packet) => TunnelEnds(cfg, t, w, c, packet, env);
    case Answer(reply) => WriteEnds(cfg, t, w, c, reply, env.sealOk && env.writeOk);
  }

  lemma PreSecureEnds(cfg: SM.Config, t: Table, w: SM.World, c: SM.Conn, frame: Frame, env: SM.Env)
    requires Inv(t) && Matches(t, w) && c in t.conns && !w.conns[c].secureReady && !w.conns[c].awaitAuthV2
    requires PcOf(t, c) == Decision(cfg, w.conns[c], t.conns[c], frame, env)
    ensures Ends(cfg, t, c, SM.HandleHello(cfg, w, c, frame, env))
  {
    var v := SM.JudgeHello(cfg, frame, env);
    if v.HelloRejected? {
      FailEnds(cfg, t, w, c, v.message, env.errorWriteOk);
    } else {
      HelloRestIsAfterHello(w.conns[c], v);
      HelloEnds(cfg, t, w, c, v, 0, env.writeOk);
    }
  }

  lemma AwaitingEnds(cfg: SM.Config, t: Table, w: SM.World, c: SM.Conn, frame: Frame, env: SM.Env)
    requires Inv(t) && Matches(t, w) && c in t.conns && !w.conns[c].secureReady && w.conns[c].awaitAuthV2
    requires PcOf(t, c) == Decision(cfg, w.conns[c], t.conns[c], frame, env)
    ensures Ends(cfg, t, c, SM.HandleAuth(w, c, frame, env))
  {
    var st := w.conns[c];
    var refusal := SM.JudgeAuth(st, frame);
    if refusal.Some? {
      FailEnds(cfg, t, w, c, refusal.value, env.errorWriteOk);
    } else {
      AuthRestIsAfterAuth(st, env.newSessionID);
      AuthEnds(cfg, t, w, c, env.newSessionID, 0, BuildReady(st.sessionKey, env.newSessionID), env.writeOk);
    }
  }

  lemma DecidedEnds(cfg: SM.Config, t: Table, w: SM.World, c: SM.Conn, frame: Frame, env: SM.Env)
    requires Inv(t) && Matches(t, w) && c in t.conns
    requires PcOf(t, c) == Decision(cfg, w.conns[c], t.conns[c], frame, env)
    ensures Ends(cfg, t, c, SM.Dispatch(cfg, w, c, frame, env))
  {
    var st := w.conns[c];
    if st.secureReady {
      DataEnds(cfg, t, w, c, SM.JudgeData(cfg, st, frame, env), env);
    } else if st.awaitAuthV2 {
      AwaitingEnds(cfg, t, w, c, frame, env);
    } else {
      PreSecureEnds(cfg, t, w, c, frame, env);
    }
  }

  lemma TouchedEnds(cfg: SM.Config, t: Table, w: SM.World, c: SM.Conn, frame: Frame, env: SM.Env)
    requires Inv(t) && Matches(t, w) && c in t.conns && PcOf(t, c) == Touched(t.conns[c])
    ensures Ends(cfg, t, c, SM.Dispatch(cfg, w, c, frame, env))
  {
    var s := Decide(c, frame, env);
    var t1 := Apply(cfg, t, s);
    StepKeepsInv(cfg, t, s);
    DecidedEnds(cfg, t1, w, c, frame, env);
    EndsBy(cfg, t, s, t1, c, SM.Dispatch(cfg, w, c, frame, env));
  }

  lemma GotTouched(cfg: SM.Config, t: Table, w: SM.World, c: SM.Conn, now: int) returns (t1: Table)
    requires Inv(t) && Matches(t, w) && c in t.conns && PcOf(t, c) == Got(t.conns[c])
    ensures t1 == Apply(cfg, t, Touch(c, now)) && Inv(t1) && Beside(t, t1, c)
    ensures Matches(t1, SM.Put(w, c, w.conns[c].(lastSeen := now))) && c in t1.conns && PcOf(t1, c) == Touched(t1.conns[c])
  {
    t1 := Apply(cfg, t, Touch(c, now));
    StepKeepsInv(cfg, t, Touch(c, now));
    UpdateMatches(t, w, c, w.conns[c].(lastSeen := now), t1);
  }

  lemma GotEnds(cfg: SM.Config, t: Table, w: SM.World, c: SM.Conn, frame: Frame, env: SM.Env)
    requires Inv(t) && Matches(t, w) && c in t.conns && PcOf(t, c) == Got(t.conns[c])
    ensures Ends(cfg, t, c, SM.Dispatch(cfg, SM.Put(w, c, w.conns[c].(lastSeen := env.now)), c, frame, env))
  {
    var w1 := SM.Put(w, c, w.conns[c].(lastSeen := env.now));
    var t1 := GotTouched(cfg, t, w, c, env.now);
    TouchedEnds(cfg, t1, w1, c, frame, env);
    EndsBy(cfg, t, Touch(c, env.now), t1, c, SM.Dispatch(cfg, w1, c, frame, env));
  }

  lemma FreshRef(used: set<Ref>) returns (r: Ref)
    ensures r !in used
  {
    r := Above(used);
  }

  lemma {:induction false} Above(used: set<Ref>) returns (r: Ref)
    ensures forall q | q in used :: q < r
    decreases |used|
  {
    if used == {} {
      r := 0;
    } else {
      var q :| q in used;
      r := Above(used - {q});
      if r <= q { r := q + 1; }
      assert forall p | p in used :: p == q || p in used - {q};
    }
  }

  lemma EnteredMatches(t: Table, w: SM.World, c: SM.Conn, r: Ref, now: int, t': Table)
    requires Inv(t) && Matches(t, w) && r !in t.heap
    requires t' == (if c in t.conns then Goto(t, c, Got(t.conns[c]))
                    else Goto(t.(heap := t.heap[r := SM.Fresh(now)], owner := t.owner[r := c], conns := t.conns[c := r]), c, Got(r)))
    ensures Matches(t', SM.GetConnState(w, c, now))
  {
    forall sid | sid in t'.bySID ensures LA.InTable(t', t'.bySID[sid]) && t'.owner[t'.bySID[sid]] == t.owner[t.bySID[sid]] {
      assert LA.InTable(t, t.bySID[sid]) && t.bySID[sid] in t.heap;
    }
  }

  lemma EnterEnds(cfg: SM.Config, t: Table, w: SM.World, c: SM.Conn, frame: Frame, env: SM.Env)
    requires Inv(t) && Matches(t, w) && PcOf(t, c).Reading?
    ensures Ends(cfg, t, c, SM.Dispatch(cfg, SM.Entered(w, c, env.now), c, frame, env))
  {
    var r := FreshRef(t.heap.Keys);
    var s := Enter(c, r, env.now);
    var t1 := EnterBegins(cfg, t, w, c, r, env.now);
    GotEnds(cfg, t1, SM.GetConnState(w, c, env.now), c, frame, env);
    EndsBy(cfg, t, s, t1, c, SM.Dispatch(cfg, SM.Entered(w, c, env.now), c, frame, env));
  }

  lemma EnterBegins(cfg: SM.Config, t: Table, w: SM.World, c: SM.Conn, r: Ref, now: int) returns (t1: Table)
    requires Inv(t) && Matches(t, w) && PcOf(t, c).Reading? && r !in t.heap
    ensures t1 == Apply(cfg, t, Enter(c, r, now)) && Inv(t1) && Matches(t1, SM.GetConnState(w, c, now)) && Beside(t, t1, c)
    ensures c in t1.conns && PcOf(t1, c) == Got(t1.conns[c])
  {
    t1 := Apply(cfg, t, Enter(c, r, now));
    StepKeepsInv(cfg, t, Enter(c, r, now));
    EnteredMatches(t, w, c, r, now, t1);
  }

  lemma RejectEnds(cfg: SM.Config, t: Table, w: SM.World, c: SM.Conn, message: string, ok: bool)
    requires Inv(t) && Matches(t, w) && PcOf(t, c).Reading?
    ensures Ends(cfg, t, c, SM.FailConn(w, c, message, ok))
  {
    var t1 := Apply(cfg, t, Reject(c));
    StepKeepsInv(cfg, t, Reject(c));
    FailEnds(cfg, t1, w, c, message, ok);
    EndsBy(cfg, t, Reject(c), t1, c, SM.FailConn(w, c, message, ok));
  }

  lemma TcpEnds(cfg: SM.Config, t: Table, w: SM.World, c: SM.Conn, p: Packet, env: SM.Env)
    requires Inv(t) && Matches(t, w) && PcOf(t, c).Reading?
    ensures Ends(cfg, t, c, SM.HandleTcp(cfg, w, c, p, env))
  {
    if |p.bytes| == 0 {
      RejectEnds(cfg, t, w, c, "empty frame", env.errorWriteOk);
    } else if cfg.privateKey.NoPrivateKey? {
      if |p.bytes| > cfg.maxPacketSize {
        RejectEnds(cfg, t, w, c, "frame too large", env.errorWriteOk);
      } else {
        EndsHere(cfg, t, c, SM.HandleTcp(cfg, w, c, p, env));
      }
    } else if |p.bytes| > cfg.maxPacketSize * 8 {
      RejectEnds(cfg, t, w, c, "frame too large", env.errorWriteOk);
    } else {
      EnterEnds(cfg, t, w, c, p.frame, env);
    }
  }

  // ---------- datagrams and sweeps ----------

  ghost predicate RestsAt(cfg: SM.Config, t: Table, w: SM.World, t': Table) {
    Leads(cfg, t, t') && Inv(t') && LA.Quiescent(t') && Matches(t', w)
  }

  /** Some run leads from t to a table at rest that holds what world w holds. */
  ghost predicate Realises(cfg: SM.Config, t: Table, w: SM.World) {
    exists t' :: RestsAt(cfg, t, w, t')
  }

  lemma RestsHere(cfg: SM.Config, t: Table, w: SM.World)
    requires Inv(t) && LA.Quiescent(t) && Matches(t, w)
    ensures Realises(cfg, t, w)
  {
    LeadsToItself(cfg, t);
    assert RestsAt(cfg, t, w, t);
  }

  lemma RealisesBy(cfg: SM.Config, t: Table, s: Step, t1: Table, w: SM.World)
    requires Enabled(t, s) && t1 == Apply(cfg, t, s) && Realises(cfg, t1, w)
    ensures Realises(cfg, t, w)
  {
    var t' :| RestsAt(cfg, t1, w, t');
    LeadsBy(cfg, t, s, t1, t');
    assert RestsAt(cfg, t, w, t');
  }

  lemma EndsRealises(cfg: SM.Config, t: Table, c: SM.Conn, w: SM.World)
    requires LA.Quiescent(t) && Ends(cfg, t, c, w)
    ensures Realises(cfg, t, w)
  {
    var t' :| EndsAt(cfg, t, c, w, t');
    forall d | d in t'.pcs ensures t'.pcs[d].Reading? {
      assert PcOf(t', d) == t'.pcs[d] && (d != c ==> PcOf(t', d) == PcOf(t, d));
    }
    assert RestsAt(cfg, t, w, t');
  }

  /** The UDP handler has found the object of c. */
  ghost predicate UdpAt(t: Table, w: SM.World, c: SM.Conn) {
    && Inv(t) && Matches(t, w) && c in t.conns && t.udp == UdpFound(t.conns[c])
    && t.sweep.SweepIdle? && forall d | d in t.pcs :: t.pcs[d].Reading?
  }

  lemma UdpReturns(cfg: SM.Config, t: Table, w: SM.World, c: SM.Conn)
    requires UdpAt(t, w, c)
    ensures Realises(cfg, t, w)
  {
    var t1 := Apply(cfg, t, UdpDone);
    StepKeepsInv(cfg, t, UdpDone);
    RestsHere(cfg, t1, w);
    RealisesBy(cfg, t, UdpDone, t1, w);
  }

  lemma UdpMarks(cfg: SM.Config, t: Table, w: SM.World, c: SM.Conn)
    requires UdpAt(t, w, c) && w.conns[c].secureReady && w.conns[c].protoVersion == "v2"
    ensures Realises(cfg, t, SM.Put(w, c, w.conns[c].(tunnelEnabled := true)))
  {
    var w1 := SM.Put(w, c, w.conns[c].(tunnelEnabled := true));
    var t1 := Apply(cfg, t, UdpMarkTunnel);
    StepKeepsInv(cfg, t, UdpMarkTunnel);
    UpdateMatches(t, w, c, w1.conns[c], t1);
    UdpReturns(cfg, t1, w1, c);
    RealisesBy(cfg, t, UdpMarkTunnel, t1, w1);
  }

  lemma UdpTouches(cfg: SM.Config, t: Table, w: SM.World, c: SM.Conn, addr: SM.Addr, now: int, marks: bool)
    requires UdpAt(t, w, c) && w.conns[c].secureReady && w.conns[c].protoVersion == "v2"
    ensures var st := w.conns[c].(lastSeen := now, udpAddr := Some(addr));
      Realises(cfg, t, SM.Put(w, c, if marks then st.(tunnelEnabled := true) else st))
  {
    var st := w.conns[c].(lastSeen := now, udpAddr := Some(addr));
    var w1 := SM.Put(w, c, st);
    var s := UdpTouch(addr, now);
    var t1 := Apply(cfg, t, s);
    StepKeepsInv(cfg, t, s);
    UpdateMatches(t, w, c, st, t1);
    if marks {
      UdpMarks(cfg, t1, w1, c);
      PutTwice(w, c, st, st.(tunnelEnabled := true));
    } else {
      UdpReturns(cfg, t1, w1, c);
    }
    RealisesBy(cfg, t, s, t1, SM.Put(w, c, if marks then st.(tunnelEnabled := true) else st));
  }

  lemma UdpFinds(cfg: SM.Config, t: Table, w: SM.World, c: SM.Conn, sid: string, addr: SM.Addr, now: int, marks: bool)
    requires Inv(t) && LA.Quiescent(t) && Matches(t, w)
    requires sid in w.bySID && w.bySID[sid] == c && c in w.conns && w.conns[c].secureReady && w.conns[c].protoVersion == "v2"
    ensures var st := w.conns[c].(lastSeen := now, udpAddr := Some(addr));
      Realises(cfg, t, SM.Put(w, c, if marks then st.(tunnelEnabled := true) else st))
  {
    var t1 := Apply(cfg, t, UdpLookup(sid));
    StepKeepsInv(cfg, t, UdpLookup(sid));
    UdpTouches(cfg, t1, w, c, addr, now, marks);
    var st := w.conns[c].(lastSeen := now, udpAddr := Some(addr));
    RealisesBy(cfg, t, UdpLookup(sid), t1, SM.Put(w, c, if marks then st.(tunnelEnabled := true) else st));
  }

  /** The worlds differ only in what has been written. */
  predicate SameTables(w: SM.World, w': SM.World) {
    w'.conns == w.conns && w'.bySID == w.bySID && w'.closed == w.closed
  }

  lemma LogDoesNotMatter(cfg: SM.Config, t: Table, w: SM.World, w': SM.World)
    requires Realises(cfg, t, w) && SameTables(w, w')
    ensures Realises(cfg, t, w')
  {
    var t' :| RestsAt(cfg, t, w, t');
    assert RestsAt(cfg, t, w', t');
  }

  /** What a datagram does to the tables: nothing, or a touch of its owner, which may mark it a tunnel. */
  lemma DatagramTables(cfg: SM.Config, w: SM.World, addr: SM.Addr, p: Packet, env: SM.Env) returns (marks: bool)
    ensures var owner := SM.DatagramOwner(cfg, w, p);
      var w' := SM.HandleUdp(cfg, w, addr, p, env);
      if owner.None? then SameTables(w, w')
      else
        var st := w.conns[owner.value].(lastSeen := env.now, udpAddr := Some(addr));
        SameTables(SM.Put(w, owner.value, if marks then st.(tunnelEnabled := true) else st), w')
  {
    var owner := SM.DatagramOwner(cfg, w, p);
    marks := owner.Some? && SM.JudgeDatagram(cfg, w.conns[owner.value], p.frame, env).DatagramForTunnel?;
    if marks {
      var st := w.conns[owner.value].(lastSeen := env.now, udpAddr := Some(addr));
      PutTwice(w, owner.value, st, st.(tunnelEnabled := true));
    }
  }

  lemma UdpRealised(cfg: SM.Config, t: Table, w: SM.World, addr: SM.Addr, p: Packet, env: SM.Env)
    requires Inv(t) && LA.Quiescent(t) && Matches(t, w)
    ensures Realises(cfg, t, SM.HandleUdp(cfg, w, addr, p, env))
  {
    var owner := SM.DatagramOwner(cfg, w, p);
    var w' := SM.HandleUdp(cfg, w, addr, p, env);
    var marks := DatagramTables(cfg, w, addr, p, env);
    if owner.None? {
      RestsHere(cfg, t, w);
      LogDoesNotMatter(cfg, t, w, w');
    } else {
      var c := owner.value;
      UdpFinds(cfg, t, w, c, p.frame.sessionID, addr, env.now, marks);
      var st := w.conns[c].(lastSeen := env.now, udpAddr := Some(addr));
      LogDoesNotMatter(cfg, t, SM.Put(w, c, if marks then st.(tunnelEnabled := true) else st), w');
    }
  }

  lemma TakenOneByOne(m: map<string, Ref>, sids: set<string>, sid: string)
    requires sid in sids
    ensures (m - {sid}) - (sids - {sid}) == m - sids && |sids - {sid}| < |sids|
  {
    assert forall x | x in m :: (x !in {sid} && x !in sids - {sid}) <==> x !in sids;
  }

  lemma AddedOneByOne(s: set<SM.Conn>, more: set<SM.Conn>, c: SM.Conn)
    requires c in more
    ensures (s + {c}) + (more - {c}) == s + more && |more - {c}| < |more|
  {
  }

  lemma {:induction false} SweepLeads(cfg: SM.Config, t: Table, t': Table)
    requires t.sweep.Sweeping?
    requires t' == t.(bySID := t.bySID - t.sweep.sids, closed := t.closed + t.sweep.toClose, sweep := SweepIdle)
    ensures Leads(cfg, t, t')
    decreases |t.sweep.sids| + |t.sweep.toClose|
  {
    if t.sweep.sids != {} {
      var sid :| sid in t.sweep.sids;
      var t1 := Apply(cfg, t, SweepUnbind(sid));
      TakenOneByOne(t.bySID, t.sweep.sids, sid);
      SweepLeads(cfg, t1, t');
      LeadsBy(cfg, t, SweepUnbind(sid), t1, t');
    } else if t.sweep.toClose != {} {
      var c :| c in t.sweep.toClose;
      var t1 := Apply(cfg, t, SweepClose(c));
      AddedOneByOne(t.closed, t.sweep.toClose, c);
      SweepLeads(cfg, t1, t');
      LeadsBy(cfg, t, SweepClose(c), t1, t');
    } else {
      assert t.bySID - {} == t.bySID && t.closed + {} == t.closed;
      LeadsToItself(cfg, t');
      LeadsBy(cfg, t, SweepDone, t', t');
    }
  }

  lemma SweptMatches(cfg: SM.Config, t: Table, w: SM.World, now: int, t': Table)
    requires Inv(t) && Matches(t, w) && cfg.idleSec > 0
    requires t'.heap == t.heap && t'.owner == t.owner
    requires t'.conns == t.conns - SweptRefs(cfg, t, now) && t'.bySID == t.bySID - SweptIDs(cfg, t, now)
    requires t'.closed == t.closed + SweptRefs(cfg, t, now)
    ensures Matches(t', SM.DropIdle(cfg, w, now))
  {
    var idle := SM.IdleConns(cfg, w, now);
    assert SweptRefs(cfg, t, now) == idle;
    assert SweptIDs(cfg, t, now) == SM.SessionIDs(w, idle);
    forall sid | sid in t'.bySID ensures LA.InTable(t', t'.bySID[sid]) {
      assert t.heap[t.bySID[sid]].sessionID == sid && sid != "" && LA.InTable(t, t.bySID[sid]);
    }
  }

  /** Without an idle limit a sweep does nothing. */
  lemma DisabledSweep(cfg: SM.Config, t: Table, now: int)
    requires Enabled(t, LockSteps.Sweep(now)) && cfg.idleSec <= 0
    ensures Apply(cfg, t, LockSteps.Sweep(now)) == t
  {
  }

  lemma SweepRealised(cfg: SM.Config, t: Table, w: SM.World, now: int)
    requires Inv(t) && LA.Quiescent(t) && Matches(t, w)
    ensures Realises(cfg, t, SM.DropIdle(cfg, w, now))
  {
    if cfg.idleSec <= 0 {
      DisabledSweep(cfg, t, now);
      RestsHere(cfg, t, w);
      RealisesBy(cfg, t, LockSteps.Sweep(now), t, w);
    } else {
      var t1 := Apply(cfg, t, LockSteps.Sweep(now));
      var t' := t1.(bySID := t1.bySID - t1.sweep.sids, closed := t1.closed + t1.sweep.toClose, sweep := SweepIdle);
      SweepLeads(cfg, t1, t');
      LeadsBy(cfg, t, LockSteps.Sweep(now), t1, t');
      LeadsKeepsInv(cfg, t, t');
      SweptMatches(cfg, t, w, now, t');
      assert RestsAt(cfg, t, SM.DropIdle(cfg, w, now), t');
    }
  }

  lemma LeadsKeepsInv(cfg: SM.Config, t: Table, t': Table)
    requires Inv(t) && Leads(cfg, t, t')
    ensures Inv(t')
  {
    var ss :| Runs(cfg, t, ss) && Run(cfg, t, ss) == t';
    RunKeepsInv(cfg, t, ss);
  }

  // ---------- every event, every run ----------

  lemma HangupRealised(cfg: SM.Config, t: Table, w: SM.World, c: SM.Conn)
    requires Inv(t) && LA.Quiescent(t) && Matches(t, w)
    ensures Realises(cfg, t, SM.Step(cfg, w, SM.Hangup(c)))
  {
    var t1 := Apply(cfg, t, LockSteps.Hangup(c));
    StepKeepsInv(cfg, t, LockSteps.Hangup(c));
    RestsHere(cfg, t1, SM.Step(cfg, w, SM.Hangup(c)));
    RealisesBy(cfg, t, LockSteps.Hangup(c), t1, SM.Step(cfg, w, SM.Hangup(c)));
  }

  lemma TcpRealised(cfg: SM.Config, t: Table, w: SM.World, c: SM.Conn, p: Packet, env: SM.Env)
    requires Inv(t) && LA.Quiescent(t) && Matches(t, w)
    ensures Realises(cfg, t, SM.HandleTcp(cfg, w, c, p, env))
  {
    assert PcOf(t, c).Reading?;
    TcpEnds(cfg, t, w, c, p, env);
    EndsRealises(cfg, t, c, SM.HandleTcp(cfg, w, c, p, env));
  }

  lemma RelayRealised(cfg: SM.Config, t: Table, w: SM.World, c: SM.Conn, bytes: seq<Byte>, env: SM.Env)
    requires Inv(t) && LA.Quiescent(t) && Matches(t, w) && c in w.conns
    ensures Realises(cfg, t, SM.Relay(w, c, bytes, env))
  {
    RestsHere(cfg, t, w);
    RelayTables(w, c, bytes, env);
    LogDoesNotMatter(cfg, t, w, SM.Relay(w, c, bytes, env));
  }

  lemma RelayTables(w: SM.World, c: SM.Conn, bytes: seq<Byte>, env: SM.Env)
    requires c in w.conns
    ensures SameTables(w, SM.Relay(w, c, bytes, env))
  {
  }

  lemma StepRealised(cfg: SM.Config, t: Table, w: SM.World, e: SM.Event)
    requires Inv(t) && LA.Quiescent(t) && Matches(t, w) && SM.Enabled(w, e)
    ensures Realises(cfg, t, SM.Step(cfg, w, e))
  {
    match e
    case TcpFrame(c, p, env) => TcpRealised(cfg, t, w, c, p, env);
    case UdpDatagram(addr, p, env) => UdpRealised(cfg, t, w, addr, p, env);
    case TunnelPacket(c, bytes, env) => RelayRealised(cfg, t, w, c, bytes, env);
    case Sweep(now) => SweepRealised(cfg, t, w, now);
    case Hangup(c) => HangupRealised(cfg, t, w, c);
  }

  /** From tables that hold the same, every run of the atomic machine is realised at lock granularity:
      some interleaving ends at rest with the same states, the same session ids and the same closed
      connections. */
  lemma {:induction false} RunRealised(cfg: SM.Config, t: Table, w: SM.World, es: seq<SM.Event>)
    requires Inv(t) && LA.Quiescent(t) && Matches(t, w) && SM.Runs(cfg, w, es)
    ensures Realises(cfg, t, SM.Run(cfg, w, es))
    decreases |es|
  {
    if |es| == 0 {
      RestsHere(cfg, t, w);
    } else {
      var w1 := SM.Step(cfg, w, es[0]);
      StepRealised(cfg, t, w, es[0]);
      var t1 :| RestsAt(cfg, t, w1, t1);
      RunRealised(cfg, t1, w1, es[1..]);
      var t2 :| RestsAt(cfg, t1, SM.Run(cfg, w1, es[1..]), t2);
      LeadsOn(cfg, t, t1, t2);
      assert RestsAt(cfg, t, SM.Run(cfg, w, es), t2);
    }
  }

  lemma AtomicRunsAreInterleavings(cfg: SM.Config, udpUp: bool, es: seq<SM.Event>)
    requires SM.Runs(cfg, SM.Initial(udpUp), es)
    ensures Realises(cfg, Start(), SM.Run(cfg, SM.Initial(udpUp), es))
  {
    RunRealised(cfg, Start(), SM.Initial(udpUp), es);
  }
}
