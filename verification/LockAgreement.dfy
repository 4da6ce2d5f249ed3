/** Where the two indices can part at lock granularity: exactly at a late binding, and for good. */
module LockAgreement {
  import opened Wire
  import SM = SessionModel
  import opened LockSteps

  /** The connection index holds object r. */
  predicate InTable(t: Table, r: Ref) {
    r in t.owner && t.owner[r] in t.conns && t.conns[t.owner[r]] == r
  }

  /** The sweep has taken a state with this id out of the connections and has yet to unbind the id. */
  predicate SweepOwes(t: Table, sid: string) {
    t.sweep.Sweeping? && sid in t.sweep.sids
  }

  /** The id is bound to an object that the connection index no longer holds, and nobody is about to unbind it. */
  predicate Orphan(t: Table, sid: string) {
    && sid in t.bySID && !InTable(t, t.bySID[sid]) && !SweepOwes(t, sid)
    && t.bySID[sid] in t.owner && PcOf(t, t.owner[t.bySID[sid]]) != Unbinding(Some(t.bySID[sid]))
  }

  ghost predicate OrphanFree(t: Table) {
    forall sid | sid in t.bySID :: !Orphan(t, sid)
  }

  /** A handler binds its session id although the sweep has already taken its state out of the
      connection index and does not owe the unbinding of that id. */
  predicate LateBind(t: Table, s: Step) {
    && s.Bind? && PcOf(t, s.c).InAuth? && PcOf(t, s.c).sid != ""
    && !InTable(t, PcOf(t, s.c).r) && !SweepOwes(t, PcOf(t, s.c).sid)
  }

  lemma EnterOrphanFree(t: Table, t': Table, c: SM.Conn, r: Ref)
    requires Inv(t) && OrphanFree(t) && PcOf(t, c).Reading? && r !in t.heap && c !in t.conns
    requires t'.bySID == t.bySID && t'.owner == t.owner[r := c] && t'.conns == t.conns[c := r] && t'.sweep == t.sweep
    requires t'.pcs == t.pcs[c := Got(r)]
    ensures OrphanFree(t')
  {
    forall sid | sid in t'.bySID ensures !Orphan(t', sid) {
      assert !Orphan(t, sid);
    }
  }

  lemma DetachOrphanFree(t: Table, t': Table, c: SM.Conn)
    requires Inv(t) && OrphanFree(t) && PcOf(t, c).Detaching?
    requires t' == Goto(t.(conns := t.conns - {c}), c, Unbinding(if c in t.conns then Some(t.conns[c]) else None))
    ensures OrphanFree(t')
  {
    forall sid | sid in t'.bySID ensures !Orphan(t', sid) {
      assert !Orphan(t, sid);
    }
  }

  lemma UnbindOrphanFree(t: Table, t': Table, c: SM.Conn, st: Option<Ref>)
    requires Inv(t) && OrphanFree(t) && PcOf(t, c) == Unbinding(st)
    requires t' == Goto(if st.Some? && st.value in t.heap then t.(bySID := t.bySID - {t.heap[st.value].sessionID}) else t, c, Reading)
    ensures OrphanFree(t')
  {
    assert c in t.pcs && HandlerOk(t, c);
    forall sid | sid in t'.bySID ensures !Orphan(t', sid) {
      assert !Orphan(t, sid);
    }
  }

  lemma SweepOrphanFree(cfg: SM.Config, t: Table, now: int)
    requires Inv(t) && OrphanFree(t) && Enabled(t, Sweep(now))
    ensures OrphanFree(Apply(cfg, t, Sweep(now)))
  {
    var t' := Apply(cfg, t, Sweep(now));
    forall sid | sid in t'.bySID ensures !Orphan(t', sid) {
      assert sid in t.bySID && !Orphan(t, sid);
    }
  }

  lemma SweepUnbindOrphanFree(t: Table, t': Table, sid: string)
    requires Inv(t) && OrphanFree(t) && t.sweep.Sweeping?
    requires t' == t.(bySID := t.bySID - {sid}, sweep := t.sweep.(sids := t.sweep.sids - {sid}))
    ensures OrphanFree(t')
  {
    forall other | other in t'.bySID ensures !Orphan(t', other) {
      assert !Orphan(t, other);
    }
  }

  lemma QuietStepOrphanFree(t: Table, t': Table)
    requires Inv(t) && OrphanFree(t)
    requires t'.conns == t.conns && t'.bySID == t.bySID && t'.owner == t.owner
    requires forall sid | sid in t.bySID && SweepOwes(t, sid) :: SweepOwes(t', sid)
    requires forall c | PcOf(t, c).Unbinding? :: PcOf(t', c) == PcOf(t, c)
    ensures OrphanFree(t')
  {
    forall sid | sid in t'.bySID ensures !Orphan(t', sid) {
      assert !Orphan(t, sid);
    }
  }

  lemma BindOrphanFreeIff(cfg: SM.Config, t: Table, c: SM.Conn)
    requires Inv(t) && OrphanFree(t) && Enabled(t, Bind(c))
    ensures OrphanFree(Apply(cfg, t, Bind(c))) <==> !LateBind(t, Bind(c))
  {
    var t' := Apply(cfg, t, Bind(c));
    assert c in t.pcs && HandlerOk(t, c);
    var sid, r := PcOf(t, c).sid, PcOf(t, c).r;
    if LateBind(t, Bind(c)) {
      assert Orphan(t', sid);
    } else {
      forall s | s in t'.bySID ensures !Orphan(t', s) {
        if s != sid || sid == "" { assert s in t.bySID && !Orphan(t, s); }
      }
    }
  }

  /** A step creates the first orphan if and only if it is a late binding. */
  lemma StepOrphanFreeIff(cfg: SM.Config, t: Table, s: Step)
    requires Inv(t) && OrphanFree(t) && Enabled(t, s)
    ensures OrphanFree(Apply(cfg, t, s)) <==> !LateBind(t, s)
  {
    if s.Bind? {
      BindOrphanFreeIff(cfg, t, s.c);
    } else if s.Detach? {
      DetachOrphanFree(t, Apply(cfg, t, s), s.c);
    } else if s.Unbind? {
      UnbindOrphanFree(t, Apply(cfg, t, s), s.c, PcOf(t, s.c).st);
    } else if s.Sweep? {
      SweepOrphanFree(cfg, t, s.now);
    } else if s.SweepUnbind? {
      SweepUnbindOrphanFree(t, Apply(cfg, t, s), s.sid);
    } else if s.Enter? && s.c !in t.conns {
      EnterOrphanFree(t, Apply(cfg, t, s), s.c, s.r);
    } else {
      OtherStepOrphanFree(cfg, t, s);
    }
  }

  lemma OtherStepOrphanFree(cfg: SM.Config, t: Table, s: Step)
    requires Inv(t) && OrphanFree(t) && Enabled(t, s)
    requires !s.Bind? && !s.Detach? && !s.Unbind? && !s.Sweep? && !s.SweepUnbind? && !(s.Enter? && s.c !in t.conns)
    ensures OrphanFree(Apply(cfg, t, s))
  {
    if s.Assign? {
      AssignOrphanFree(t, s.c);
    } else if s.Enter? || s.Touch? || s.Decide? || s.Reject? || s.FinishWrite? || s.CloseFailed? {
      HandlerOrphanFree(cfg, t, s);
    } else {
      SharedOrphanFree(cfg, t, s);
    }
  }

  lemma AssignOrphanFree(t: Table, c: SM.Conn)
    requires Inv(t) && OrphanFree(t) && Enabled(t, Assign(c))
    ensures OrphanFree(ApplyAssign(t, c))
  {
    QuietStepOrphanFree(t, ApplyAssign(t, c));
  }

  lemma HandlerOrphanFree(cfg: SM.Config, t: Table, s: Step)
    requires Inv(t) && OrphanFree(t) && Enabled(t, s) && (s.Enter? ==> s.c in t.conns)
    requires s.Enter? || s.Touch? || s.Decide? || s.Reject? || s.FinishWrite? || s.CloseFailed?
    ensures OrphanFree(Apply(cfg, t, s))
  {
    QuietStepOrphanFree(t, Apply(cfg, t, s));
  }

  lemma SharedOrphanFree(cfg: SM.Config, t: Table, s: Step)
    requires Inv(t) && OrphanFree(t) && Enabled(t, s)
    requires s.SweepClose? || s.SweepDone? || s.Hangup? || s.UdpLookup? || s.UdpTouch? || s.UdpMarkTunnel? || s.UdpDone?
    ensures OrphanFree(Apply(cfg, t, s))
  {
    QuietStepOrphanFree(t, Apply(cfg, t, s));
  }

  ghost predicate NoLateBind(cfg: SM.Config, t: Table, ss: seq<Step>)
    requires Runs(cfg, t, ss)
    decreases |ss|
  {
    |ss| > 0 ==> !LateBind(t, ss[0]) && NoLateBind(cfg, Apply(cfg, t, ss[0]), ss[1..])
  }

  // ---------- with fresh session ids ----------

  /** The id object r has, or is about to be given by the handler that holds it. */
  function Claim(t: Table, r: Ref): string
    requires r in t.heap && r in t.owner
  {
    if t.heap[r].sessionID != "" then t.heap[r].sessionID
    else if PcOf(t, t.owner[r]).InAuth? && PcOf(t, t.owner[r]).r == r then PcOf(t, t.owner[r]).sid
    else ""
  }

  ghost predicate UniqueClaims(t: Table)
    requires t.owner.Keys == t.heap.Keys
  {
    forall q, r | q in t.heap && r in t.heap && q != r :: Claim(t, q) == "" || Claim(t, q) != Claim(t, r)
  }

  /** The id handed out by this step, if it hands one out, belongs to nobody. */
  ghost predicate FreshStep(cfg: SM.Config, t: Table, s: Step)
    requires Enabled(t, s) && t.owner.Keys == t.heap.Keys
  {
    s.Decide? && Decision(cfg, t.heap[PcOf(t, s.c).r], PcOf(t, s.c).r, s.frame, s.env).InAuth? && s.env.newSessionID != "" ==>
      forall r | r in t.heap :: Claim(t, r) != s.env.newSessionID
  }

  /** An object that left the connection index with this id. */
  predicate Gone(t: Table, r: Ref, sid: string) {
    r in t.heap && t.heap[r].sessionID == sid && !InTable(t, r)
  }

  /** The state in the connection index for c is bound under its id, unless its handler is about to bind it. */
  predicate BoundOrBinding(t: Table, c: SM.Conn)
    requires c in t.conns
  {
    var r := t.conns[c];
    && r in t.heap
    && (t.heap[r].sessionID != "" && PcOf(t, c) != InAuth(r, t.heap[r].sessionID, AUTH_ASSIGNMENTS) ==>
          t.heap[r].sessionID in t.bySID && t.bySID[t.heap[r].sessionID] == r)
  }

  ghost predicate SweptAreGone(t: Table) {
    forall sid | SweepOwes(t, sid) :: sid != "" && exists r :: Gone(t, r, sid)
  }

  ghost predicate UnbindingIsGone(t: Table) {
    forall c | PcOf(t, c).Unbinding? && PcOf(t, c).st.Some? :: !InTable(t, PcOf(t, c).st.value)
  }

  /** Every state in the connection index is bound or about to be, and whatever is about to be unbound
      belongs to an object that left the index. */
  ghost predicate Complete(t: Table) {
    (forall c | c in t.conns :: BoundOrBinding(t, c)) && SweptAreGone(t) && UnbindingIsGone(t)
  }

  ghost predicate FreshInv(t: Table) {
    Inv(t) && UniqueClaims(t) && Complete(t)
  }

  predicate Quiescent(t: Table) {
    t.sweep.SweepIdle? && t.udp.UdpIdle? && forall c | c in t.pcs :: t.pcs[c].Reading?
  }

  /** The session index maps sid to r exactly when the connection index holds r and r carries sid. */
  ghost predicate Exact(t: Table) {
    forall sid, r :: (sid in t.bySID && t.bySID[sid] == r) <==> (InTable(t, r) && r in t.heap && sid != "" && t.heap[r].sessionID == sid)
  }

  /** Between handlers, the indices agree exactly if and only if there is no orphan. */
  lemma QuiescentAgreementIff(t: Table)
    requires FreshInv(t) && Quiescent(t)
    ensures Exact(t) <==> OrphanFree(t)
  {
    if OrphanFree(t) {
      forall sid, r ensures (sid in t.bySID && t.bySID[sid] == r) <==> (InTable(t, r) && r in t.heap && sid != "" && t.heap[r].sessionID == sid) {
        if sid in t.bySID && t.bySID[sid] == r {
          assert !Orphan(t, sid) && !SweepOwes(t, sid) && PcOf(t, t.owner[r]) == Reading;
        }
        if InTable(t, r) && r in t.heap && sid != "" && t.heap[r].sessionID == sid {
          assert BoundOrBinding(t, t.owner[r]) && PcOf(t, t.owner[r]) == Reading;
        }
      }
    } else {
      var sid :| sid in t.bySID && Orphan(t, sid);
      assert !InTable(t, t.bySID[sid]);
    }
  }

  // ---------- what steps keep when ids are fresh ----------

  /** No step forgets an object, changes an id once given, or puts an object back into the connection index. */
  lemma StepFootprint(cfg: SM.Config, t: Table, s: Step, r: Ref)
    requires Inv(t) && Enabled(t, s) && r in t.heap
    ensures var t' := Apply(cfg, t, s);
      && r in t'.heap && r in t'.owner && t'.owner[r] == t.owner[r]
      && (t.heap[r].sessionID != "" ==> t'.heap[r].sessionID == t.heap[r].sessionID)
      && (InTable(t', r) ==> InTable(t, r))
  {
    if s.Assign? {
      AssignFootprint(t, s.c, r);
    } else if s.Enter? || s.Touch? || s.Decide? || s.Bind? || s.Reject? || s.FinishWrite? || s.CloseFailed? || s.Detach? || s.Unbind? {
      HandlerFootprint(cfg, t, s, r);
    } else if s.UdpLookup? || s.UdpTouch? || s.UdpMarkTunnel? || s.UdpDone? {
      UdpFootprint(cfg, t, s, r);
    } else {
      SweepFootprint(cfg, t, s, r);
    }
  }

  lemma HandlerFootprint(cfg: SM.Config, t: Table, s: Step, r: Ref)
    requires Inv(t) && Enabled(t, s) && r in t.heap
    requires s.Enter? || s.Touch? || s.Decide? || s.Bind? || s.Reject? || s.FinishWrite? || s.CloseFailed? || s.Detach? || s.Unbind?
    ensures var t' := Apply(cfg, t, s);
      && r in t'.heap && r in t'.owner && t'.owner[r] == t.owner[r]
      && t'.heap[r].sessionID == t.heap[r].sessionID && (InTable(t', r) ==> InTable(t, r))
  {
  }

  lemma SweepFootprint(cfg: SM.Config, t: Table, s: Step, r: Ref)
    requires Inv(t) && Enabled(t, s) && r in t.heap
    requires s.Sweep? || s.SweepUnbind? || s.SweepClose? || s.SweepDone? || s.Hangup?
    ensures var t' := Apply(cfg, t, s);
      t'.heap == t.heap && t'.owner == t.owner && t'.pcs == t.pcs && (InTable(t', r) ==> InTable(t, r))
  {
  }

  lemma UdpFootprint(cfg: SM.Config, t: Table, s: Step, r: Ref)
    requires Inv(t) && Enabled(t, s) && r in t.heap
    requires s.UdpLookup? || s.UdpTouch? || s.UdpMarkTunnel? || s.UdpDone?
    ensures var t' := Apply(cfg, t, s);
      && r in t'.heap && r in t'.owner && t'.owner[r] == t.owner[r] && t'.pcs == t.pcs
      && t'.heap[r].sessionID == t.heap[r].sessionID && (InTable(t', r) ==> InTable(t, r))
  {
  }

  lemma AssignFootprint(t: Table, c: SM.Conn, r: Ref)
    requires Inv(t) && Enabled(t, Assign(c)) && r in t.heap
    ensures var t' := ApplyAssign(t, c);
      && r in t'.heap && (t.heap[r].sessionID != "" ==> t'.heap[r].sessionID == t.heap[r].sessionID)
      && Claim(t', r) == Claim(t, r)
      && (t'.heap[r].sessionID != t.heap[r].sessionID ==> PcOf(t', c) == InAuth(r, t'.heap[r].sessionID, AUTH_ASSIGNMENTS))
  {
    assert c in t.pcs && HandlerOk(t, c);
  }

  predicate HandsOut(cfg: SM.Config, t: Table, s: Step)
    requires Enabled(t, s)
  {
    s.Decide? && Decision(cfg, t.heap[PcOf(t, s.c).r], PcOf(t, s.c).r, s.frame, s.env).InAuth?
  }

  lemma DecideClaims(t: Table, c: SM.Conn, pc: Pc, r: Ref)
    requires Inv(t) && PcOf(t, c).Touched? && r in t.heap
    requires pc.InAuth? ==> pc.r == PcOf(t, c).r && pc.sid != "" && t.heap[pc.r].sessionID == ""
    ensures var t' := Goto(t, c, pc);
      Claim(t', r) == Claim(t, r) || (pc.InAuth? && Claim(t, r) == "" && Claim(t', r) == pc.sid && PcOf(t, c).r == r)
  {
  }

  lemma ClaimUnmoved(t: Table, t': Table, c: SM.Conn, pc: Pc, r: Ref)
    requires r in t.heap && r in t.owner && r in t'.heap && r in t'.owner
    requires t'.owner[r] == t.owner[r] && t'.heap[r].sessionID == t.heap[r].sessionID
    requires t'.pcs == t.pcs[c := pc] && !pc.InAuth? && !PcOf(t, c).InAuth?
    ensures Claim(t', r) == Claim(t, r)
  {
  }

  lemma MovedClaims(cfg: SM.Config, t: Table, s: Step, r: Ref)
    requires Inv(t) && Enabled(t, s) && r in t.heap
    requires s.Enter? || s.Touch? || s.Reject? || s.FinishWrite? || s.CloseFailed? || s.Detach? || s.Unbind?
    ensures var t' := Apply(cfg, t, s);
      r in t'.heap && r in t'.owner && Claim(t', r) == Claim(t, r)
  {
    ClaimUnmoved(t, Apply(cfg, t, s), s.c, PcOf(Apply(cfg, t, s), s.c), r);
  }

  lemma SharedClaims(cfg: SM.Config, t: Table, s: Step, r: Ref)
    requires Inv(t) && Enabled(t, s) && r in t.heap
    requires s.Sweep? || s.SweepUnbind? || s.SweepClose? || s.SweepDone? || s.Hangup? || s.UdpLookup? || s.UdpTouch? || s.UdpMarkTunnel? || s.UdpDone?
    ensures var t' := Apply(cfg, t, s);
      r in t'.heap && r in t'.owner && Claim(t', r) == Claim(t, r)
  {
    SameHandlersSameClaims(t, Apply(cfg, t, s), r);
  }

  lemma SameHandlersSameClaims(t: Table, t': Table, r: Ref)
    requires r in t.heap && r in t.owner && r in t'.heap && r in t'.owner
    requires t'.owner[r] == t.owner[r] && t'.heap[r].sessionID == t.heap[r].sessionID && t'.pcs == t.pcs
    ensures Claim(t', r) == Claim(t, r)
  {
  }

  lemma StepClaims(cfg: SM.Config, t: Table, s: Step, r: Ref)
    requires Inv(t) && Enabled(t, s) && r in t.heap
    ensures var t' := Apply(cfg, t, s);
      && r in t'.heap && r in t'.owner
      && (Claim(t', r) == Claim(t, r) ||
          (HandsOut(cfg, t, s) && Claim(t, r) == "" && Claim(t', r) == s.env.newSessionID && PcOf(t, s.c).r == r))
  {
    StepFootprint(cfg, t, s, r);
    if s.Assign? {
      AssignFootprint(t, s.c, r);
    } else if s.Decide? {
      assert s.c in t.pcs && HandlerOk(t, s.c);
      var pc := Decision(cfg, t.heap[PcOf(t, s.c).r], PcOf(t, s.c).r, s.frame, s.env);
      if pc.InAuth? && pc.sid == "" {
        assert Claim(Goto(t, s.c, pc), r) == Claim(t, r);
      } else {
        DecideClaims(t, s.c, pc, r);
      }
    } else if s.Bind? {
      assert s.c in t.pcs && HandlerOk(t, s.c);
    } else if s.Enter? || s.Touch? || s.Reject? || s.FinishWrite? || s.CloseFailed? || s.Detach? || s.Unbind? {
      MovedClaims(cfg, t, s, r);
    } else {
      SharedClaims(cfg, t, s, r);
    }
  }

  lemma StepKeepsUniqueClaims(cfg: SM.Config, t: Table, s: Step)
    requires FreshInv(t) && Enabled(t, s) && FreshStep(cfg, t, s)
    ensures Inv(Apply(cfg, t, s)) && UniqueClaims(Apply(cfg, t, s))
  {
    StepKeepsInv(cfg, t, s);
    var t' := Apply(cfg, t, s);
    forall q, r | q in t'.heap && r in t'.heap && q != r ensures Claim(t', q) == "" || Claim(t', q) != Claim(t', r) {
      if q in t.heap && r in t.heap {
        StepClaims(cfg, t, s, q);
        StepClaims(cfg, t, s, r);
      } else {
        NewObjectClaimsNothing(cfg, t, s, if q in t.heap then r else q);
        assert Claim(t', q) == "" || Claim(t', r) == "";
      }
    }
  }

  lemma NewObjectClaimsNothing(cfg: SM.Config, t: Table, s: Step, r: Ref)
    requires Inv(t) && Enabled(t, s) && r !in t.heap
    requires r in Apply(cfg, t, s).heap && r in Apply(cfg, t, s).owner
    ensures s.Enter? && s.r == r && Claim(Apply(cfg, t, s), r) == ""
  {
  }

  lemma StepKeepsSweptGone(cfg: SM.Config, t: Table, s: Step)
    requires FreshInv(t) && Enabled(t, s)
    ensures SweptAreGone(Apply(cfg, t, s))
  {
    var t' := Apply(cfg, t, s);
    forall sid | SweepOwes(t', sid) ensures sid != "" && exists r :: Gone(t', r, sid) {
      if SweepOwes(t, sid) {
        var r :| Gone(t, r, sid);
        StepFootprint(cfg, t, s, r);
        assert Gone(t', r, sid);
      } else {
        var c :| c in SweptRefs(cfg, t, s.now) && t.heap[t.conns[c]].sessionID == sid;
        assert Gone(t', t.conns[c], sid);
      }
    }
  }

  lemma StepKeepsUnbindingGone(cfg: SM.Config, t: Table, s: Step)
    requires FreshInv(t) && Enabled(t, s)
    ensures UnbindingIsGone(Apply(cfg, t, s))
  {
    var t' := Apply(cfg, t, s);
    forall c | PcOf(t', c).Unbinding? && PcOf(t', c).st.Some? ensures !InTable(t', PcOf(t', c).st.value) {
      OnlyDetachUnbinds(cfg, t, s, c);
      if PcOf(t, c).Unbinding? {
        assert c in t.pcs && HandlerOk(t, c);
        StepFootprint(cfg, t, s, PcOf(t, c).st.value);
      }
    }
  }

  /** A handler comes to unbind an id only by detaching its connection. */
  lemma OnlyDetachUnbinds(cfg: SM.Config, t: Table, s: Step, c: SM.Conn)
    requires Inv(t) && Enabled(t, s)
    requires PcOf(Apply(cfg, t, s), c).Unbinding?
    ensures PcOf(t, c).Unbinding? ==> PcOf(Apply(cfg, t, s), c) == PcOf(t, c)
    ensures !PcOf(t, c).Unbinding? ==> s == Detach(c) && c !in Apply(cfg, t, s).conns
    ensures !PcOf(t, c).Unbinding? && PcOf(Apply(cfg, t, s), c).st.Some? ==> !InTable(Apply(cfg, t, s), PcOf(Apply(cfg, t, s), c).st.value)
  {
  }

  /** Taking an id out of the session index spares every state in the connection index, if the object
      the id belongs to has left it. */
  lemma UnbindSpares(t: Table, gone: Ref, sid: string, c: SM.Conn)
    requires FreshInv(t) && Gone(t, gone, sid) && sid != "" && c in t.conns
    ensures t.conns[c] in t.heap && t.heap[t.conns[c]].sessionID != sid
  {
    assert BoundOrBinding(t, c);
    assert InTable(t, t.conns[c]);
    assert Claim(t, gone) == sid;
    assert Claim(t, t.conns[c]) == "" || Claim(t, t.conns[c]) != Claim(t, gone);
  }

  lemma UnbindKeepsBound(t: Table, t': Table, c: SM.Conn)
    requires FreshInv(t) && PcOf(t, c).Unbinding?
    requires var st := PcOf(t, c).st;
      t' == Goto(if st.Some? && st.value in t.heap then t.(bySID := t.bySID - {t.heap[st.value].sessionID}) else t, c, Reading)
    ensures forall d | d in t'.conns :: BoundOrBinding(t', d)
  {
    assert c in t.pcs && HandlerOk(t, c);
    var st := PcOf(t, c).st;
    forall d | d in t'.conns ensures BoundOrBinding(t', d) {
      assert BoundOrBinding(t, d);
      if st.Some? && t.heap[st.value].sessionID != "" {
        UnbindSpares(t, st.value, t.heap[st.value].sessionID, d);
      }
    }
  }

  lemma SweepUnbindKeepsBound(t: Table, t': Table, sid: string)
    requires FreshInv(t) && SweepOwes(t, sid)
    requires t'.bySID == t.bySID - {sid} && t'.conns == t.conns && t'.heap == t.heap && t'.pcs == t.pcs
    ensures forall d | d in t'.conns :: BoundOrBinding(t', d)
  {
    var gone :| Gone(t, gone, sid);
    forall d | d in t'.conns ensures BoundOrBinding(t', d) {
      assert BoundOrBinding(t, d);
      UnbindSpares(t, gone, sid, d);
    }
  }

  lemma BindKeepsBound(cfg: SM.Config, t: Table, c: SM.Conn)
    requires FreshInv(t) && Enabled(t, Bind(c))
    ensures forall d | d in Apply(cfg, t, Bind(c)).conns :: BoundOrBinding(Apply(cfg, t, Bind(c)), d)
  {
    var t' := Apply(cfg, t, Bind(c));
    assert c in t.pcs && HandlerOk(t, c);
    var sid, r := PcOf(t, c).sid, PcOf(t, c).r;
    forall d | d in t'.conns ensures BoundOrBinding(t', d) {
      assert BoundOrBinding(t, d);
      if t.conns[d] != r && sid != "" {
        assert Claim(t, r) == sid;
        assert Claim(t, t.conns[d]) == "" || Claim(t, t.conns[d]) != Claim(t, r);
      }
    }
  }

  lemma AssignKeepsBound(t: Table, c: SM.Conn)
    requires FreshInv(t) && Enabled(t, Assign(c))
    ensures forall d | d in ApplyAssign(t, c).conns :: BoundOrBinding(ApplyAssign(t, c), d)
  {
    var t' := ApplyAssign(t, c);
    assert c in t.pcs && HandlerOk(t, c);
    forall d | d in t'.conns ensures BoundOrBinding(t', d) {
      assert BoundOrBinding(t, d);
      AssignFootprint(t, c, t.conns[d]);
      assert t.owner[t.conns[d]] == d;
    }
  }

  /** A change that binds and unbinds nothing, gives nobody an id and takes nobody out of a pending binding. */
  lemma QuietKeepsBound(t: Table, t': Table)
    requires FreshInv(t) && t'.bySID == t.bySID && t'.conns.Keys <= t.conns.Keys
    requires forall d | d in t'.conns :: t'.conns[d] == t.conns[d]
    requires forall r | r in t.heap :: r in t'.heap && t'.heap[r].sessionID == t.heap[r].sessionID
    requires forall d | PcOf(t, d).InAuth? :: PcOf(t', d) == PcOf(t, d)
    ensures forall d | d in t'.conns :: BoundOrBinding(t', d)
  {
    forall d | d in t'.conns ensures BoundOrBinding(t', d) {
      assert BoundOrBinding(t, d);
    }
  }

  lemma EnterKeepsBound(t: Table, t': Table, c: SM.Conn, r: Ref, now: int)
    requires FreshInv(t) && r !in t.heap && c !in t.conns && PcOf(t, c).Reading?
    requires t' == Goto(t.(heap := t.heap[r := SM.Fresh(now)], owner := t.owner[r := c], conns := t.conns[c := r]), c, Got(r))
    ensures forall d | d in t'.conns :: BoundOrBinding(t', d)
  {
    forall d | d in t'.conns ensures BoundOrBinding(t', d) {
      assert d != c ==> BoundOrBinding(t, d);
    }
  }

  lemma HandlerMoveKeepsBound(cfg: SM.Config, t: Table, s: Step)
    requires FreshInv(t) && Enabled(t, s)
    requires s.Touch? || s.Decide? || s.Reject? || s.FinishWrite? || s.CloseFailed? || s.Detach?
    ensures forall d | d in Apply(cfg, t, s).conns :: BoundOrBinding(Apply(cfg, t, s), d)
  {
    var t' := Apply(cfg, t, s);
    assert t'.pcs == t.pcs[s.c := PcOf(t', s.c)] && !PcOf(t, s.c).InAuth?;
    QuietKeepsBound(t, t');
  }

  lemma SharedKeepsBound(cfg: SM.Config, t: Table, s: Step)
    requires FreshInv(t) && Enabled(t, s)
    requires s.Sweep? || s.SweepClose? || s.SweepDone? || s.Hangup? || s.UdpLookup? || s.UdpTouch? || s.UdpMarkTunnel? || s.UdpDone?
    ensures forall d | d in Apply(cfg, t, s).conns :: BoundOrBinding(Apply(cfg, t, s), d)
  {
    var t' := Apply(cfg, t, s);
    if s.UdpTouch? || s.UdpMarkTunnel? {
      UdpKeepsBound(t, t', t.udp.r);
    } else {
      assert t'.heap == t.heap;
      QuietKeepsBound(t, t');
    }
  }

  lemma UdpKeepsBound(t: Table, t': Table, r: Ref)
    requires FreshInv(t) && r in t.heap && r in t'.heap && t'.heap[r].sessionID == t.heap[r].sessionID
    requires t' == t.(heap := t.heap[r := t'.heap[r]])
    ensures forall d | d in t'.conns :: BoundOrBinding(t', d)
  {
    QuietKeepsBound(t, t');
  }

  /** Every step whose id is fresh keeps every state in the connection index bound or about to be bound. */
  lemma StepKeepsFreshInv(cfg: SM.Config, t: Table, s: Step)
    requires FreshInv(t) && Enabled(t, s) && FreshStep(cfg, t, s)
    ensures FreshInv(Apply(cfg, t, s))
  {
    StepKeepsUniqueClaims(cfg, t, s);
    StepKeepsSweptGone(cfg, t, s);
    StepKeepsUnbindingGone(cfg, t, s);
    StepKeepsBound(cfg, t, s);
  }

  lemma StepKeepsBound(cfg: SM.Config, t: Table, s: Step)
    requires FreshInv(t) && Enabled(t, s)
    ensures forall d | d in Apply(cfg, t, s).conns :: BoundOrBinding(Apply(cfg, t, s), d)
  {
    match s
    case Unbind(c) => UnbindKeepsBound(t, Apply(cfg, t, s), c);
    case SweepUnbind(sid) => SweepUnbindKeepsBound(t, Apply(cfg, t, s), sid);
    case Bind(c) => BindKeepsBound(cfg, t, c);
    case Assign(c) => AssignKeepsBound(t, c);
    case Enter(c, r, now) =>
      if c in t.conns { QuietKeepsBound(t, Apply(cfg, t, s)); } else { EnterKeepsBound(t, Apply(cfg, t, s), c, r, now); }
    case Touch(_, _) => HandlerMoveKeepsBound(cfg, t, s);
    case Decide(_, _, _) => HandlerMoveKeepsBound(cfg, t, s);
    case Reject(_) => HandlerMoveKeepsBound(cfg, t, s);
    case FinishWrite(_, _) => HandlerMoveKeepsBound(cfg, t, s);
    case CloseFailed(_) => HandlerMoveKeepsBound(cfg, t, s);
    case Detach(_) => HandlerMoveKeepsBound(cfg, t, s);
    case _ => SharedKeepsBound(cfg, t, s);
  }

  // ---------- runs ----------

  ghost predicate FreshRun(cfg: SM.Config, t: Table, ss: seq<Step>)
    requires Runs(cfg, t, ss) && Inv(t)
    decreases |ss|
  {
    |ss| > 0 ==>
      && FreshStep(cfg, t, ss[0])
      && (StepKeepsInv(cfg, t, ss[0]); FreshRun(cfg, Apply(cfg, t, ss[0]), ss[1..]))
  }

  /** Only the orphan's own object claims its id. */
  lemma OrphanClaims(t: Table, sid: string, q: Ref)
    requires FreshInv(t) && Orphan(t, sid) && q in t.heap && Claim(t, q) == sid
    ensures q == t.bySID[sid]
  {
    assert Claim(t, t.bySID[sid]) == sid;
  }

  lemma OrphanStays(t: Table, t': Table, sid: string)
    requires Inv(t) && Orphan(t, sid)
    requires sid in t'.bySID && t'.bySID[sid] == t.bySID[sid] && t.bySID[sid] in t'.owner && t'.owner[t.bySID[sid]] == t.owner[t.bySID[sid]]
    requires !InTable(t', t.bySID[sid]) && !SweepOwes(t', sid)
    requires PcOf(t', t.owner[t.bySID[sid]]) != Unbinding(Some(t.bySID[sid]))
    ensures Orphan(t', sid)
  {
  }

  lemma OrphanSurvivesBind(cfg: SM.Config, t: Table, c: SM.Conn, sid: string)
    requires FreshInv(t) && Enabled(t, Bind(c)) && Orphan(t, sid)
    ensures Orphan(Apply(cfg, t, Bind(c)), sid) && Apply(cfg, t, Bind(c)).bySID[sid] == t.bySID[sid]
  {
    assert c in t.pcs && HandlerOk(t, c);
    var q := PcOf(t, c).r;
    if PcOf(t, c).sid == sid { OrphanClaims(t, sid, q); }
  }

  lemma OrphanSurvivesUnbind(cfg: SM.Config, t: Table, c: SM.Conn, sid: string)
    requires FreshInv(t) && Enabled(t, Unbind(c)) && Orphan(t, sid)
    ensures Orphan(Apply(cfg, t, Unbind(c)), sid) && Apply(cfg, t, Unbind(c)).bySID[sid] == t.bySID[sid]
  {
    assert c in t.pcs && HandlerOk(t, c);
    var st := PcOf(t, c).st;
    if st.Some? && t.heap[st.value].sessionID == sid { OrphanClaims(t, sid, st.value); }
  }

  lemma OrphanSurvivesSweep(cfg: SM.Config, t: Table, now: int, sid: string)
    requires FreshInv(t) && Enabled(t, Sweep(now)) && Orphan(t, sid)
    ensures Orphan(Apply(cfg, t, Sweep(now)), sid)
  {
    forall c | c in t.conns ensures t.heap[t.conns[c]].sessionID != sid {
      if t.heap[t.conns[c]].sessionID == sid { OrphanClaims(t, sid, t.conns[c]); }
    }
  }

  lemma OrphanSurvivesHandler(cfg: SM.Config, t: Table, s: Step, sid: string)
    requires FreshInv(t) && Enabled(t, s) && Orphan(t, sid)
    requires s.Enter? || s.Touch? || s.Decide? || s.Assign? || s.Reject? || s.FinishWrite? || s.CloseFailed? || s.Detach?
    ensures Orphan(Apply(cfg, t, s), sid) && Apply(cfg, t, s).bySID[sid] == t.bySID[sid]
  {
    StepFootprint(cfg, t, s, t.bySID[sid]);
    OrphanStays(t, Apply(cfg, t, s), sid);
  }

  lemma OrphanSurvivesShared(cfg: SM.Config, t: Table, s: Step, sid: string)
    requires FreshInv(t) && Enabled(t, s) && Orphan(t, sid)
    requires s.SweepUnbind? || s.SweepClose? || s.SweepDone? || s.Hangup? || s.UdpLookup? || s.UdpTouch? || s.UdpMarkTunnel? || s.UdpDone?
    ensures Orphan(Apply(cfg, t, s), sid) && Apply(cfg, t, s).bySID[sid] == t.bySID[sid]
  {
    OrphanStays(t, Apply(cfg, t, s), sid);
  }

  lemma OrphanSurvivesStep(cfg: SM.Config, t: Table, s: Step, sid: string)
    requires FreshInv(t) && Enabled(t, s) && Orphan(t, sid)
    ensures Orphan(Apply(cfg, t, s), sid) && Apply(cfg, t, s).bySID[sid] == t.bySID[sid]
  {
    match s
    case Bind(c) => OrphanSurvivesBind(cfg, t, c, sid);
    case Unbind(c) => OrphanSurvivesUnbind(cfg, t, c, sid);
    case Sweep(now) => OrphanSurvivesSweep(cfg, t, now, sid);
    case _ =>
      if s.Enter? || s.Touch? || s.Decide? || s.Assign? || s.Reject? || s.FinishWrite? || s.CloseFailed? || s.Detach? {
        OrphanSurvivesHandler(cfg, t, s, sid);
      } else {
        OrphanSurvivesShared(cfg, t, s, sid);
      }
  }

  /** Once bound late, a session id stays bound to its abandoned state for the rest of every run: no
      failure, write error or sweep ever unbinds it. */
  lemma {:induction false} OrphanForever(cfg: SM.Config, t: Table, ss: seq<Step>, sid: string)
    requires FreshInv(t) && Orphan(t, sid) && Runs(cfg, t, ss) && FreshRun(cfg, t, ss)
    ensures Orphan(Run(cfg, t, ss), sid) && Run(cfg, t, ss).bySID[sid] == t.bySID[sid]
    decreases |ss|
  {
    if |ss| > 0 {
      StepKeepsFreshInv(cfg, t, ss[0]);
      OrphanSurvivesStep(cfg, t, ss[0], sid);
      OrphanForever(cfg, Apply(cfg, t, ss[0]), ss[1..], sid);
    }
  }

  lemma {:induction false} OrphanFreeWithoutLateBind(cfg: SM.Config, t: Table, ss: seq<Step>)
    requires FreshInv(t) && OrphanFree(t) && Runs(cfg, t, ss) && FreshRun(cfg, t, ss)
    ensures FreshInv(Run(cfg, t, ss))
    ensures OrphanFree(Run(cfg, t, ss)) <==> NoLateBind(cfg, t, ss)
    decreases |ss|
  {
    if |ss| > 0 {
      var t1 := Apply(cfg, t, ss[0]);
      StepKeepsFreshInv(cfg, t, ss[0]);
      StepOrphanFreeIff(cfg, t, ss[0]);
      if OrphanFree(t1) {
        OrphanFreeWithoutLateBind(cfg, t1, ss[1..]);
      } else {
        var sid :| sid in t1.bySID && Orphan(t1, sid);
        OrphanForever(cfg, t1, ss[1..], sid);
        RunKeepsFreshInv(cfg, t1, ss[1..]);
      }
    }
  }

  lemma {:induction false} RunKeepsFreshInv(cfg: SM.Config, t: Table, ss: seq<Step>)
    requires FreshInv(t) && Runs(cfg, t, ss) && FreshRun(cfg, t, ss)
    ensures FreshInv(Run(cfg, t, ss))
    decreases |ss|
  {
    if |ss| > 0 {
      StepKeepsFreshInv(cfg, t, ss[0]);
      RunKeepsFreshInv(cfg, Apply(cfg, t, ss[0]), ss[1..]);
    }
  }

  /** With fresh ids, when a run has come to rest the two indices agree exactly if and only if the run
      bound no state late. */
  lemma RunAgreesAtRestIff(cfg: SM.Config, t: Table, ss: seq<Step>)
    requires FreshInv(t) && OrphanFree(t) && Runs(cfg, t, ss) && FreshRun(cfg, t, ss) && Quiescent(Run(cfg, t, ss))
    ensures Exact(Run(cfg, t, ss)) <==> NoLateBind(cfg, t, ss)
  {
    OrphanFreeWithoutLateBind(cfg, t, ss);
    QuiescentAgreementIff(Run(cfg, t, ss));
  }

  // ---------- late bindings happen ----------

  /** No peer hangs up and no handler closes its connection. */
  ghost predicate Undisturbed(ss: seq<Step>) {
    forall s | s in ss :: !s.Hangup? && !s.CloseFailed?
  }

  ghost predicate ReachesBy(cfg: SM.Config, ss: seq<Step>, t: Table) {
    Inv(Start()) && Runs(cfg, Start(), ss) && FreshRun(cfg, Start(), ss) && Undisturbed(ss) && Run(cfg, Start(), ss) == t
  }

  /** Some run from the empty table, with fresh ids, undisturbed, ends in this table. */
  ghost predicate Reaches(cfg: SM.Config, t: Table) {
    exists ss :: ReachesBy(cfg, ss, t)
  }

  lemma {:induction false} RunAppend(cfg: SM.Config, t: Table, ss: seq<Step>, s: Step)
    requires Inv(t) && Runs(cfg, t, ss) && FreshRun(cfg, t, ss)
    requires Enabled(Run(cfg, t, ss), s) && Inv(Run(cfg, t, ss)) && FreshStep(cfg, Run(cfg, t, ss), s)
    ensures Runs(cfg, t, ss + [s]) && FreshRun(cfg, t, ss + [s])
    ensures Run(cfg, t, ss + [s]) == Apply(cfg, Run(cfg, t, ss), s)
    decreases |ss|
  {
    if |ss| == 0 {
      assert ss + [s] == [s];
      StepKeepsInv(cfg, t, s);
    } else {
      StepKeepsInv(cfg, t, ss[0]);
      RunAppend(cfg, Apply(cfg, t, ss[0]), ss[1..], s);
      assert (ss + [s])[1..] == ss[1..] + [s];
    }
  }

  lemma ReachStep(cfg: SM.Config, t: Table, s: Step, t': Table)
    requires Reaches(cfg, t) && FreshInv(t) && Enabled(t, s) && FreshStep(cfg, t, s) && t' == Apply(cfg, t, s)
    requires !s.Hangup? && !s.CloseFailed?
    ensures Reaches(cfg, t') && FreshInv(t')
  {
    StepKeepsFreshInv(cfg, t, s);
    var ss :| ReachesBy(cfg, ss, t);
    RunAppend(cfg, Start(), ss, s);
    assert ReachesBy(cfg, ss + [s], t');
  }

  const NONCE: Nonce16 := [7, 7, 7, 7, 7, 7, 7, 7, 7, 7, 7, 7, 7, 7, 7, 7]
  const CONFIG: SM.Config := SM.Config(Private(1), "", 1500, 120, 300, false, true)
  const KEY: Key := SessionKey(Shared(1, 2), NONCE, NONCE)
  const VERDICT: SM.HelloVerdict := SM.HelloAccepted(KEY, "v2", NONCE)

  /** When the sweep comes: just after the idle limit. */
  const LATER: int := 301 * SM.SECOND

  function EnvAt(now: int, sid: string): SM.Env {
    SM.Env(now, now, Some(NONCE), sid, 0, true, true, true, true, true, true)
  }

  lemma ReachQuiet(cfg: SM.Config, t: Table, s: Step, t': Table)
    requires Reaches(cfg, t) && FreshInv(t) && Enabled(t, s) && !s.Decide? && !s.Hangup? && !s.CloseFailed? && t' == Apply(cfg, t, s)
    ensures Reaches(cfg, t') && FreshInv(t')
  {
    ReachStep(cfg, t, s, t');
  }

  ghost predicate Reached(t: Table) {
    Reaches(CONFIG, t) && FreshInv(t)
  }

  /** One object, owned by connection 0. */
  function One(st: SM.State, conns: map<SM.Conn, Ref>, bySID: map<string, Ref>, closed: set<SM.Conn>, pc: Pc, sweep: SweepPc): Table {
    Table(map[0 := st], map[0 := 0], conns, bySID, closed, map[0 := pc], sweep, UdpIdle)
  }

  lemma Entering()
    ensures Reached(One(SM.Fresh(0), map[0 := 0], map[], {}, Got(0), SweepIdle))
  {
    var t0 := Start();
    assert ReachesBy(CONFIG, [], t0);
    ReachQuiet(CONFIG, t0, Enter(0, 0, 0), One(SM.Fresh(0), map[0 := 0], map[], {}, Got(0), SweepIdle));
  }

  lemma Touching(st: SM.State, conns: map<SM.Conn, Ref>, closed: set<SM.Conn>, now: int)
    requires Reached(One(st, conns, map[], closed, Got(0), SweepIdle))
    ensures Reached(One(st.(lastSeen := now), conns, map[], closed, Touched(0), SweepIdle))
  {
    var t' := One(st.(lastSeen := now), conns, map[], closed, Touched(0), SweepIdle);
    ReachQuiet(CONFIG, One(st, conns, map[], closed, Got(0), SweepIdle), Touch(0, now), t');
  }

  lemma Deciding(st: SM.State, conns: map<SM.Conn, Ref>, closed: set<SM.Conn>, frame: Frame, now: int, sid: string)
    requires Reached(One(st, conns, map[], closed, Touched(0), SweepIdle)) && st.sessionID == ""
    ensures Reached(One(st, conns, map[], closed, Decision(CONFIG, st, 0, frame, EnvAt(now, sid)), SweepIdle))
  {
    var t := One(st, conns, map[], closed, Touched(0), SweepIdle);
    var t' := One(st, conns, map[], closed, Decision(CONFIG, st, 0, frame, EnvAt(now, sid)), SweepIdle);
    assert Claim(t, 0) == "";
    ReachStep(CONFIG, t, Decide(0, frame, EnvAt(now, sid)), t');
  }

  lemma HelloAssigning(st: SM.State, done: nat)
    requires done < HELLO_V2_ASSIGNMENTS
    requires Reached(One(st, map[0 := 0], map[], {}, InHello(0, VERDICT, done), SweepIdle))
    ensures Reached(One(HelloAssign(st, VERDICT, done), map[0 := 0], map[], {},
                        if done + 1 == HELLO_V2_ASSIGNMENTS then Writing else InHello(0, VERDICT, done + 1), SweepIdle))
  {
    var t' := One(HelloAssign(st, VERDICT, done), map[0 := 0], map[], {},
                  if done + 1 == HELLO_V2_ASSIGNMENTS then Writing else InHello(0, VERDICT, done + 1), SweepIdle);
    ReachQuiet(CONFIG, One(st, map[0 := 0], map[], {}, InHello(0, VERDICT, done), SweepIdle), Assign(0), t');
  }

  lemma AuthAssigning(st: SM.State, sid: string, done: nat)
    requires done < AUTH_ASSIGNMENTS
    requires Reached(One(st, map[], map[], {0}, InAuth(0, sid, done), SweepIdle))
    ensures Reached(One(AuthAssign(st, sid, done), map[], map[], {0}, InAuth(0, sid, done + 1), SweepIdle))
  {
    var t' := One(AuthAssign(st, sid, done), map[], map[], {0}, InAuth(0, sid, done + 1), SweepIdle);
    ReachQuiet(CONFIG, One(st, map[], map[], {0}, InAuth(0, sid, done), SweepIdle), Assign(0), t');
  }

  lemma Writes(st: SM.State, conns: map<SM.Conn, Ref>, bySID: map<string, Ref>, closed: set<SM.Conn>)
    requires Reached(One(st, conns, bySID, closed, Writing, SweepIdle))
    ensures Reached(One(st, conns, bySID, closed, if 0 in closed then Detaching else Reading, SweepIdle))
  {
    ReachQuiet(CONFIG, One(st, conns, bySID, closed, Writing, SweepIdle), FinishWrite(0, true),
               One(st, conns, bySID, closed, if 0 in closed then Detaching else Reading, SweepIdle));
  }

  lemma HelloAccepted()
    ensures Reached(One(SM.Fresh(0), map[0 := 0], map[], {}, InHello(0, VERDICT, 0), SweepIdle))
  {
    Entering();
    Touching(SM.Fresh(0), map[0 := 0], {}, 0);
    var hello := NewHello(PublicOf(2), "", "v2", NONCE, 0);
    assert SM.JudgeHello(CONFIG, hello, EnvAt(0, "")) == VERDICT;
    Deciding(SM.Fresh(0), map[0 := 0], {}, hello, 0, "");
  }

  lemma HelloRecorded(st: SM.State)
    requires Reached(One(st, map[0 := 0], map[], {}, InHello(0, VERDICT, 0), SweepIdle))
    ensures var st' := HelloAssign(HelloAssign(HelloAssign(HelloAssign(st, VERDICT, 0), VERDICT, 1), VERDICT, 2), VERDICT, 3);
      Reached(One(st', map[0 := 0], map[], {}, Writing, SweepIdle))
  {
    HelloAssigning(st, 0);
    HelloAssigning(HelloAssign(st, VERDICT, 0), 1);
    HelloAssigning(HelloAssign(HelloAssign(st, VERDICT, 0), VERDICT, 1), 2);
    HelloAssigning(HelloAssign(HelloAssign(HelloAssign(st, VERDICT, 0), VERDICT, 1), VERDICT, 2), 3);
  }

  /** The assignments of an accepted hello add up to the state the atomic handler leaves. */
  lemma HelloAssignmentsAddUp(st: SM.State, v: SM.HelloVerdict)
    requires v.HelloAccepted?
    ensures var st3 := HelloAssign(HelloAssign(HelloAssign(st, v, 0), v, 1), v, 2);
      SM.AfterHello(st, v) == if HelloAssignments(v) == 4 then HelloAssign(st3, v, 3) else st3
  {
  }

  /** The v2 hello of connection 0 is answered at time 0. */
  lemma HelloAnswered()
    ensures Reached(One(SM.AfterHello(SM.Fresh(0), VERDICT), map[0 := 0], map[], {}, Reading, SweepIdle))
  {
    HelloAccepted();
    HelloRecorded(SM.Fresh(0));
    HelloAssignmentsAddUp(SM.Fresh(0), VERDICT);
    Writes(SM.AfterHello(SM.Fresh(0), VERDICT), map[0 := 0], map[], {});
  }

  /** The next frame has fetched its state when the sweep removes it and closes the connection. */
  lemma SweptInBetween(st: SM.State)
    requires Reached(One(st, map[0 := 0], map[], {}, Reading, SweepIdle)) && st.lastSeen == 0 && st.sessionID == ""
    ensures Reached(One(st, map[], map[], {0}, Got(0), SweepIdle))
  {
    ReachQuiet(CONFIG, One(st, map[0 := 0], map[], {}, Reading, SweepIdle), Enter(0, 1, LATER),
               One(st, map[0 := 0], map[], {}, Got(0), SweepIdle));
    SweepTakes(st);
    SweepFinishes(st);
  }

  lemma SweepFinishes(st: SM.State)
    requires Reached(One(st, map[], map[], {}, Got(0), Sweeping({}, {0})))
    ensures Reached(One(st, map[], map[], {0}, Got(0), SweepIdle))
  {
    var t := One(st, map[], map[], {}, Got(0), Sweeping({}, {0}));
    var t1 := One(st, map[], map[], {0}, Got(0), Sweeping({}, {}));
    assert t.sweep.toClose - {0} == {} && t.closed + {0} == {0};
    assert t1 == Apply(CONFIG, t, SweepClose(0));
    ReachQuiet(CONFIG, t, SweepClose(0), t1);
    ReachQuiet(CONFIG, t1, SweepDone, One(st, map[], map[], {0}, Got(0), SweepIdle));
  }

  lemma SweepTakes(st: SM.State)
    requires Reached(One(st, map[0 := 0], map[], {}, Got(0), SweepIdle)) && st.lastSeen == 0 && st.sessionID == ""
    ensures Reached(One(st, map[], map[], {}, Got(0), Sweeping({}, {0})))
  {
    var t := One(st, map[0 := 0], map[], {}, Got(0), SweepIdle);
    assert SweptRefs(CONFIG, t, LATER) == {0};
    assert SweptIDs(CONFIG, t, LATER) == {};
    assert t.conns - {0} == map[];
    ReachQuiet(CONFIG, t, Sweep(LATER), One(st, map[], map[], {}, Got(0), Sweeping({}, {0})));
  }

  lemma ProofAccepted(st: SM.State)
    requires Reached(One(st, map[], map[], {0}, Got(0), SweepIdle)) && st == SM.AfterHello(SM.Fresh(0), VERDICT)
    ensures Reached(One(st.(lastSeen := LATER), map[], map[], {0}, InAuth(0, "sid", 0), SweepIdle))
  {
    Touching(st, map[], {0}, LATER);
    var proof := Auth("v2", ProofTag(KEY, st.pendingTicket));
    assert Decision(CONFIG, st.(lastSeen := LATER), 0, proof, EnvAt(LATER, "sid")) == InAuth(0, "sid", 0);
    Deciding(st.(lastSeen := LATER), map[], {0}, proof, LATER, "sid");
  }

  lemma AuthRecorded(st: SM.State, sid: string)
    requires Reached(One(st, map[], map[], {0}, InAuth(0, sid, 0), SweepIdle))
    ensures var st' := AuthAssign(AuthAssign(AuthAssign(AuthAssign(st, sid, 0), sid, 1), sid, 2), sid, 3);
      Reached(One(st', map[], map[], {0}, InAuth(0, sid, 4), SweepIdle))
  {
    AuthAssigning(st, sid, 0);
    AuthAssigning(AuthAssign(st, sid, 0), sid, 1);
    AuthAssigning(AuthAssign(AuthAssign(st, sid, 0), sid, 1), sid, 2);
    AuthAssigning(AuthAssign(AuthAssign(AuthAssign(st, sid, 0), sid, 1), sid, 2), sid, 3);
  }

  /** The four assignments of an accepted proof add up to the state the atomic handler leaves. */
  lemma AuthAssignmentsAddUp(st: SM.State, sid: string)
    ensures AuthAssign(AuthAssign(AuthAssign(AuthAssign(st, sid, 0), sid, 1), sid, 2), sid, 3) == SM.AfterAuth(st, sid)
  {
  }

  lemma BindingAfterSweep(st: SM.State)
    requires Reached(One(st, map[], map[], {0}, InAuth(0, "sid", 4), SweepIdle))
    ensures Reached(One(st, map[], map["sid" := 0], {0}, Writing, SweepIdle))
  {
    ReachQuiet(CONFIG, One(st, map[], map[], {0}, InAuth(0, "sid", 4), SweepIdle), Bind(0),
               One(st, map[], map["sid" := 0], {0}, Writing, SweepIdle));
  }

  lemma Abandoning(st: SM.State)
    requires Reached(One(st, map[], map["sid" := 0], {0}, Detaching, SweepIdle))
    ensures Reached(One(st, map[], map["sid" := 0], {0}, Reading, SweepIdle))
  {
    ReachQuiet(CONFIG, One(st, map[], map["sid" := 0], {0}, Detaching, SweepIdle), Detach(0),
               One(st, map[], map["sid" := 0], {0}, Unbinding(None), SweepIdle));
    UnbindingNothing(st);
  }

  lemma UnbindingNothing(st: SM.State)
    requires Reached(One(st, map[], map["sid" := 0], {0}, Unbinding(None), SweepIdle))
    ensures Reached(One(st, map[], map["sid" := 0], {0}, Reading, SweepIdle))
  {
    ReachQuiet(CONFIG, One(st, map[], map["sid" := 0], {0}, Unbinding(None), SweepIdle), Unbind(0),
               One(st, map[], map["sid" := 0], {0}, Reading, SweepIdle));
  }

  /** The handler, not knowing, accepts the proof and binds the id; its reply cannot be written any more. */
  lemma BoundTooLate(st: SM.State)
    requires Reached(One(st, map[], map[], {0}, Got(0), SweepIdle)) && st == SM.AfterHello(SM.Fresh(0), VERDICT)
    ensures Reached(One(SM.AfterAuth(st.(lastSeen := LATER), "sid"), map[], map["sid" := 0], {0}, Reading, SweepIdle))
  {
    ProofAccepted(st);
    var touched := st.(lastSeen := LATER);
    AuthRecorded(touched, "sid");
    AuthAssignmentsAddUp(touched, "sid");
    BindingAfterSweep(SM.AfterAuth(touched, "sid"));
    Writes(SM.AfterAuth(touched, "sid"), map[], map["sid" := 0], {0});
    Abandoning(SM.AfterAuth(touched, "sid"));
  }

  /** So exact agreement fails at lock granularity, even with fresh ids and everything at rest: a run
      from the empty table ends with a session id bound to a state the connection index does not hold. */
  lemma LateBindingHappens() returns (t: Table)
    ensures Reaches(CONFIG, t) && FreshInv(t) && Quiescent(t) && Orphan(t, "sid") && !Exact(t)
  {
    HelloAnswered();
    var st := SM.AfterHello(SM.Fresh(0), VERDICT);
    SweptInBetween(st);
    BoundTooLate(st);
    var bound := SM.AfterAuth(st.(lastSeen := LATER), "sid");
    t := One(bound, map[], map["sid" := 0], {0}, Reading, SweepIdle);
    LeftBehind(bound, t);
    QuiescentAgreementIff(t);
  }

  lemma LeftBehind(st: SM.State, t: Table)
    requires t == One(st, map[], map["sid" := 0], {0}, Reading, SweepIdle)
    ensures Orphan(t, "sid") && Quiescent(t) && !OrphanFree(t)
  {
  }
}
