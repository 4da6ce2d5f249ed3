/** Closed connections at lock granularity. A connection its own handler closed never has a state again
    when that handler is at rest; one that the sweep closed may, exactly when a frame came in between. */
module LockClose {
  import opened Wire
  import SM = SessionModel
  import opened LockSteps
  import LA = LockAgreement

  // ---------- a state on a closed connection is on its way out ----------

  predicate Unready(t: Table, r: Ref) {
    r in t.heap && !t.heap[r].secureReady && !t.heap[r].awaitAuthV2
  }

  /** The handler of c holds a state that can only lead to a reply, and that write will fail. */
  predicate Dying(t: Table, c: SM.Conn)
    requires c in t.conns
  {
    match PcOf(t, c)
    case Got(r) => r == t.conns[c] && Unready(t, r)
    case Touched(r) => r == t.conns[c] && Unready(t, r)
    case InHello(_, _, _) => true
    case Writing => true
    case Failing => true
    case Detaching => true
    case _ => false
  }

  /** The connection is closed, and if it has a state its handler is about to remove it. */
  predicate ClosedFor(t: Table, c: SM.Conn) {
    c in t.closed && (c in t.conns ==> Dying(t, c))
  }

  /** Steps of the handler itself. */
  lemma OwnStepKeepsClosed(cfg: SM.Config, t: Table, s: Step, c: SM.Conn)
    requires Inv(t) && Enabled(t, s) && ClosedFor(t, c)
    requires s.Enter? || s.Touch? || s.Decide? || s.Reject? || s.Bind? || s.FinishWrite? || s.CloseFailed? || s.Detach? || s.Unbind?
    requires s.c == c
    ensures ClosedFor(Apply(cfg, t, s), c)
  {
  }

  lemma OwnAssignKeepsClosed(t: Table, c: SM.Conn)
    requires Inv(t) && Enabled(t, Assign(c)) && ClosedFor(t, c)
    ensures ClosedFor(ApplyAssign(t, c), c)
  {
  }

  /** A step that leaves the handler of c where it is and its object alone. */
  lemma OthersKeepClosed(t: Table, t': Table, c: SM.Conn)
    requires ClosedFor(t, c) && c in t'.closed && PcOf(t', c) == PcOf(t, c)
    requires c in t'.conns ==> c in t.conns && t'.conns[c] == t.conns[c]
    requires c in t'.conns && Unready(t, t.conns[c]) ==> Unready(t', t.conns[c])
    ensures ClosedFor(t', c)
  {
  }

  lemma OtherHandlerSpares(cfg: SM.Config, t: Table, s: Step, c: SM.Conn)
    requires Inv(t) && Enabled(t, s)
    requires s.Enter? || s.Touch? || s.Decide? || s.Reject? || s.Bind? || s.FinishWrite? || s.CloseFailed? || s.Detach? || s.Unbind?
    requires s.c != c
    ensures var t' := Apply(cfg, t, s);
      && PcOf(t', c) == PcOf(t, c) && t.closed <= t'.closed && (c in t.conns <==> c in t'.conns)
      && (c in t.conns ==> t'.conns[c] == t.conns[c] && (Unready(t, t.conns[c]) ==> Unready(t', t.conns[c])))
  {
    if s.Touch? { assert s.c in t.pcs && HandlerOk(t, s.c); }
  }

  lemma OtherAssignSpares(t: Table, d: SM.Conn, c: SM.Conn)
    requires Inv(t) && Enabled(t, Assign(d)) && d != c
    ensures var t' := ApplyAssign(t, d);
      && PcOf(t', c) == PcOf(t, c) && t'.closed == t.closed && t'.conns == t.conns
      && (c in t.conns ==> t.conns[c] in t'.heap && t'.heap[t.conns[c]] == t.heap[t.conns[c]])
  {
    assert d in t.pcs && HandlerOk(t, d);
  }

  lemma SweepStepSpares(cfg: SM.Config, t: Table, s: Step, c: SM.Conn)
    requires Inv(t) && Enabled(t, s)
    requires s.Sweep? || s.SweepUnbind? || s.SweepClose? || s.SweepDone? || s.Hangup?
    ensures var t' := Apply(cfg, t, s);
      t'.pcs == t.pcs && t'.heap == t.heap && t.closed <= t'.closed && (c in t'.conns ==> c in t.conns && t'.conns[c] == t.conns[c])
  {
  }

  lemma UdpStepSpares(cfg: SM.Config, t: Table, s: Step, c: SM.Conn)
    requires Inv(t) && Enabled(t, s)
    requires s.UdpLookup? || s.UdpTouch? || s.UdpMarkTunnel? || s.UdpDone?
    ensures var t' := Apply(cfg, t, s);
      && t'.pcs == t.pcs && t'.closed == t.closed && t'.conns == t.conns
      && (c in t.conns && Unready(t, t.conns[c]) ==> Unready(t', t.conns[c]))
  {
  }

  predicate HandlerStep(s: Step) {
    s.Enter? || s.Touch? || s.Decide? || s.Reject? || s.Bind? || s.FinishWrite? || s.CloseFailed? || s.Detach? || s.Unbind?
  }

  lemma OtherHandlerKeepsClosed(cfg: SM.Config, t: Table, s: Step, c: SM.Conn)
    requires Inv(t) && Enabled(t, s) && ClosedFor(t, c) && HandlerStep(s) && s.c != c
    ensures ClosedFor(Apply(cfg, t, s), c)
  {
    OtherHandlerSpares(cfg, t, s, c);
    OthersKeepClosed(t, Apply(cfg, t, s), c);
  }

  lemma AssignKeepsClosed(cfg: SM.Config, t: Table, d: SM.Conn, c: SM.Conn)
    requires Inv(t) && Enabled(t, Assign(d)) && ClosedFor(t, c)
    ensures ClosedFor(Apply(cfg, t, Assign(d)), c)
  {
    if d == c {
      OwnAssignKeepsClosed(t, c);
    } else {
      OtherAssignSpares(t, d, c);
      OthersKeepClosed(t, Apply(cfg, t, Assign(d)), c);
    }
  }

  lemma SharedStepKeepsClosed(cfg: SM.Config, t: Table, s: Step, c: SM.Conn)
    requires Inv(t) && Enabled(t, s) && ClosedFor(t, c) && !HandlerStep(s) && !s.Assign?
    ensures ClosedFor(Apply(cfg, t, s), c)
  {
    if s.UdpLookup? || s.UdpTouch? || s.UdpMarkTunnel? || s.UdpDone? {
      UdpStepSpares(cfg, t, s, c);
    } else {
      SweepStepSpares(cfg, t, s, c);
    }
    OthersKeepClosed(t, Apply(cfg, t, s), c);
  }

  lemma StepKeepsClosed(cfg: SM.Config, t: Table, s: Step, c: SM.Conn)
    requires Inv(t) && Enabled(t, s) && ClosedFor(t, c)
    ensures ClosedFor(Apply(cfg, t, s), c)
  {
    if s.Assign? {
      AssignKeepsClosed(cfg, t, s.c, c);
    } else if !HandlerStep(s) {
      SharedStepKeepsClosed(cfg, t, s, c);
    } else if s.c == c {
      OwnStepKeepsClosed(cfg, t, s, c);
    } else {
      OtherHandlerKeepsClosed(cfg, t, s, c);
    }
  }

  lemma {:induction false} RunKeepsClosed(cfg: SM.Config, t: Table, ss: seq<Step>, c: SM.Conn)
    requires Inv(t) && Runs(cfg, t, ss) && ClosedFor(t, c)
    ensures ClosedFor(Run(cfg, t, ss), c)
    decreases |ss|
  {
    if |ss| > 0 {
      StepKeepsInv(cfg, t, ss[0]);
      StepKeepsClosed(cfg, t, ss[0], c);
      RunKeepsClosed(cfg, Apply(cfg, t, ss[0]), ss[1..], c);
    }
  }

  /** Once the handler of c has closed its connection over a bad frame, then on every interleaving from
      there, with sweeps, datagrams and whatever frames still come in, c has no state whenever its
      handler is between frames. */
  lemma FailedStaysOut(cfg: SM.Config, t: Table, c: SM.Conn, ss: seq<Step>)
    requires Inv(t) && Enabled(t, CloseFailed(c)) && Runs(cfg, Apply(cfg, t, CloseFailed(c)), ss)
    ensures var t' := Run(cfg, Apply(cfg, t, CloseFailed(c)), ss);
      c in t'.closed && (PcOf(t', c).Reading? ==> c !in t'.conns)
  {
    StepKeepsInv(cfg, t, CloseFailed(c));
    RunKeepsClosed(cfg, Apply(cfg, t, CloseFailed(c)), ss, c);
  }

  // ---------- connections the sweep closes ----------

  /** The sweep has removed the state of c and has yet to close c. */
  predicate ToBeClosed(t: Table, c: SM.Conn) {
    t.sweep.Sweeping? && c in t.sweep.toClose
  }

  /** A frame of c comes in when the sweep has removed its state and not yet closed it: it gets a new one. */
  predicate EntersInGap(t: Table, s: Step, c: SM.Conn) {
    s.Enter? && s.c == c && c !in t.conns && ToBeClosed(t, c)
  }

  /** The state objects that c was given in such gaps during the run. */
  function GapObjects(cfg: SM.Config, t: Table, ss: seq<Step>, c: SM.Conn): set<Ref>
    requires Runs(cfg, t, ss)
    decreases |ss|
  {
    if |ss| == 0 then {}
    else (if EntersInGap(t, ss[0], c) then {ss[0].r} else {}) + GapObjects(cfg, Apply(cfg, t, ss[0]), ss[1..], c)
  }

  /** A state from a gap is on a connection that is or will be closed; a state on a connection about to be
      closed is from a gap; and any other state on a closed connection is on its way out. */
  ghost predicate GapInv(t: Table, c: SM.Conn, gap: set<Ref>) {
    && gap <= t.heap.Keys
    && (c in t.conns && t.conns[c] in gap ==> c in t.closed || ToBeClosed(t, c))
    && (c in t.conns && ToBeClosed(t, c) ==> t.conns[c] in gap)
    && (c in t.conns && t.conns[c] !in gap && c in t.closed ==> Dying(t, c))
  }

  /** The state of c changes only by removal, or by a frame that finds none. */
  ghost predicate IndexStep(t: Table, t': Table, s: Step, c: SM.Conn) {
    && t.heap.Keys <= t'.heap.Keys
    && (c in t'.conns && c in t.conns ==> t'.conns[c] == t.conns[c])
    && (c in t'.conns && c !in t.conns ==> s.Enter? && s.c == c && t'.conns[c] == s.r && s.r !in t.heap && s.r in t'.heap)
  }

  /** A connection is closed by its handler, by its peer, or by the sweep that owed it. */
  ghost predicate ClosingStep(t: Table, t': Table, s: Step, c: SM.Conn) {
    && (c in t.closed ==> c in t'.closed)
    && (ToBeClosed(t, c) ==> ToBeClosed(t', c) || c in t'.closed)
    && (ToBeClosed(t', c) ==> ToBeClosed(t, c) || c !in t'.conns)
    && (c in t'.closed && c !in t.closed ==> s == CloseFailed(c) || s == Hangup(c) || (s == SweepClose(c) && ToBeClosed(t, c) && t'.conns == t.conns))
    && (s.Enter? ==> t'.sweep == t.sweep)
  }

  lemma HandlerSteps(cfg: SM.Config, t: Table, s: Step, c: SM.Conn)
    requires Inv(t) && Enabled(t, s) && HandlerStep(s)
    ensures IndexStep(t, Apply(cfg, t, s), s, c) && ClosingStep(t, Apply(cfg, t, s), s, c)
  {
    assert Apply(cfg, t, s).sweep == t.sweep;
  }

  lemma AssignSteps(cfg: SM.Config, t: Table, d: SM.Conn, c: SM.Conn)
    requires Inv(t) && Enabled(t, Assign(d))
    ensures IndexStep(t, Apply(cfg, t, Assign(d)), Assign(d), c) && ClosingStep(t, Apply(cfg, t, Assign(d)), Assign(d), c)
  {
    var t' := ApplyAssign(t, d);
    assert t'.conns == t.conns && t'.closed == t.closed && t'.sweep == t.sweep;
  }

  lemma SweepSteps(cfg: SM.Config, t: Table, s: Step, c: SM.Conn)
    requires Inv(t) && Enabled(t, s) && (s.Sweep? || s.SweepUnbind? || s.SweepClose? || s.SweepDone?)
    ensures IndexStep(t, Apply(cfg, t, s), s, c) && ClosingStep(t, Apply(cfg, t, s), s, c)
  {
  }

  lemma OtherSteps(cfg: SM.Config, t: Table, s: Step, c: SM.Conn)
    requires Inv(t) && Enabled(t, s) && (s.Hangup? || s.UdpLookup? || s.UdpTouch? || s.UdpMarkTunnel? || s.UdpDone?)
    ensures IndexStep(t, Apply(cfg, t, s), s, c) && ClosingStep(t, Apply(cfg, t, s), s, c)
  {
    assert Apply(cfg, t, s).conns == t.conns && Apply(cfg, t, s).sweep == t.sweep;
  }

  lemma Steps(cfg: SM.Config, t: Table, s: Step, c: SM.Conn)
    requires Inv(t) && Enabled(t, s)
    ensures IndexStep(t, Apply(cfg, t, s), s, c) && ClosingStep(t, Apply(cfg, t, s), s, c)
  {
    if s.Assign? { AssignSteps(cfg, t, s.c, c); }
    else if HandlerStep(s) { HandlerSteps(cfg, t, s, c); }
    else if s.Sweep? || s.SweepUnbind? || s.SweepClose? || s.SweepDone? { SweepSteps(cfg, t, s, c); }
    else { OtherSteps(cfg, t, s, c); }
  }

  lemma StepKeepsGapInv(cfg: SM.Config, t: Table, s: Step, c: SM.Conn, gap: set<Ref>)
    requires Inv(t) && Enabled(t, s) && s != Hangup(c) && GapInv(t, c, gap)
    ensures GapInv(Apply(cfg, t, s), c, gap + (if EntersInGap(t, s, c) then {s.r} else {}))
  {
    Steps(cfg, t, s, c);
    if ClosedFor(t, c) { StepKeepsClosed(cfg, t, s, c); }
  }

  lemma {:induction false} RunKeepsGapInv(cfg: SM.Config, t: Table, ss: seq<Step>, c: SM.Conn, gap: set<Ref>)
    requires Inv(t) && Runs(cfg, t, ss) && Hangup(c) !in ss && GapInv(t, c, gap)
    ensures GapInv(Run(cfg, t, ss), c, gap + GapObjects(cfg, t, ss, c))
    decreases |ss|
  {
    if |ss| == 0 {
      assert gap + {} == gap;
    } else {
      var more := if EntersInGap(t, ss[0], c) then {ss[0].r} else {};
      StepKeepsInv(cfg, t, ss[0]);
      StepKeepsGapInv(cfg, t, ss[0], c, gap);
      RunKeepsGapInv(cfg, Apply(cfg, t, ss[0]), ss[1..], c, gap + more);
      assert gap + (more + GapObjects(cfg, Apply(cfg, t, ss[0]), ss[1..], c)) == (gap + more) + GapObjects(cfg, Apply(cfg, t, ss[0]), ss[1..], c);
    }
  }

  /** On every interleaving in which the peer does not hang up: when the handler of c and the sweep are at
      rest, the state c has is on a closed connection if and only if c was given it by a frame that came
      in between the sweep's removing the old state and its closing the connection. */
  lemma ClosedWithStateIff(cfg: SM.Config, ss: seq<Step>, c: SM.Conn)
    requires Runs(cfg, Start(), ss) && Hangup(c) !in ss
    requires var t := Run(cfg, Start(), ss); PcOf(t, c).Reading? && t.sweep.SweepIdle? && c in t.conns
    ensures var t := Run(cfg, Start(), ss);
      c in t.closed <==> t.conns[c] in GapObjects(cfg, Start(), ss, c)
  {
    RunKeepsGapInv(cfg, Start(), ss, c, {});
    assert {} + GapObjects(cfg, Start(), ss, c) == GapObjects(cfg, Start(), ss, c);
  }

  // ---------- it happens ----------

  /** Two objects of connection 0: the one that was swept, and the one a frame in the gap brought. */
  function Two(first: SM.State, second: SM.State, closed: set<SM.Conn>, pc: Pc, sweep: SweepPc): Table {
    Table(map[0 := first, 1 := second], map[0 := 0, 1 := 0], map[0 := 1], map[], closed, map[0 := pc], sweep, UdpIdle)
  }

  lemma Swept(st: SM.State)
    requires LA.Reached(LA.One(st, map[0 := 0], map[], {}, Reading, SweepIdle)) && st.lastSeen == 0 && st.sessionID == ""
    ensures LA.Reached(LA.One(st, map[], map[], {}, Reading, Sweeping({}, {0})))
  {
    var t := LA.One(st, map[0 := 0], map[], {}, Reading, SweepIdle);
    assert SweptRefs(LA.CONFIG, t, LA.LATER) == {0};
    assert SweptIDs(LA.CONFIG, t, LA.LATER) == {};
    assert t.conns - {0} == map[];
    LA.ReachQuiet(LA.CONFIG, t, Sweep(LA.LATER), LA.One(st, map[], map[], {}, Reading, Sweeping({}, {0})));
  }

  lemma EntersAgain(st: SM.State)
    requires LA.Reached(LA.One(st, map[], map[], {}, Reading, Sweeping({}, {0})))
    ensures LA.Reached(Two(st, SM.Fresh(LA.LATER), {}, Touched(1), Sweeping({}, {0})))
  {
    var t1 := Two(st, SM.Fresh(LA.LATER), {}, Got(1), Sweeping({}, {0}));
    LA.ReachQuiet(LA.CONFIG, LA.One(st, map[], map[], {}, Reading, Sweeping({}, {0})), Enter(0, 1, LA.LATER), t1);
    TouchesAgain(st);
  }

  lemma TouchesAgain(st: SM.State)
    requires LA.Reached(Two(st, SM.Fresh(LA.LATER), {}, Got(1), Sweeping({}, {0})))
    ensures LA.Reached(Two(st, SM.Fresh(LA.LATER), {}, Touched(1), Sweeping({}, {0})))
  {
    LA.ReachQuiet(LA.CONFIG, Two(st, SM.Fresh(LA.LATER), {}, Got(1), Sweeping({}, {0})), Touch(0, LA.LATER),
                  Two(st, SM.Fresh(LA.LATER), {}, Touched(1), Sweeping({}, {0})));
  }

  lemma SecondHello(st: SM.State)
    requires LA.Reached(Two(st, SM.Fresh(LA.LATER), {}, Touched(1), Sweeping({}, {0})))
    ensures LA.Reached(Two(st, SM.Fresh(LA.LATER), {}, InHello(1, LA.VERDICT, 0), Sweeping({}, {0})))
  {
    var hello := NewHello(PublicOf(2), "", "v2", LA.NONCE, LA.LATER / SM.SECOND);
    var s := Decide(0, hello, LA.EnvAt(LA.LATER, ""));
    assert SM.JudgeHello(LA.CONFIG, hello, LA.EnvAt(LA.LATER, "")) == LA.VERDICT;
    LA.ReachStep(LA.CONFIG, Two(st, SM.Fresh(LA.LATER), {}, Touched(1), Sweeping({}, {0})), s,
                 Two(st, SM.Fresh(LA.LATER), {}, InHello(1, LA.VERDICT, 0), Sweeping({}, {0})));
  }

  lemma AssignsAgain(st: SM.State, second: SM.State, done: nat)
    requires done < HELLO_V2_ASSIGNMENTS
    requires LA.Reached(Two(st, second, {}, InHello(1, LA.VERDICT, done), Sweeping({}, {0})))
    ensures LA.Reached(Two(st, HelloAssign(second, LA.VERDICT, done), {},
                           if done + 1 == HELLO_V2_ASSIGNMENTS then Writing else InHello(1, LA.VERDICT, done + 1), Sweeping({}, {0})))
  {
    LA.ReachQuiet(LA.CONFIG, Two(st, second, {}, InHello(1, LA.VERDICT, done), Sweeping({}, {0})), Assign(0),
                  Two(st, HelloAssign(second, LA.VERDICT, done), {},
                      if done + 1 == HELLO_V2_ASSIGNMENTS then Writing else InHello(1, LA.VERDICT, done + 1), Sweeping({}, {0})));
  }

  lemma SecondHelloRecorded(st: SM.State, second: SM.State)
    requires LA.Reached(Two(st, second, {}, InHello(1, LA.VERDICT, 0), Sweeping({}, {0})))
    ensures LA.Reached(Two(st, SM.AfterHello(second, LA.VERDICT), {}, Writing, Sweeping({}, {0})))
  {
    AssignsAgain(st, second, 0);
    var second1 := HelloAssign(second, LA.VERDICT, 0);
    AssignsAgain(st, second1, 1);
    var second2 := HelloAssign(second1, LA.VERDICT, 1);
    AssignsAgain(st, second2, 2);
    AssignsAgain(st, HelloAssign(second2, LA.VERDICT, 2), 3);
    LA.HelloAssignmentsAddUp(second, LA.VERDICT);
  }

  /** The challenge still goes out, and then the sweep closes the connection. */
  lemma AnsweredThenClosed(st: SM.State, second: SM.State)
    requires LA.Reached(Two(st, second, {}, Writing, Sweeping({}, {0})))
    ensures LA.Reached(Two(st, second, {0}, Reading, SweepIdle))
  {
    var t1 := Two(st, second, {}, Reading, Sweeping({}, {0}));
    LA.ReachQuiet(LA.CONFIG, Two(st, second, {}, Writing, Sweeping({}, {0})), FinishWrite(0, true), t1);
    SweepCloses(st, second);
    LA.ReachQuiet(LA.CONFIG, Two(st, second, {0}, Reading, Sweeping({}, {})), SweepDone, Two(st, second, {0}, Reading, SweepIdle));
  }

  lemma SweepCloses(st: SM.State, second: SM.State)
    requires LA.Reached(Two(st, second, {}, Reading, Sweeping({}, {0})))
    ensures LA.Reached(Two(st, second, {0}, Reading, Sweeping({}, {})))
  {
    var t := Two(st, second, {}, Reading, Sweeping({}, {0}));
    assert t.sweep.toClose - {0} == {} && t.closed + {0} == {0};
    assert Apply(LA.CONFIG, t, SweepClose(0)) == Two(st, second, {0}, Reading, Sweeping({}, {}));
    LA.ReachQuiet(LA.CONFIG, t, SweepClose(0), Two(st, second, {0}, Reading, Sweeping({}, {})));
  }

  /** So at lock granularity a connection the server closed can have a state with everything at rest: an
      undisturbed run from the empty table ends that way. */
  lemma ClosedWithStateHappens() returns (t: Table)
    ensures LA.Reaches(LA.CONFIG, t) && LA.Quiescent(t) && 0 in t.closed && 0 in t.conns
  {
    LA.HelloAnswered();
    var st := SM.AfterHello(SM.Fresh(0), LA.VERDICT);
    Swept(st);
    EntersAgain(st);
    SecondHello(st);
    SecondHelloRecorded(st, SM.Fresh(LA.LATER));
    AnsweredThenClosed(st, SM.AfterHello(SM.Fresh(LA.LATER), LA.VERDICT));
    t := Two(st, SM.AfterHello(SM.Fresh(LA.LATER), LA.VERDICT), {0}, Reading, SweepIdle);
  }
}
