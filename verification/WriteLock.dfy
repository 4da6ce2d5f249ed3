/** Several goroutines send frames on one connection, each frame as two writes under the state's writeMu. */
module WriteLock {
  import opened Wire
  import opened Framing

  datatype Pc = Waiting | Holding | HeaderOut

  datatype Sender = Sender(todo: seq<Bytes>, done: seq<Bytes>, pc: Pc)

  /** A frame that a failing write cut after `cut` bytes. */
  datatype Torn = Torn(payload: Bytes, cut: nat)

  datatype Line = Line(senders: seq<Sender>, holder: Option<nat>, out: Bytes, log: seq<(nat, Bytes)>, torn: Option<Torn>)

  datatype Step =
    | Acquire(i: nat)
    | Refuse(i: nat)                 // the payload does not fit the length field: nothing is written
    | WriteHeader(i: nat, taken: nat)
    | WritePayload(i: nat, taken: nat)
    | WriteFails(i: nat)             // the connection is already torn

  predicate Enabled(l: Line, s: Step) {
    && s.i < |l.senders| && |l.senders[s.i].todo| > 0
    && var me := l.senders[s.i];
      match s
      case Acquire(_) => l.holder.None? && me.pc.Waiting?
      case Refuse(_) => me.pc.Holding? && |me.todo[0]| > MAX_FRAME
      case WriteHeader(_, taken) => me.pc.Holding? && |me.todo[0]| <= MAX_FRAME && l.torn.None? && taken <= 2
      case WritePayload(_, taken) => me.pc.HeaderOut? && |me.todo[0]| <= MAX_FRAME && l.torn.None? && taken <= |me.todo[0]|
      case WriteFails(_) => me.pc.Holding? && |me.todo[0]| <= MAX_FRAME && l.torn.Some?
  }

  function SetSender(l: Line, i: nat, me: Sender): Line
    requires i < |l.senders|
  {
    l.(senders := l.senders[i := me])
  }

  /** The send returns: the frame is off the sender's list and the lock is free. */
  function Release(l: Line, i: nat, done: seq<Bytes>): Line
    requires i < |l.senders| && |l.senders[i].todo| > 0
  {
    SetSender(l, i, Sender(l.senders[i].todo[1..], l.senders[i].done + done, Waiting)).(holder := None)
  }

  function Apply(l: Line, s: Step): Line
    requires Enabled(l, s)
  {
    var me := l.senders[s.i];
    match s
    case Acquire(i) => SetSender(l, i, me.(pc := Holding)).(holder := Some(i))
    case Refuse(i) => Release(l, i, [])
    case WriteFails(i) => Release(l, i, [])
    case WriteHeader(i, taken) =>
      var out := l.out + Header(|me.todo[0]|)[..taken];
      if taken == 2 then SetSender(l, i, me.(pc := HeaderOut)).(out := out)
      else Release(l, i, []).(out := out, torn := Some(Torn(me.todo[0], taken)))
    case WritePayload(i, taken) =>
      var out := l.out + me.todo[0][..taken];
      if taken == |me.todo[0]| then Release(l, i, [me.todo[0]]).(out := out, log := l.log + [(i, me.todo[0])])
      else Release(l, i, []).(out := out, torn := Some(Torn(me.todo[0], 2 + taken)))
  }

  predicate Runs(l: Line, ss: seq<Step>)
    decreases |ss|
  {
    |ss| == 0 || (Enabled(l, ss[0]) && Runs(Apply(l, ss[0]), ss[1..]))
  }

  function Run(l: Line, ss: seq<Step>): Line
    requires Runs(l, ss)
    decreases |ss|
  {
    if |ss| == 0 then l else Run(Apply(l, ss[0]), ss[1..])
  }

  // ---------- what is on the wire ----------

  function Frames(log: seq<(nat, Bytes)>): seq<Bytes> {
    if |log| == 0 then [] else Frames(log[..|log| - 1]) + [log[|log| - 1].1]
  }

  /** The frames that sender i put on the wire. */
  function By(log: seq<(nat, Bytes)>, i: nat): seq<Bytes> {
    if |log| == 0 then []
    else By(log[..|log| - 1], i) + (if log[|log| - 1].0 == i then [log[|log| - 1].1] else [])
  }

  /** The bytes after the last whole frame. */
  function Unfinished(l: Line): Bytes {
    if l.torn.Some? then
      if |l.torn.value.payload| <= MAX_FRAME && l.torn.value.cut <= 2 + |l.torn.value.payload| then Encode(l.torn.value.payload)[..l.torn.value.cut] else []
    else if l.holder.Some? && l.holder.value < |l.senders| && l.senders[l.holder.value].pc.HeaderOut?
            && |l.senders[l.holder.value].todo| > 0 && |l.senders[l.holder.value].todo[0]| <= MAX_FRAME then
      Header(|l.senders[l.holder.value].todo[0]|)
    else []
  }

  ghost predicate LockOk(l: Line) {
    && (forall i | 0 <= i < |l.senders| && l.holder != Some(i) :: l.senders[i].pc.Waiting?)
    && (l.holder.Some? ==> l.holder.value < |l.senders| && !l.senders[l.holder.value].pc.Waiting? && |l.senders[l.holder.value].todo| > 0)
    && (l.holder.Some? && l.senders[l.holder.value].pc.HeaderOut? ==> l.torn.None? && |l.senders[l.holder.value].todo[0]| <= MAX_FRAME)
    && (l.torn.Some? ==> Framable(l.torn.value.payload) && l.torn.value.cut < 2 + |l.torn.value.payload|)
    && (forall i, k | 0 <= i < |l.senders| && 0 <= k < |l.senders[i].todo| :: |l.senders[i].todo[k]| > 0)
  }

  ghost predicate LineOk(l: Line) {
    && LockOk(l)
    && AllFramable(Frames(l.log))
    && l.out == EncodeAll(Frames(l.log)) + Unfinished(l)
    && forall i | 0 <= i < |l.senders| :: l.senders[i].done == By(l.log, i)
  }

  lemma StepKeepsLockOk(l: Line, s: Step)
    requires LockOk(l) && Enabled(l, s)
    ensures LockOk(Apply(l, s))
  {
    var l' := Apply(l, s);
    assert forall j | 0 <= j < |l.senders| && j != s.i :: l'.senders[j] == l.senders[j];
    assert l.senders[s.i].todo[1..] == l'.senders[s.i].todo || l.senders[s.i].todo == l'.senders[s.i].todo;
  }

  lemma {:induction false} FramableAppend(ps: seq<Bytes>, p: Bytes)
    requires AllFramable(ps) && Framable(p)
    ensures AllFramable(ps + [p]) && EncodeAll(ps + [p]) == EncodeAll(ps) + Encode(p)
  {
    if |ps| == 0 {
      assert ps + [p] == [p];
      assert Encode(p) + EncodeAll([]) == Encode(p);
    } else {
      FramableAppend(ps[1..], p);
      assert (ps + [p])[1..] == ps[1..] + [p];
      Associative(Encode(ps[0]), EncodeAll(ps[1..]), Encode(p));
    }
  }

  lemma LogAppend(log: seq<(nat, Bytes)>, i: nat, p: Bytes)
    ensures Frames(log + [(i, p)]) == Frames(log) + [p]
    ensures forall j: nat :: By(log + [(i, p)], j) == By(log, j) + (if j == i then [p] else [])
  {
    assert (log + [(i, p)])[..|log|] == log;
  }

  lemma HeaderStep(l: Line, i: nat, taken: nat)
    requires LineOk(l) && Enabled(l, WriteHeader(i, taken))
    ensures LineOk(Apply(l, WriteHeader(i, taken)))
  {
    StepKeepsLockOk(l, WriteHeader(i, taken));
    HeaderBytes(l, i, taken, Apply(l, WriteHeader(i, taken)));
  }

  lemma HeaderBytes(l: Line, i: nat, taken: nat, l': Line)
    requires LineOk(l) && Enabled(l, WriteHeader(i, taken)) && l' == Apply(l, WriteHeader(i, taken))
    ensures l'.log == l.log && l'.out == EncodeAll(Frames(l.log)) + Unfinished(l')
  {
    var payload := l.senders[i].todo[0];
    assert l.holder == Some(i) && Unfinished(l) == [];
    assert l.out == EncodeAll(Frames(l.log));
    assert Encode(payload)[..taken] == Header(|payload|)[..taken];
    assert Unfinished(l') == Header(|payload|)[..taken];
  }

  lemma PayloadTorn(l: Line, i: nat, taken: nat)
    requires LineOk(l) && Enabled(l, WritePayload(i, taken)) && taken < |l.senders[i].todo[0]|
    ensures LineOk(Apply(l, WritePayload(i, taken)))
  {
    var s := WritePayload(i, taken);
    StepKeepsLockOk(l, s);
    var payload := l.senders[i].todo[0];
    assert l.holder == Some(i) && Unfinished(l) == Header(|payload|);
    assert Header(|payload|) + payload[..taken] == Encode(payload)[..2 + taken];
    Associative(EncodeAll(Frames(l.log)), Header(|payload|), payload[..taken]);
    assert Unfinished(Apply(l, s)) == Encode(payload)[..2 + taken];
  }

  lemma WholeFrameOut(sent: Bytes, payload: Bytes)
    requires |payload| <= MAX_FRAME
    ensures sent + Header(|payload|) + payload[..|payload|] == sent + Encode(payload)
  {
    assert payload[..|payload|] == payload;
    Associative(sent, Header(|payload|), payload);
  }

  lemma PayloadDone(l: Line, i: nat)
    requires LineOk(l) && |l.senders| > i && |l.senders[i].todo| > 0 && Enabled(l, WritePayload(i, |l.senders[i].todo[0]|))
    ensures LineOk(Apply(l, WritePayload(i, |l.senders[i].todo[0]|)))
  {
    var payload := l.senders[i].todo[0];
    var l' := Apply(l, WritePayload(i, |payload|));
    StepKeepsLockOk(l, WritePayload(i, |payload|));
    PayloadCompletes(l, i, l');
    PayloadHistories(l, i, l');
  }

  lemma PayloadCompletes(l: Line, i: nat, l': Line)
    requires LineOk(l) && |l.senders| > i && |l.senders[i].todo| > 0 && Enabled(l, WritePayload(i, |l.senders[i].todo[0]|))
    requires l' == Apply(l, WritePayload(i, |l.senders[i].todo[0]|))
    ensures AllFramable(Frames(l'.log)) && l'.out == EncodeAll(Frames(l'.log)) + Unfinished(l')
  {
    var payload := l.senders[i].todo[0];
    assert l.holder == Some(i) && Unfinished(l) == Header(|payload|) && Unfinished(l') == [];
    WholeFrameLogged(l.log, i, payload, l.out, l'.out);
    assert l'.out == l'.out + [];
  }

  /** The bytes: header and payload complete the frame that the log gains. */
  lemma WholeFrameLogged(log: seq<(nat, Bytes)>, i: nat, payload: Bytes, out: Bytes, out': Bytes)
    requires AllFramable(Frames(log)) && Framable(payload)
    requires out == EncodeAll(Frames(log)) + Header(|payload|) && out' == out + payload[..|payload|]
    ensures AllFramable(Frames(log + [(i, payload)])) && out' == EncodeAll(Frames(log + [(i, payload)]))
  {
    LogAppend(log, i, payload);
    FramableAppend(Frames(log), payload);
    WholeFrameOut(EncodeAll(Frames(log)), payload);
  }

  /** The histories: only the sender whose frame is logged has one frame more. */
  lemma PayloadHistories(l: Line, i: nat, l': Line)
    requires |l.senders| > i && |l.senders[i].todo| > 0 && Enabled(l, WritePayload(i, |l.senders[i].todo[0]|))
    requires l' == Apply(l, WritePayload(i, |l.senders[i].todo[0]|))
    requires forall j | 0 <= j < |l.senders| :: l.senders[j].done == By(l.log, j)
    ensures forall j | 0 <= j < |l'.senders| :: l'.senders[j].done == By(l'.log, j)
  {
    LogAppend(l.log, i, l.senders[i].todo[0]);
  }

  lemma QuietStep(l: Line, s: Step)
    requires LineOk(l) && Enabled(l, s) && (s.Acquire? || s.Refuse? || s.WriteFails?)
    ensures LineOk(Apply(l, s))
  {
    StepKeepsLockOk(l, s);
    assert Unfinished(Apply(l, s)) == Unfinished(l);
  }

  /** Under the lock every step leaves on the connection the whole frames in lock order, followed by at
      most one unfinished frame. */
  lemma StepKeepsLineOk(l: Line, s: Step)
    requires LineOk(l) && Enabled(l, s)
    ensures LineOk(Apply(l, s))
  {
    match s
    case WriteHeader(i, taken) => HeaderStep(l, i, taken);
    case WritePayload(i, taken) =>
      if taken == |l.senders[i].todo[0]| { PayloadDone(l, i); } else { PayloadTorn(l, i, taken); }
    case _ => QuietStep(l, s);
  }

  lemma {:induction false} RunKeepsLineOk(l: Line, ss: seq<Step>)
    requires LineOk(l) && Runs(l, ss)
    ensures LineOk(Run(l, ss))
    decreases |ss|
  {
    if |ss| > 0 {
      StepKeepsLineOk(l, ss[0]);
      RunKeepsLineOk(Apply(l, ss[0]), ss[1..]);
    }
  }

  /** What the peer reads of an unfinished frame is no frame. */
  lemma UnfinishedIsShort(l: Line)
    requires LineOk(l)
    ensures Parse(Unfinished(l)).frames == []
  {
    if l.torn.Some? {
      PartIsShort(l.torn.value.payload, l.torn.value.cut);
    } else if Unfinished(l) != [] {
      var payload := l.senders[l.holder.value].todo[0];
      PartIsShort(payload, 2);
      assert Encode(payload)[..2] == Header(|payload|);
    }
  }

  /** From a line in order, the peer's read loop delivers exactly the frames logged, in lock order. */
  lemma PeerReadsTheLog(l: Line, ss: seq<Step>)
    requires LineOk(l) && Runs(l, ss)
    ensures Parse(Run(l, ss).out).frames == Frames(Run(l, ss).log)
    ensures forall i | 0 <= i < |Run(l, ss).senders| :: Run(l, ss).senders[i].done == By(Run(l, ss).log, i)
  {
    RunKeepsLineOk(l, ss);
    var l' := Run(l, ss);
    ParseAppend(Frames(l'.log), Unfinished(l'));
    UnfinishedIsShort(l');
    assert Frames(l'.log) + [] == Frames(l'.log);
  }

  // ---------- from the first frame on ----------

  /** A line on which no sender has begun. */
  function Fresh(todos: seq<seq<Bytes>>): Line {
    Line(seq(|todos|, i requires 0 <= i < |todos| => Sender(todos[i], [], Waiting)), None, [], [], None)
  }

  lemma FreshLineOk(todos: seq<seq<Bytes>>)
    requires forall i, k | 0 <= i < |todos| && 0 <= k < |todos[i]| :: |todos[i][k]| > 0
    ensures LineOk(Fresh(todos))
  {
    assert EncodeAll(Frames([])) + [] == [];
  }

  /** The payloads that fit the length field. */
  function Fitting(ps: seq<Bytes>): seq<Bytes> {
    if |ps| == 0 then []
    else if |ps[0]| <= MAX_FRAME then [ps[0]] + Fitting(ps[1..])
    else Fitting(ps[1..])
  }

  /** Each sender has sent, in order, a prefix of the payloads it had that fit; all of them but those it
      still has, unless the connection is torn. */
  ghost predicate InOrder(l: Line, todos: seq<seq<Bytes>>) {
    && |l.senders| == |todos|
    && forall i | 0 <= i < |todos| :: SenderInOrder(l.senders[i], l.torn.Some?, todos[i])
  }

  ghost predicate SenderInOrder(me: Sender, torn: bool, todo: seq<Bytes>) {
    me.done <= Fitting(todo) && (!torn ==> me.done + Fitting(me.todo) == Fitting(todo))
  }

  lemma SentInOrder(me: Sender, todo: seq<Bytes>)
    requires |me.todo| > 0 && |me.todo[0]| <= MAX_FRAME && SenderInOrder(me, false, todo)
    ensures SenderInOrder(Sender(me.todo[1..], me.done + [me.todo[0]], Waiting), false, todo)
  {
    SentThenRest(me.done, me.todo[0], Fitting(me.todo[1..]));
  }

  lemma SentThenRest(a: seq<Bytes>, p: Bytes, b: seq<Bytes>)
    ensures (a + [p]) + b == a + ([p] + b)
  {
  }

  lemma StepKeepsInOrder(l: Line, s: Step, todos: seq<seq<Bytes>>)
    requires Enabled(l, s) && InOrder(l, todos)
    ensures InOrder(Apply(l, s), todos)
  {
    var l' := Apply(l, s);
    var me := l.senders[s.i];
    assert SenderInOrder(me, l.torn.Some?, todos[s.i]);
    if s.WritePayload? && s.taken == |me.todo[0]| { SentInOrder(me, todos[s.i]); }
    forall i | 0 <= i < |todos| ensures SenderInOrder(l'.senders[i], l'.torn.Some?, todos[i]) {
      assert SenderInOrder(l.senders[i], l.torn.Some?, todos[i]);
      assert i != s.i ==> l'.senders[i] == l.senders[i];
    }
  }

  lemma {:induction false} RunKeepsInOrder(l: Line, ss: seq<Step>, todos: seq<seq<Bytes>>)
    requires Runs(l, ss) && InOrder(l, todos)
    ensures InOrder(Run(l, ss), todos)
    decreases |ss|
  {
    if |ss| > 0 {
      StepKeepsInOrder(l, ss[0], todos);
      RunKeepsInOrder(Apply(l, ss[0]), ss[1..], todos);
    }
  }

  /** Any senders with any payloads, on every interleaving, with writes failing anywhere: the peer's read
      loop delivers exactly the frames whose sends succeeded, in lock order. Of each sender these are its
      fitting payloads from the first on, in its own order; and all that it no longer has, while the
      connection is whole. */
  lemma PeerReadsWhatWasSent(todos: seq<seq<Bytes>>, ss: seq<Step>)
    requires forall i, k | 0 <= i < |todos| && 0 <= k < |todos[i]| :: |todos[i][k]| > 0
    requires Runs(Fresh(todos), ss)
    ensures var l := Run(Fresh(todos), ss);
      && Parse(l.out).frames == Frames(l.log)
      && |l.senders| == |todos|
      && forall i | 0 <= i < |todos| ::
           && By(l.log, i) == l.senders[i].done <= Fitting(todos[i])
           && (l.torn.None? ==> By(l.log, i) + Fitting(l.senders[i].todo) == Fitting(todos[i]))
  {
    FreshLineOk(todos);
    PeerReadsTheLog(Fresh(todos), ss);
    RunKeepsInOrder(Fresh(todos), ss, todos);
    var l := Run(Fresh(todos), ss);
    forall i | 0 <= i < |todos| ensures SenderInOrder(l.senders[i], l.torn.Some?, todos[i]) {
    }
  }

  /** The lock is needed: two frames whose writes interleave header, header, payload, payload are not
      read back. */
  lemma WithoutLock()
    ensures var first: Bytes := [9];
      var second: Bytes := [8];
      Parse(Header(1) + Header(1) + first + second).frames == [[0]]
  {
    var bs: Bytes := [0, 1, 0, 1, 9, 8];
    assert Header(1) + Header(1) + [9] + [8] == bs;
    assert bs[3..] == [1, 9, 8];
    assert Read(bs) == Whole([0], [1, 9, 8]);
    assert Read([1, 9, 8]).Short?;
  }
}
