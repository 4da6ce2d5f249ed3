/** The stream multiplexer: a table of bounded queues, one per stream, that drop what does not fit. */
module Mux {
  import opened Wire

  type Payload = seq<Byte>

  const CAPACITY := 32

  /** A stream's channel with its history: what was pushed to it, which of that was taken, and what its
      reader has received. */
  datatype Chan = Chan(id: U32, buffer: seq<Payload>, closed: bool, pushed: seq<Payload>, taken: seq<bool>, received: seq<Payload>)

  /** The channels in order of creation, and the table from ids to channels. */
  datatype Streams = Streams(nextStreamID: U32, table: map<U32, nat>, chans: seq<Chan>)

  function Start(): Streams {
    Streams(1, map[], [])
  }

  function AddU32(x: U32): U32 {
    (x + 1) % 0x1_0000_0000
  }

  function Offer(c: Chan, p: Payload): Chan {
    if |c.buffer| < CAPACITY
    then c.(buffer := c.buffer + [p], pushed := c.pushed + [p], taken := c.taken + [true])
    else c.(pushed := c.pushed + [p], taken := c.taken + [false])
  }

  function Take(c: Chan): Chan {
    if |c.buffer| == 0 then c else c.(buffer := c.buffer[1..], received := c.received + [c.buffer[0]])
  }

  datatype Event = NewStream | Push(id: U32, payload: Payload) | Receive(chan: nat) | CloseStream(id: U32)

  predicate TableOk(s: Streams) {
    forall id | id in s.table :: s.table[id] < |s.chans|
  }

  function Step(s: Streams, e: Event): Streams
    requires TableOk(s)
  {
    match e
    case NewStream =>
      var id := AddU32(s.nextStreamID);
      Streams(id, s.table[id := |s.chans|], s.chans + [Chan(id, [], false, [], [], [])])
    case Push(id, p) =>
      if id in s.table then s.(chans := s.chans[s.table[id] := Offer(s.chans[s.table[id]], p)]) else s
    case Receive(i) =>
      if i < |s.chans| then s.(chans := s.chans[i := Take(s.chans[i])]) else s
    case CloseStream(id) =>
      if id in s.table then Streams(s.nextStreamID, s.table - {id}, s.chans[s.table[id] := s.chans[s.table[id]].(closed := true)]) else s
  }

  function Run(s: Streams, es: seq<Event>): Streams
    requires Inv(s)
    ensures Inv(Run(s, es))
    decreases |es|
  {
    if |es| == 0 then s
    else
      StepKeepsInv(s, es[0]);
      Run(Step(s, es[0]), es[1..])
  }

  // ---------- conservation and order ----------

  /** The pushes that were taken, in order. */
  function Kept(pushed: seq<Payload>, taken: seq<bool>): seq<Payload>
    requires |pushed| == |taken|
  {
    if |pushed| == 0 then []
    else Kept(pushed[..|pushed| - 1], taken[..|taken| - 1]) + (if taken[|taken| - 1] then [pushed[|pushed| - 1]] else [])
  }

  function Dropped(taken: seq<bool>): nat {
    if |taken| == 0 then 0 else Dropped(taken[..|taken| - 1]) + (if taken[|taken| - 1] then 0 else 1)
  }

  /** Received then buffered is what was taken of the pushes, in push order; nothing is lost or made up;
      the buffer never exceeds its capacity. */
  ghost predicate ChanOk(c: Chan) {
    && |c.taken| == |c.pushed|
    && c.received + c.buffer == Kept(c.pushed, c.taken)
    && |c.pushed| == |c.received| + |c.buffer| + Dropped(c.taken)
    && |c.buffer| <= CAPACITY
  }

  ghost predicate Inv(s: Streams) {
    && TableOk(s)
    && (forall i | 0 <= i < |s.chans| :: ChanOk(s.chans[i]))
    // Stream number i has id i + 2, reduced to 32 bits.
    && (forall i | 0 <= i < |s.chans| :: s.chans[i].id == (i + 2) % 0x1_0000_0000)
    && s.nextStreamID == (|s.chans| + 1) % 0x1_0000_0000
    // The table holds open channels under their own ids.
    && (forall id | id in s.table :: s.chans[s.table[id]].id == id && !s.chans[s.table[id]].closed)
  }

  lemma OfferKeepsOk(c: Chan, p: Payload)
    requires ChanOk(c)
    ensures ChanOk(Offer(c, p))
  {
    var c' := Offer(c, p);
    assert c'.pushed[..|c.pushed|] == c.pushed && c'.taken[..|c.taken|] == c.taken;
  }

  lemma TakeKeepsOk(c: Chan)
    requires ChanOk(c)
    ensures ChanOk(Take(c))
  {
    if |c.buffer| > 0 { assert c.buffer == [c.buffer[0]] + c.buffer[1..]; }
  }

  lemma NewStreamKeepsInv(s: Streams)
    requires Inv(s)
    ensures Inv(Step(s, NewStream))
  {
    var s' := Step(s, NewStream);
    NextID(|s.chans|);
    assert forall i | 0 <= i < |s.chans| :: s'.chans[i] == s.chans[i];
  }

  lemma NextID(n: nat)
    ensures AddU32((n + 1) % 0x1_0000_0000) == (n + 2) % 0x1_0000_0000
  {
  }

  lemma ChannelChangeKeepsInv(s: Streams, i: nat, c: Chan)
    requires Inv(s) && i < |s.chans| && ChanOk(c) && c.id == s.chans[i].id && c.closed == s.chans[i].closed
    ensures Inv(s.(chans := s.chans[i := c]))
  {
  }

  lemma CloseKeepsInv(s: Streams, id: U32)
    requires Inv(s) && id in s.table
    ensures Inv(Step(s, CloseStream(id)))
  {
    var s' := Step(s, CloseStream(id));
    assert forall other | other in s'.table :: s.chans[s.table[other]].id == other;
  }

  lemma StepKeepsInv(s: Streams, e: Event)
    requires Inv(s)
    ensures Inv(Step(s, e))
  {
    match e
    case NewStream => NewStreamKeepsInv(s);
    case Push(id, p) =>
      if id in s.table {
        OfferKeepsOk(s.chans[s.table[id]], p);
        ChannelChangeKeepsInv(s, s.table[id], Offer(s.chans[s.table[id]], p));
      }
    case Receive(i) =>
      if i < |s.chans| {
        TakeKeepsOk(s.chans[i]);
        ChannelChangeKeepsInv(s, i, Take(s.chans[i]));
      }
    case CloseStream(id) => if id in s.table { CloseKeepsInv(s, id); }
  }

  /** For every stream of every run: what the reader got, followed by what waits for it, is the pushes
      minus the dropped ones, in order; the counts add up; and at most 32 wait. */
  lemma RunConserves(es: seq<Event>)
    ensures Inv(Start()) && forall i | 0 <= i < |Run(Start(), es).chans| :: ChanOk(Run(Start(), es).chans[i])
  {
    assert Inv(Run(Start(), es));
  }

  /** A push is dropped exactly when 32 payloads wait, and then it is the newest that is lost. */
  lemma PushDropsNewestIff(s: Streams, id: U32, p: Payload)
    requires Inv(s) && id in s.table
    ensures var c, c' := s.chans[s.table[id]], Step(s, Push(id, p)).chans[s.table[id]];
      && (c'.buffer == c.buffer <==> |c.buffer| == CAPACITY)
      && (|c.buffer| < CAPACITY ==> c'.buffer == c.buffer + [p])
      && Dropped(c'.taken) == Dropped(c.taken) + (if |c.buffer| == CAPACITY then 1 else 0)
  {
    var c, c' := s.chans[s.table[id]], Step(s, Push(id, p)).chans[s.table[id]];
    assert c'.taken[..|c.taken|] == c.taken;
  }

  /** A read takes the oldest payload that waits, and nothing when none waits. */
  lemma ReceiveTakesOldest(s: Streams, i: nat)
    requires Inv(s) && i < |s.chans|
    ensures var c, c' := s.chans[i], Step(s, Receive(i)).chans[i];
      if |c.buffer| == 0 then c' == c
      else c.buffer == [c.buffer[0]] + c'.buffer && c'.received == c.received + [c.buffer[0]] && c' == c.(buffer := c'.buffer, received := c'.received)
  {
  }

  /** An event touches no stream but its own: a new one begins empty and open under the next id and its id
      leads to it; a close leaves what waits, and its id leads nowhere; a push to an unknown id does nothing. */
  lemma EventsAreLocal(s: Streams, e: Event, i: nat)
    requires Inv(s) && i < |s.chans|
    ensures var s' := Step(s, e);
      && i < |s'.chans|
      && (s'.chans[i] != s.chans[i] ==>
            (e.Push? && e.id in s.table && s.table[e.id] == i) || e == Receive(i) || (e.CloseStream? && e.id in s.table && s.table[e.id] == i))
      && (e.NewStream? ==>
            && s'.nextStreamID == (s.nextStreamID + 1) % 0x1_0000_0000 && |s'.chans| == |s.chans| + 1
            && s'.chans[|s.chans|] == Chan(s'.nextStreamID, [], false, [], [], [])
            && s'.table == s.table[s'.nextStreamID := |s.chans|])
      && (e.CloseStream? ==>
            && e.id !in s'.table && (forall other | other != e.id :: other in s'.table <==> other in s.table)
            && (e.id in s.table ==> s'.chans[s.table[e.id]] == s.chans[s.table[e.id]].(closed := true)))
      && (!e.NewStream? ==> |s'.chans| == |s.chans| && s'.nextStreamID == s.nextStreamID)
      && (e.Push? || e.Receive? ==> s'.table == s.table)
  {
  }

  /** The first 2^32 streams have distinct ids, and those before the counter wraps have ids of at least 2. */
  lemma IdsAreDistinctUntilWrap(s: Streams, i: nat, j: nat)
    requires Inv(s) && i < j < |s.chans|
    ensures s.chans[i].id == s.chans[j].id <==> (j - i) % 0x1_0000_0000 == 0
    ensures j < 0x1_0000_0000 ==> s.chans[i].id != s.chans[j].id
    ensures j < 0xFFFF_FFFE ==> s.chans[j].id == j + 2
  {
    var q := (j - i) / 0x1_0000_0000;
    if (j - i) % 0x1_0000_0000 == 0 {
      assert j + 2 == (i + 2) + q * 0x1_0000_0000;
    }
    var a, b := (i + 2) / 0x1_0000_0000, (j + 2) / 0x1_0000_0000;
    assert i + 2 == a * 0x1_0000_0000 + s.chans[i].id && j + 2 == b * 0x1_0000_0000 + s.chans[j].id;
    if s.chans[i].id == s.chans[j].id {
      assert j - i == (b - a) * 0x1_0000_0000;
    }
  }

  /** A closed stream takes no more pushes and keeps what waits in it for its reader. */
  lemma ClosedTakesNothing(s: Streams, e: Event, i: nat)
    requires Inv(s) && i < |s.chans| && s.chans[i].closed
    ensures var c' := Step(s, e).chans[i];
      c'.closed && c'.pushed == s.chans[i].pushed && c'.received + c'.buffer == s.chans[i].received + s.chans[i].buffer
  {
    if e == Receive(i) && |s.chans[i].buffer| > 0 {
      assert s.chans[i].buffer == [s.chans[i].buffer[0]] + s.chans[i].buffer[1..];
    }
  }

  // ---------- the steps between the locks ----------

  /** A push that has looked its channel up and has yet to send on it. */
  datatype Pending = Pending(chan: nat, payload: Payload)

  /** The session with every goroutine between its lock sections: pushes that have yet to send, channels
      taken out of the table that have yet to be closed, and whether a send has panicked. */
  datatype Fine = Fine(s: Streams, sends: map<nat, Pending>, closing: set<nat>, panicked: bool)

  datatype FineEvent =
    | Register
    | Lookup(who: nat, id: U32, payload: Payload)
    | Send(who: nat)
    | Drain(chan: nat)
    | Unlist(id: U32)
    | Close(chan: nat)

  predicate FineEnabled(f: Fine, e: FineEvent) {
    && !f.panicked
    && match e
       case Lookup(who, _, _) => who !in f.sends
       case Send(who) => who in f.sends
       case Close(i) => i in f.closing
       case _ => true
  }

  predicate FineTableOk(f: Fine) {
    TableOk(f.s) && (forall who | who in f.sends :: f.sends[who].chan < |f.s.chans|) && forall i | i in f.closing :: i < |f.s.chans|
  }

  /** A send on a closed channel panics, whether or not there is room. */
  function FineStep(f: Fine, e: FineEvent): Fine
    requires FineTableOk(f) && FineEnabled(f, e)
  {
    match e
    case Register => f.(s := Step(f.s, NewStream))
    case Lookup(who, id, p) => if id in f.s.table then f.(sends := f.sends[who := Pending(f.s.table[id], p)]) else f
    case Send(who) =>
      var i := f.sends[who].chan;
      var g := f.(sends := f.sends - {who});
      if f.s.chans[i].closed then g.(panicked := true)
      else g.(s := f.s.(chans := f.s.chans[i := Offer(f.s.chans[i], f.sends[who].payload)]))
    case Drain(i) => f.(s := Step(f.s, Receive(i)))
    case Unlist(id) =>
      if id in f.s.table then f.(s := f.s.(table := f.s.table - {id}), closing := f.closing + {f.s.table[id]}) else f
    case Close(i) => f.(s := f.s.(chans := f.s.chans[i := f.s.chans[i].(closed := true)]), closing := f.closing - {i})
  }

  /** Conservation and order for every stream at every such step, and no channel is closed twice. */
  ghost predicate FineInv(f: Fine) {
    && Inv(f.s) && FineTableOk(f)
    && forall i | i in f.closing :: !f.s.chans[i].closed && Unlisted(f.s, i)
  }

  ghost predicate Unlisted(s: Streams, i: nat) {
    forall id | id in s.table :: s.table[id] != i
  }

  lemma SendKeepsFineInv(f: Fine, who: nat)
    requires FineInv(f) && FineEnabled(f, Send(who))
    ensures FineInv(FineStep(f, Send(who)))
  {
    var i := f.sends[who].chan;
    OfferKeepsOk(f.s.chans[i], f.sends[who].payload);
    ChannelChangeKeepsInv(f.s, i, Offer(f.s.chans[i], f.sends[who].payload));
  }

  lemma DrainKeepsFineInv(f: Fine, i: nat)
    requires FineInv(f) && FineEnabled(f, Drain(i))
    ensures FineInv(FineStep(f, Drain(i)))
  {
    StepKeepsInv(f.s, Receive(i));
  }

  lemma UnlistKeepsFineInv(f: Fine, id: U32)
    requires FineInv(f) && FineEnabled(f, Unlist(id))
    ensures FineInv(FineStep(f, Unlist(id)))
  {
    if id in f.s.table {
      var g := FineStep(f, Unlist(id));
      forall other | other in g.s.table ensures g.s.table[other] != f.s.table[id] {
        assert f.s.chans[f.s.table[other]].id == other;
      }
    }
  }

  lemma CloseKeepsFineInv(f: Fine, i: nat)
    requires FineInv(f) && FineEnabled(f, Close(i))
    ensures FineInv(FineStep(f, Close(i)))
  {
    assert Unlisted(f.s, i);
    assert ChanOk(f.s.chans[i]);
  }

  lemma RegisterKeepsFineInv(f: Fine)
    requires FineInv(f) && FineEnabled(f, Register)
    ensures FineInv(FineStep(f, Register))
  {
    NewStreamKeepsInv(f.s);
    var g := FineStep(f, Register);
    forall i | i in g.closing ensures !g.s.chans[i].closed && Unlisted(g.s, i) {
      assert Unlisted(f.s, i) && g.s.chans[i] == f.s.chans[i];
    }
  }

  lemma FineStepKeepsInv(f: Fine, e: FineEvent)
    requires FineInv(f) && FineEnabled(f, e)
    ensures FineInv(FineStep(f, e))
  {
    match e
    case Register => RegisterKeepsFineInv(f);
    case Lookup(_, _, _) =>
    case Send(who) => SendKeepsFineInv(f, who);
    case Drain(i) => DrainKeepsFineInv(f, i);
    case Unlist(id) => UnlistKeepsFineInv(f, id);
    case Close(i) => CloseKeepsFineInv(f, i);
  }

  ghost predicate FineRuns(f: Fine, es: seq<FineEvent>)
    requires FineInv(f)
    decreases |es|
  {
    |es| == 0 || (FineEnabled(f, es[0]) && (FineStepKeepsInv(f, es[0]); FineRuns(FineStep(f, es[0]), es[1..])))
  }

  ghost function FineRun(f: Fine, es: seq<FineEvent>): (g: Fine)
    requires FineInv(f) && FineRuns(f, es)
    ensures FineInv(g)
    decreases |es|
  {
    if |es| == 0 then f
    else
      FineStepKeepsInv(f, es[0]);
      FineRun(FineStep(f, es[0]), es[1..])
  }

  /** A new session. */
  ghost function FineStart(): (f: Fine)
    ensures FineInv(f)
  {
    Fine(Start(), map[], {}, false)
  }

  /** On every interleaving of the steps between the locks: every stream conserves its payloads in order,
      and no channel is closed twice. */
  lemma FineRunConserves(es: seq<FineEvent>)
    requires FineRuns(FineStart(), es)
    ensures var g := FineRun(FineStart(), es);
      && (forall i | 0 <= i < |g.s.chans| :: ChanOk(g.s.chans[i]))
      && (forall i | i in g.closing :: !g.s.chans[i].closed)
  {
    assert FineInv(FineRun(FineStart(), es));
  }

  /** One step closes the channel by its Close, and by nothing else. */
  lemma ClosedOnlyByClose(f: Fine, e: FineEvent, i: nat)
    requires FineInv(f) && FineEnabled(f, e) && i < |f.s.chans|
    ensures i < |FineStep(f, e).s.chans|
    ensures FineStep(f, e).s.chans[i].closed <==> f.s.chans[i].closed || e == Close(i)
  {
  }

  lemma {:induction false} ClosedTracks(f: Fine, es: seq<FineEvent>, i: nat)
    requires FineInv(f) && FineRuns(f, es) && i < |f.s.chans|
    ensures i < |FineRun(f, es).s.chans|
    ensures FineRun(f, es).s.chans[i].closed <==> f.s.chans[i].closed || Close(i) in es
    decreases |es|
  {
    if |es| > 0 {
      FineStepKeepsInv(f, es[0]);
      ClosedOnlyByClose(f, es[0], i);
      ClosedTracks(FineStep(f, es[0]), es[1..], i);
    }
  }

  lemma {:induction false} PendingWaits(f: Fine, es: seq<FineEvent>, who: nat)
    requires FineInv(f) && FineRuns(f, es) && who in f.sends && Send(who) !in es
    ensures who in FineRun(f, es).sends && FineRun(f, es).sends[who] == f.sends[who]
    decreases |es|
  {
    if |es| > 0 {
      FineStepKeepsInv(f, es[0]);
      PendingWaits(FineStep(f, es[0]), es[1..], who);
    }
  }

  /** The session after one enabled step, with the invariant it keeps. */
  ghost function After(f: Fine, e: FineEvent): (g: Fine)
    requires FineInv(f) && FineEnabled(f, e)
    ensures FineInv(g)
  {
    FineStepKeepsInv(f, e);
    FineStep(f, e)
  }

  /** A push that has found its stream panics at the send if and only if the stream's close came between
      the lookup and the send, whatever else happened there; otherwise it offers its payload. */
  lemma SendPanicsIffClosedInGap(f: Fine, who: nat, id: U32, payload: Payload, between: seq<FineEvent>)
    requires FineInv(f) && FineEnabled(f, Lookup(who, id, payload)) && id in f.s.table
    requires FineRuns(After(f, Lookup(who, id, payload)), between) && Send(who) !in between
    requires !FineRun(After(f, Lookup(who, id, payload)), between).panicked
    ensures var i, g := f.s.table[id], FineRun(After(f, Lookup(who, id, payload)), between);
      && FineEnabled(g, Send(who)) && i < |g.s.chans|
      && (FineStep(g, Send(who)).panicked <==> Close(i) in between)
      && (Close(i) !in between ==> FineStep(g, Send(who)).s.chans[i] == Offer(g.s.chans[i], payload))
  {
    var f1 := After(f, Lookup(who, id, payload));
    PendingWaits(f1, between, who);
    ClosedTracks(f1, between, f.s.table[id]);
  }

  /** A stream is closed between the lookup and the send of a push: the session before event number n. */
  function Stage(n: nat, payload: Payload): Fine {
    var stream := Chan(2, [], false, [], [], []);
    if n == 0 then Fine(Start(), map[], {}, false)
    else if n == 1 then Fine(Streams(2, map[2 := 0], [stream]), map[], {}, false)
    else if n == 2 then Fine(Streams(2, map[2 := 0], [stream]), map[0 := Pending(0, payload)], {}, false)
    else if n == 3 then Fine(Streams(2, map[], [stream]), map[0 := Pending(0, payload)], {0}, false)
    else Fine(Streams(2, map[], [stream.(closed := true)]), map[0 := Pending(0, payload)], {}, false)
  }

  function StageEvent(n: nat, payload: Payload): FineEvent {
    if n == 0 then Register
    else if n == 1 then Lookup(0, 2, payload)
    else if n == 2 then Unlist(2)
    else if n == 3 then Close(0)
    else Send(0)
  }

  lemma StageLeads(n: nat, payload: Payload)
    requires n < 4
    ensures FineTableOk(Stage(n, payload)) && FineEnabled(Stage(n, payload), StageEvent(n, payload))
    ensures FineStep(Stage(n, payload), StageEvent(n, payload)) == Stage(n + 1, payload)
  {
    assert {0} - {0} == {};
    assert map[2 := 0] - {2} == map[];
  }

  /** The events from number n on. */
  function StageEvents(n: nat, payload: Payload): seq<FineEvent>
    decreases 4 - n
  {
    if n >= 4 then [Send(0)] else [StageEvent(n, payload)] + StageEvents(n + 1, payload)
  }

  lemma LastStage(payload: Payload)
    requires FineInv(Stage(4, payload))
    ensures FineRuns(Stage(4, payload), [Send(0)]) && FineRun(Stage(4, payload), [Send(0)]).panicked
  {
    FineStepKeepsInv(Stage(4, payload), Send(0));
    assert [Send(0)][1..] == [];
  }

  lemma {:induction false} FromStage(n: nat, payload: Payload)
    requires n <= 4 && FineInv(Stage(n, payload))
    ensures FineRuns(Stage(n, payload), StageEvents(n, payload)) && FineRun(Stage(n, payload), StageEvents(n, payload)).panicked
    decreases 4 - n
  {
    if n == 4 {
      LastStage(payload);
    } else {
      StageLeads(n, payload);
      FineStepKeepsInv(Stage(n, payload), StageEvent(n, payload));
      FromStage(n + 1, payload);
      assert StageEvents(n, payload)[1..] == StageEvents(n + 1, payload);
    }
  }

  lemma StageEventsAre(payload: Payload)
    ensures StageEvents(0, payload) == [Register, Lookup(0, 2, payload), Unlist(2), Close(0), Send(0)]
  {
    assert StageEvents(3, payload) == [Close(0), Send(0)];
    assert StageEvents(2, payload) == [Unlist(2), Close(0), Send(0)];
    assert StageEvents(1, payload) == [Lookup(0, 2, payload), Unlist(2), Close(0), Send(0)];
  }

  /** It happens, on a run of five events from the start. */
  lemma PushCanPanic(payload: Payload)
    ensures var es := [Register, Lookup(0, 2, payload), Unlist(2), Close(0), Send(0)];
      FineRuns(FineStart(), es) && FineRun(FineStart(), es).panicked
  {
    assert Stage(0, payload) == FineStart();
    FromStage(0, payload);
    StageEventsAre(payload);
  }

  /** A registration and a read are one step at either grain; a lookup or a close of an unknown id is none. */
  lemma SingleStepsAreAtomic(f: Fine, i: nat, who: nat, id: U32, payload: Payload)
    requires FineInv(f) && !f.panicked && who !in f.sends
    ensures FineStep(f, Register) == f.(s := Step(f.s, NewStream)) && FineStep(f, Drain(i)) == f.(s := Step(f.s, Receive(i)))
    ensures id !in f.s.table ==> FineStep(f, Lookup(who, id, payload)) == f && FineStep(f, Unlist(id)) == f
  {
  }

  /** Uninterrupted, lookup and send are the atomic push, and the two steps of a close the atomic close. */
  lemma UninterruptedIsAtomic(f: Fine, who: nat, id: U32, payload: Payload)
    requires FineInv(f) && !f.panicked && who !in f.sends && id in f.s.table
    ensures var f1 := FineStep(f, Lookup(who, id, payload));
      FineTableOk(f1) && FineEnabled(f1, Send(who)) && FineStep(f1, Send(who)) == f.(s := Step(f.s, Push(id, payload)))
    ensures var f1 := FineStep(f, Unlist(id));
      && FineTableOk(f1) && FineEnabled(f1, Close(f.s.table[id]))
      && FineStep(f1, Close(f.s.table[id])) == f.(s := Step(f.s, CloseStream(id)))
  {
    assert f.sends[who := Pending(f.s.table[id], payload)] - {who} == f.sends;
    assert Unlisted(f.s, f.s.table[id]) || f.s.table[id] !in f.closing;
    assert (f.closing + {f.s.table[id]}) - {f.s.table[id]} == f.closing;
  }

  // ---------- the session as the program has it ----------

  class Channel {
    var buffer: seq<Payload>
    var closed: bool
    const id: U32
    ghost const index: nat
    ghost var pushed: seq<Payload>
    ghost var taken: seq<bool>
    ghost var received: seq<Payload>

    constructor (id: U32, ghost index: nat)
      ensures View() == Chan(id, [], false, [], [], []) && this.index == index
    {
      this.id, buffer, closed := id, [], false;
      this.index, pushed, taken, received := index, [], [], [];
    }

    ghost function View(): Chan
      reads this
    {
      Chan(id, buffer, closed, pushed, taken, received)
    }

    /** The non-blocking send. */
    method TrySend(p: Payload)
      modifies this
      ensures View() == Offer(old(View()), p)
    {
      pushed := pushed + [p];
      if |buffer| < CAPACITY {
        buffer := buffer + [p];
        taken := taken + [true];
      } else {
        taken := taken + [false];
      }
    }

    method TryReceive() returns (p: Option<Payload>)
      modifies this
      ensures View() == Take(old(View()))
      ensures p == if |old(buffer)| == 0 then None else Some(old(buffer)[0])
    {
      if |buffer| == 0 { return None; }
      p := Some(buffer[0]);
      received := received + [buffer[0]];
      buffer := buffer[1..];
    }
  }

  class Session {
    var nextStreamID: U32
    var streams: map<U32, Channel>
    ghost var chans: seq<Channel>

    ghost predicate Shape()
      reads this, chans
    {
      && (forall i | 0 <= i < |chans| :: chans[i].index == i)
      && (forall id | id in streams :: streams[id].index < |chans| && chans[streams[id].index] == streams[id])
    }

    ghost function View(): Streams
      reads this, chans, streams.Values
    {
      Streams(nextStreamID, map id | id in streams :: streams[id].index, seq(|chans|, i requires 0 <= i < |chans| reads this, chans => chans[i].View()))
    }

    ghost predicate Valid()
      reads this, chans, streams.Values
    {
      Shape() && Inv(View())
    }

    constructor ()
      ensures Valid() && View() == Start() && chans == []
    {
      nextStreamID, streams, chans := 1, map[], [];
    }

    method NewStream() returns (id: U32, ch: Channel)
      requires Valid()
      modifies this
      ensures Valid() && fresh(ch) && chans == old(chans) + [ch] && id == ch.id
      ensures View() == Step(old(View()), Event.NewStream)
    {
      StepKeepsInv(View(), Event.NewStream);
      id := (nextStreamID + 1) % 0x1_0000_0000;
      ch := Register(id);
    }

    method Register(id: U32) returns (ch: Channel)
      requires Shape()
      modifies this
      ensures Shape() && fresh(ch) && chans == old(chans) + [ch] && ch.id == id
      ensures View() == Streams(id, old(View()).table[id := |old(chans)|], old(View()).chans + [Chan(id, [], false, [], [], [])])
    {
      ch := new Channel(id, |chans|);
      nextStreamID := id;
      streams := streams[id := ch];
      chans := chans + [ch];
      assert View().table == old(View()).table[id := |old(chans)|];
      assert View().chans == old(View()).chans + [ch.View()];
    }

    /** Changing one channel changes the view of that channel and nothing else. */
    twostate lemma OneChannelChanged(ch: Channel)
      requires old(Shape()) && ch.index < |chans| && chans[ch.index] == ch
      requires chans == old(chans) && streams == old(streams) && nextStreamID == old(nextStreamID)
      requires forall i | 0 <= i < |chans| && i != ch.index :: unchanged(chans[i])
      ensures Shape() && View() == old(View()).(chans := old(View()).chans[ch.index := ch.View()])
    {
      assert View().table == old(View()).table;
      assert View().chans == old(View()).chans[ch.index := ch.View()];
    }

    method Push(id: U32, payload: Payload)
      requires Valid()
      modifies chans
      ensures Valid() && View() == Step(old(View()), Event.Push(id, payload))
    {
      StepKeepsInv(View(), Event.Push(id, payload));
      if id !in streams { return; }
      var ch := streams[id];
      ch.TrySend(payload);
      OneChannelChanged(ch);
    }

    method Receive(ch: Channel) returns (p: Option<Payload>)
      requires Valid() && ch.index < |chans| && chans[ch.index] == ch
      modifies ch
      ensures Valid() && View() == Step(old(View()), Event.Receive(ch.index))
      ensures p == if |old(ch.buffer)| == 0 then None else Some(old(ch.buffer)[0])
    {
      StepKeepsInv(View(), Event.Receive(ch.index));
      p := ch.TryReceive();
      OneChannelChanged(ch);
    }

    method CloseStream(id: U32)
      requires Valid()
      modifies this, chans
      ensures Valid() && chans == old(chans) && View() == Step(old(View()), Event.CloseStream(id))
    {
      StepKeepsInv(View(), Event.CloseStream(id));
      if id !in streams { return; }
      var ch := streams[id];
      CloseChannel(ch);
      Forget(id);
    }

    method Forget(id: U32)
      requires Shape()
      modifies `streams
      ensures Shape() && View() == old(View()).(table := old(View()).table - {id})
    {
      streams := streams - {id};
      assert View().table == old(View()).table - {id};
    }

    method CloseChannel(ch: Channel)
      requires Shape() && ch.index < |chans| && chans[ch.index] == ch
      modifies ch
      ensures Shape()
      ensures View() == old(View()).(chans := old(View()).chans[ch.index := old(ch.View()).(closed := true)])
    {
      ch.closed := true;
      OneChannelChanged(ch);
    }
  }
}
