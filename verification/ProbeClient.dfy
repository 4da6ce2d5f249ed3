/** The v2 probe client: each request goes over UDP when the policy says so and falls back to TCP, and
    its outcome drives the policy. */
module ProbeClient {
  import opened Wire
  import SM = SessionModel
  import Policy

  /** Outcome of sealing, of sending, and of waiting for the answer on one transport. */
  datatype Exchange = Exchange(sealOk: bool, sendOk: bool, reply: Option<Frame>)

  /** One tick of the session: the probe, what each transport would do, and the clock reads. */
  datatype Tick = Tick(plain: seq<Byte>, udp: Exchange, tcp: Exchange, rtt: int,
                       fallbackNow: int, fallbackStamp: int, endNow: int, endStamp: int)

  datatype Reply = NoReply | ViaUDP(payload: seq<Byte>) | ViaTCP(payload: seq<Byte>)

  function UDPReply(key: Key, x: Exchange): Option<seq<Byte>> {
    if x.sealOk && x.sendOk && x.reply.Some? then ParseDatagramFrameV2(key, x.reply.value) else None
  }

  function TCPReply(key: Key, x: Exchange): Option<seq<Byte>> {
    if x.sealOk && x.sendOk && x.reply.Some? then ParseDataFrameV2(key, x.reply.value) else None
  }

  /** The answer to a request, and the policy after it. `canUDP` is what the session's setup allows. */
  function Request(s: Policy.State, canUDP: bool, key: Key, t: Tick): (Policy.State, Reply) {
    if canUDP && s.current == Policy.UDP && UDPReply(key, t.udp).Some? then
      (s, ViaUDP(UDPReply(key, t.udp).value))
    else
      var s1 := if canUDP && s.current == Policy.UDP then Policy.AfterObserve(s, false, 0, t.fallbackNow, t.fallbackStamp) else s;
      (s1, if TCPReply(key, t.tcp).Some? then ViaTCP(TCPReply(key, t.tcp).value) else NoReply)
  }

  /** A tick reports the outcome of its request; a failed request ends the session. */
  function AfterTick(s: Policy.State, canUDP: bool, key: Key, t: Tick): Policy.State {
    var (s1, reply) := Request(s, canUDP, key, t);
    Policy.AfterObserve(s1, !reply.NoReply?, if reply.NoReply? then 0 else t.rtt, t.endNow, t.endStamp)
  }

  predicate TickOk(s: Policy.State, canUDP: bool, key: Key, t: Tick) {
    !Request(s, canUDP, key, t).1.NoReply?
  }

  /** The policy after a session that ran through these ticks or ended at the first failed one. */
  function AfterSession(s: Policy.State, canUDP: bool, key: Key, ticks: seq<Tick>): Policy.State
    decreases |ticks|
  {
    if |ticks| == 0 then s
    else if TickOk(s, canUDP, key, ticks[0]) then AfterSession(AfterTick(s, canUDP, key, ticks[0]), canUDP, key, ticks[1..])
    else AfterTick(s, canUDP, key, ticks[0])
  }

  /** Some tick of the session fails. */
  predicate SessionFails(s: Policy.State, canUDP: bool, key: Key, ticks: seq<Tick>)
    decreases |ticks|
  {
    |ticks| > 0 && (!TickOk(s, canUDP, key, ticks[0]) || SessionFails(AfterTick(s, canUDP, key, ticks[0]), canUDP, key, ticks[1..]))
  }

  /** The exchange went through and its answer opens under the key to this payload. */
  predicate Answers(key: Key, x: Exchange, datagram: bool, payload: seq<Byte>) {
    && x.sealOk && x.sendOk && x.reply.Some? && x.reply.value.Data? && x.reply.value.protoVersion == "v2"
    && (datagram ==> x.reply.value.sessionID != "") && x.reply.value.ciphertext == Sealed(key, payload)
  }

  /** A request is answered over UDP, with what its datagram's answer holds, exactly when UDP is in use and
      that answer opens; failing that over TCP, with what the TCP answer holds, exactly when that opens. */
  lemma RequestAnsweredIff(s: Policy.State, canUDP: bool, key: Key, t: Tick, payload: seq<Byte>)
    ensures var reply := Request(s, canUDP, key, t).1;
      var usesUDP := canUDP && s.current == Policy.UDP;
      && (reply == ViaUDP(payload) <==> usesUDP && Answers(key, t.udp, true, payload))
      && (reply == ViaTCP(payload) <==> !(usesUDP && exists q :: Answers(key, t.udp, true, q)) && Answers(key, t.tcp, false, payload))
      && (reply.NoReply? <==> !(usesUDP && exists q :: Answers(key, t.udp, true, q)) && !exists q :: Answers(key, t.tcp, false, q))
  {
    if UDPReply(key, t.udp).Some? { assert Answers(key, t.udp, true, UDPReply(key, t.udp).value); }
    if TCPReply(key, t.tcp).Some? { assert Answers(key, t.tcp, false, TCPReply(key, t.tcp).value); }
  }

  /** What a tick leaves on record: no failures and the round trip after an answer; without one, a failure
      for the request, another for a datagram that was tried, and the old round trip. */
  lemma TickIsRecorded(s: Policy.State, canUDP: bool, key: Key, t: Tick)
    ensures var s' := AfterTick(s, canUDP, key, t);
      if TickOk(s, canUDP, key, t)
      then s'.consecutiveFailures == 0 && s'.failuresUDP == 0 && s'.lastRTT == (if t.rtt > 0 then t.rtt else s.lastRTT)
      else
        var more := if canUDP && s.current == Policy.UDP then 2 else 1;
        s'.consecutiveFailures == s.consecutiveFailures + more && s'.failuresUDP == s.failuresUDP + more && s'.lastRTT == s.lastRTT
  {
  }

  /** A session ends at its first failed tick: what would come after it does not happen. */
  lemma {:induction false} SessionEndsAtFailure(s: Policy.State, canUDP: bool, key: Key, first: seq<Tick>, rest: seq<Tick>)
    ensures AfterSession(s, canUDP, key, first + rest) ==
            if SessionFails(s, canUDP, key, first) then AfterSession(s, canUDP, key, first)
            else AfterSession(AfterSession(s, canUDP, key, first), canUDP, key, rest)
    ensures SessionFails(s, canUDP, key, first + rest) <==>
            SessionFails(s, canUDP, key, first) || SessionFails(AfterSession(s, canUDP, key, first), canUDP, key, rest)
    decreases |first|
  {
    if |first| == 0 {
      assert first + rest == rest;
    } else {
      assert (first + rest)[1..] == first[1..] + rest;
      SessionEndsAtFailure(AfterTick(s, canUDP, key, first[0]), canUDP, key, first[1..], rest);
    }
  }

  lemma SessionUnfolds(s: Policy.State, canUDP: bool, key: Key, ticks: seq<Tick>, i: nat)
    requires i < |ticks|
    ensures var ok := TickOk(s, canUDP, key, ticks[i]);
      var s' := AfterTick(s, canUDP, key, ticks[i]);
      && AfterSession(s, canUDP, key, ticks[i..]) == (if ok then AfterSession(s', canUDP, key, ticks[i + 1..]) else s')
      && SessionFails(s, canUDP, key, ticks[i..]) == (!ok || SessionFails(s', canUDP, key, ticks[i + 1..]))
  {
    assert ticks[i..][0] == ticks[i] && ticks[i..][1..] == ticks[i + 1..];
  }

  class Client {
    const v2: bool
    const engine: Policy.Engine
    var sessionID: string
    var seqCounter: U32
    var udpOut: seq<Frame>
    var tcpOut: seq<Frame>

    constructor (v2: bool, mode: Policy.Mode, now: int)
      ensures fresh(engine) && engine.View() == Policy.Initial(mode, now) && this.v2 == v2 && seqCounter == 0 && sessionID == ""
    {
      this.v2 := v2;
      engine := new Policy.Engine(mode, now);
      sessionID, seqCounter, udpOut, tcpOut := "", 0, [], [];
    }

    predicate CanUDP(hasUDP: bool)
      reads this
    {
      v2 && hasUDP && sessionID != ""
    }

    /** A request draws one sequence number. The datagram and the TCP frame it falls back to carry the
        same number, mode and payload. */
    method SendRequest(key: Key, hasUDP: bool, t: Tick) returns (reply: Reply)
      modifies engine, `seqCounter, `udpOut, `tcpOut
      ensures CanUDP(hasUDP) == (v2 && hasUDP && sessionID != "")
      ensures (engine.View(), reply) == Request(old(engine.View()), CanUDP(hasUDP), key, t)
      ensures seqCounter == SM.Next(old(seqCounter))
      ensures var mode := SelectObfsModeForProfile(old(engine.profile), seqCounter, |t.plain|);
        var triesUDP := v2 && hasUDP && sessionID != "" && old(engine.current) == Policy.UDP;
        && udpOut == (if triesUDP && t.udp.sealOk && t.udp.sendOk
             then old(udpOut) + [BuildDatagramFrameV2(key, sessionID, 2, seqCounter, mode, t.plain)] else old(udpOut))
        && tcpOut == (if !reply.ViaUDP? && t.tcp.sealOk && t.tcp.sendOk
             then old(tcpOut) + [BuildDataFrameV2(key, 2, seqCounter, mode, t.plain)] else old(tcpOut))
    {
      seqCounter := (seqCounter + 1) % 0x1_0000_0000;
      var mode := SelectObfsModeForProfile(engine.profile, seqCounter, |t.plain|);
      var useUDP := v2 && engine.current == Policy.UDP && hasUDP && sessionID != "";
      if useUDP {
        var raw := BuildDatagramFrameV2(key, sessionID, 2, seqCounter, mode, t.plain);
        if t.udp.sealOk && t.udp.sendOk {
          udpOut := udpOut + [raw];
          if t.udp.reply.Some? {
            var payload := ParseDatagramFrameV2(key, t.udp.reply.value);
            if payload.Some? { return ViaUDP(payload.value); }
          }
        }
        engine.Observe(false, 0, t.fallbackNow, t.fallbackStamp);
      }
      reply := NoReply;
      if !t.tcp.sealOk || !t.tcp.sendOk { return; }
      tcpOut := tcpOut + [BuildDataFrameV2(key, 2, seqCounter, mode, t.plain)];
      if t.tcp.reply.None? { return; }
      var payload := ParseDataFrameV2(key, t.tcp.reply.value);
      if payload.Some? { reply := ViaTCP(payload.value); }
    }

    /** One round of the session's loop. */
    method RunTick(key: Key, hasUDP: bool, t: Tick) returns (answered: bool)
      modifies engine, `seqCounter, `udpOut, `tcpOut
      ensures answered == TickOk(old(engine.View()), CanUDP(hasUDP), key, t)
      ensures engine.View() == AfterTick(old(engine.View()), CanUDP(hasUDP), key, t)
      ensures seqCounter == SM.Next(old(seqCounter))
    {
      var reply := SendRequest(key, hasUDP, t);
      answered := !reply.NoReply?;
      if !answered {
        engine.Observe(false, 0, t.endNow, t.endStamp);
        return;
      }
      engine.Observe(true, t.rtt, t.endNow, t.endStamp);
    }

    /** The loop of a session: it ends with the context (the ticks run out) or with a failed request. */
    method RunSession(key: Key, hasUDP: bool, ticks: seq<Tick>) returns (failed: bool)
      modifies engine, `seqCounter, `udpOut, `tcpOut
      ensures engine.View() == AfterSession(old(engine.View()), CanUDP(hasUDP), key, ticks)
      ensures failed == SessionFails(old(engine.View()), CanUDP(hasUDP), key, ticks)
    {
      var i := 0;
      while i < |ticks|
        invariant 0 <= i <= |ticks| && sessionID == old(sessionID)
        invariant AfterSession(engine.View(), CanUDP(hasUDP), key, ticks[i..]) == AfterSession(old(engine.View()), CanUDP(hasUDP), key, ticks)
        invariant SessionFails(engine.View(), CanUDP(hasUDP), key, ticks[i..]) == SessionFails(old(engine.View()), CanUDP(hasUDP), key, ticks)
      {
        SessionUnfolds(engine.View(), CanUDP(hasUDP), key, ticks, i);
        var answered := RunTick(key, hasUDP, ticks[i]);
        if !answered { return true; }
        i := i + 1;
      }
      failed := false;
    }
  }

  // ---------- what the driver makes of the policy ----------

  /** After a successful tick the failure counters are zero. */
  lemma SuccessClearsFailures(s: Policy.State, canUDP: bool, key: Key, t: Tick)
    requires Policy.Inv(s) && TickOk(s, canUDP, key, t)
    ensures AfterTick(s, canUDP, key, t).consecutiveFailures == 0 && Policy.Inv(AfterTick(s, canUDP, key, t))
  {
    var s1 := Request(s, canUDP, key, t).0;
    Policy.StepKeepsInv(s, Policy.Observe(false, 0, t.fallbackNow, t.fallbackStamp));
    Policy.StepKeepsInv(s1, Policy.Observe(true, t.rtt, t.endNow, t.endStamp));
  }

  /** The datagram of a request went unanswered although UDP was in use. */
  predicate UDPFails(canUDP: bool, key: Key, t: Tick) {
    canUDP && UDPReply(key, t.udp).None?
  }

  /** The round trip the policy has on record after an answered tick. */
  function RTTAfter(s: Policy.State, t: Tick): int {
    if t.rtt > 0 then t.rtt else s.lastRTT
  }

  /** An answered tick would return to UDP at its end, had it left UDP in its middle. */
  predicate ReturnsToUDP(s: Policy.State, t: Tick) {
    0 < RTTAfter(s, t) < 250 * Policy.MILLISECOND && t.endNow - t.fallbackStamp > 8 * Policy.SECOND
  }

  /** An answered tick leaves UDP exactly when its datagram fails, that failure is not the first in a
      row, the last switch is more than two seconds old, and the answer does not bring it back. */
  lemma AnsweredTickLeavesUDPIff(s: Policy.State, canUDP: bool, key: Key, t: Tick)
    requires Policy.Inv(s) && s.current == Policy.UDP && TickOk(s, canUDP, key, t)
    ensures AfterTick(s, canUDP, key, t).current == Policy.TCP <==>
            && UDPFails(canUDP, key, t) && s.consecutiveFailures >= 1
            && t.fallbackNow - s.lastSwitchAt > 2 * Policy.SECOND && !ReturnsToUDP(s, t)
  {
    if canUDP { Policy.FailureSwitchesIff(s, 0, t.fallbackNow, t.fallbackStamp); }
  }

  /** A failed tick leaves UDP exactly when the last switch is more than two seconds old at its end, or
      already at its fallback, and the failure reported there is not the first in a row. A tick that
      tried UDP reports two failures, one that could not reports one. */
  lemma FailedTickLeavesUDPIff(s: Policy.State, canUDP: bool, key: Key, t: Tick)
    requires Policy.Inv(s) && s.current == Policy.UDP && !TickOk(s, canUDP, key, t)
    ensures AfterTick(s, canUDP, key, t).current == Policy.TCP <==>
            || ((canUDP || s.consecutiveFailures >= 1) && t.endNow - s.lastSwitchAt > 2 * Policy.SECOND)
            || (canUDP && s.consecutiveFailures >= 1 && t.fallbackNow - s.lastSwitchAt > 2 * Policy.SECOND)
  {
    var s1 := Request(s, canUDP, key, t).0;
    if canUDP {
      Policy.FailureSwitchesIff(s, 0, t.fallbackNow, t.fallbackStamp);
      Policy.StepKeepsInv(s, Policy.Observe(false, 0, t.fallbackNow, t.fallbackStamp));
    }
    if s1.current == Policy.UDP { Policy.FailureSwitchesIff(s1, 0, t.endNow, t.endStamp); }
  }

  /** A tick that starts on TCP returns to UDP exactly when it is answered, the round trip on record after
      it is under 250 milliseconds, and the last switch is more than eight seconds old. */
  lemma TickReturnsToUDPIff(s: Policy.State, canUDP: bool, key: Key, t: Tick)
    requires s.current == Policy.TCP
    ensures var s' := AfterTick(s, canUDP, key, t);
      var back := TickOk(s, canUDP, key, t) && 0 < RTTAfter(s, t) < 250 * Policy.MILLISECOND && t.endNow - s.lastSwitchAt > 8 * Policy.SECOND;
      && (s'.current == Policy.UDP <==> back)
      && s'.lastSwitchAt == (if back then t.endStamp else s.lastSwitchAt)
  {
    if TickOk(s, canUDP, key, t) { Policy.AnswerReturnsIff(s, t.rtt, t.endNow, t.endStamp); }
  }

  /** The tick is answered and still leaves UDP. */
  predicate LeavesUDPAnswered(s: Policy.State, canUDP: bool, key: Key, t: Tick) {
    && s.current == Policy.UDP && TickOk(s, canUDP, key, t) && UDPFails(canUDP, key, t)
    && s.consecutiveFailures >= 1 && t.fallbackNow - s.lastSwitchAt > 2 * Policy.SECOND && !ReturnsToUDP(s, t)
  }

  /** No tick of the session moves from UDP to TCP, except the one that ends it. */
  ghost predicate LeavesUDPOnlyAtTheEnd(s: Policy.State, canUDP: bool, key: Key, ticks: seq<Tick>)
    decreases |ticks|
  {
    |ticks| > 0 && TickOk(s, canUDP, key, ticks[0]) ==>
      && !(s.current == Policy.UDP && AfterTick(s, canUDP, key, ticks[0]).current == Policy.TCP)
      && LeavesUDPOnlyAtTheEnd(AfterTick(s, canUDP, key, ticks[0]), canUDP, key, ticks[1..])
  }

  /** From clear counters only the tick that ends the session can leave UDP. */
  lemma {:induction false} ClearSessionLeavesUDPOnlyAtTheEnd(s: Policy.State, canUDP: bool, key: Key, ticks: seq<Tick>)
    requires Policy.Inv(s) && s.consecutiveFailures == 0
    ensures LeavesUDPOnlyAtTheEnd(s, canUDP, key, ticks)
    decreases |ticks|
  {
    if |ticks| > 0 && TickOk(s, canUDP, key, ticks[0]) {
      SuccessClearsFailures(s, canUDP, key, ticks[0]);
      if s.current == Policy.UDP { AnsweredTickLeavesUDPIff(s, canUDP, key, ticks[0]); }
      ClearSessionLeavesUDPOnlyAtTheEnd(AfterTick(s, canUDP, key, ticks[0]), canUDP, key, ticks[1..]);
    }
  }

  /** Every session, from every state the policy can be in: a request is answered and yet moves from UDP
      to TCP if and only if it is the first, with a failure left over from before the session. */
  lemma SessionLeavesUDPOnlyAtTheEndIff(s: Policy.State, canUDP: bool, key: Key, ticks: seq<Tick>)
    requires Policy.Inv(s)
    ensures LeavesUDPOnlyAtTheEnd(s, canUDP, key, ticks) <==> !(|ticks| > 0 && LeavesUDPAnswered(s, canUDP, key, ticks[0]))
  {
    if |ticks| > 0 && TickOk(s, canUDP, key, ticks[0]) {
      SuccessClearsFailures(s, canUDP, key, ticks[0]);
      if s.current == Policy.UDP { AnsweredTickLeavesUDPIff(s, canUDP, key, ticks[0]); }
      ClearSessionLeavesUDPOnlyAtTheEnd(AfterTick(s, canUDP, key, ticks[0]), canUDP, key, ticks[1..]);
    }
  }

  /** So in every session of the program, after its first answered request. */
  lemma AfterFirstSuccess(mode: Policy.Mode, start: int, calls: seq<Policy.Call>, canUDP: bool, key: Key, first: Tick, ticks: seq<Tick>)
    requires TickOk(Policy.Run(Policy.Initial(mode, start), calls), canUDP, key, first)
    ensures LeavesUDPOnlyAtTheEnd(AfterTick(Policy.Run(Policy.Initial(mode, start), calls), canUDP, key, first), canUDP, key, ticks)
  {
    Policy.ReachableKeepsInv(mode, start, calls);
    var s := Policy.Run(Policy.Initial(mode, start), calls);
    SuccessClearsFailures(s, canUDP, key, first);
    ClearSessionLeavesUDPOnlyAtTheEnd(AfterTick(s, canUDP, key, first), canUDP, key, ticks);
  }

  /** At `at` a request goes out; what does not answer takes three seconds, what answers 40 milliseconds. */
  function TickAt(at: int, udp: Exchange, tcp: Exchange, udpWait: int, tcpWait: int): Tick {
    Tick([], udp, tcp, udpWait + tcpWait, at + udpWait, at + udpWait, at + udpWait + tcpWait, at + udpWait + tcpWait)
  }

  /** It happens. A first session has no UDP socket, and its first request, three seconds after the
      start, is not answered: one failure. The client reconnects after two seconds, this time with UDP;
      three seconds later the first request of the new session loses its datagram, and TCP answers it. */
  lemma FirstRequestCanLeaveUDP(key: Key)
    ensures var lost := Exchange(true, true, None);
      var answered := Exchange(true, true, Some(BuildDataFrameV2(key, 2, 1, "drip", [])));
      var start := Policy.Initial(Policy.UDP, 0);
      var failing := TickAt(3 * Policy.SECOND, lost, lost, 0, 3 * Policy.SECOND);
      var s := AfterSession(start, false, key, [failing]);
      var first := TickAt(11 * Policy.SECOND, lost, answered, 3 * Policy.SECOND, 40 * Policy.MILLISECOND);
      && SessionFails(start, false, key, [failing])
      && s.current == Policy.UDP && TickOk(s, true, key, first) && AfterTick(s, true, key, first).current == Policy.TCP
      && !LeavesUDPOnlyAtTheEnd(s, true, key, [first])
  {
    var lost := Exchange(true, true, None);
    var start := Policy.Initial(Policy.UDP, 0);
    var failing := TickAt(3 * Policy.SECOND, lost, lost, 0, 3 * Policy.SECOND);
    var s := AfterSession(start, false, key, [failing]);
    assert s == AfterTick(start, false, key, failing) && s.consecutiveFailures == 1 && s.lastSwitchAt == 0;
  }
}
