/** The transport policy: when the client moves between UDP and TCP, and which traffic profile it asks
    for. Times are nanoseconds; a call reads the clock once to compare and again to stamp. */
module Policy {
  datatype Mode = UDP | TCP

  const MILLISECOND: int := 1_000_000
  const SECOND: int := 1000 * MILLISECOND

  datatype State = State(current: Mode, failuresUDP: nat, consecutiveFailures: nat, lastSwitchAt: int, lastRTT: int, profile: string)

  function ProfileOf(s: State): string {
    if s.consecutiveFailures >= 2 then "recovery"
    else if 0 < s.lastRTT < 120 * MILLISECOND && s.current == UDP then "aggressive"
    else "stealth"
  }

  function SwitchTo(s: State, mode: Mode, stamp: int): State {
    s.(current := mode, lastSwitchAt := stamp)
  }

  function AfterFault(s: State, now: int, stamp: int): State {
    var s1 := s.(failuresUDP := s.failuresUDP + 1, consecutiveFailures := s.consecutiveFailures + 1);
    var s2 := s1.(profile := ProfileOf(s1));
    if s2.failuresUDP >= 3 && now - s2.lastSwitchAt > 2 * SECOND then SwitchTo(s2, TCP, stamp) else s2
  }

  function AfterHealthy(s: State, now: int, stamp: int): State {
    var s1 := s.(failuresUDP := 0, consecutiveFailures := 0);
    var s2 := s1.(profile := ProfileOf(s1));
    if s2.current != UDP && now - s2.lastSwitchAt > 10 * SECOND then SwitchTo(s2, UDP, stamp) else s2
  }

  function AfterObserve(s: State, ok: bool, rtt: int, now: int, stamp: int): State {
    var s1 :=
      if ok then
        var s0 := s.(failuresUDP := 0, consecutiveFailures := 0, lastRTT := if rtt > 0 then rtt else s.lastRTT);
        if s0.current != UDP && 0 < s0.lastRTT < 250 * MILLISECOND && now - s0.lastSwitchAt > 8 * SECOND then SwitchTo(s0, UDP, stamp) else s0
      else
        var s0 := s.(failuresUDP := s.failuresUDP + 1, consecutiveFailures := s.consecutiveFailures + 1);
        if s0.current == UDP && (s0.consecutiveFailures >= 2 || s0.failuresUDP >= 3) && now - s0.lastSwitchAt > 2 * SECOND then SwitchTo(s0, TCP, stamp) else s0;
    s1.(profile := ProfileOf(s1))
  }

  class Engine {
    var current: Mode
    var failuresUDP: nat
    var consecutiveFailures: nat
    var lastSwitchAt: int
    var lastRTT: int
    var profile: string

    function View(): State
      reads this
    {
      State(current, failuresUDP, consecutiveFailures, lastSwitchAt, lastRTT, profile)
    }

    constructor (mode: Mode, now: int)
      ensures View() == Initial(mode, now)
      ensures current == mode && failuresUDP == 0 && consecutiveFailures == 0 && lastSwitchAt == now && lastRTT == 0 && profile == "stealth"
    {
      current, lastSwitchAt, profile := mode, now, "stealth";
      failuresUDP, consecutiveFailures, lastRTT := 0, 0, 0;
    }

    method ReportUDPFault(now: int, stamp: int)
      modifies this
      ensures View() == AfterFault(old(View()), now, stamp)
    {
      failuresUDP := failuresUDP + 1;
      consecutiveFailures := consecutiveFailures + 1;
      UpdateProfile();
      if failuresUDP >= 3 && now - lastSwitchAt > 2 * SECOND {
        current := TCP;
        lastSwitchAt := stamp;
      }
    }

    method ReportUDPHealthy(now: int, stamp: int)
      modifies this
      ensures View() == AfterHealthy(old(View()), now, stamp)
    {
      failuresUDP := 0;
      consecutiveFailures := 0;
      UpdateProfile();
      if current != UDP && now - lastSwitchAt > 10 * SECOND {
        current := UDP;
        lastSwitchAt := stamp;
      }
    }

    method Observe(ok: bool, rtt: int, now: int, stamp: int)
      modifies this
      ensures View() == AfterObserve(old(View()), ok, rtt, now, stamp)
    {
      if ok {
        failuresUDP := 0;
        consecutiveFailures := 0;
        if rtt > 0 { lastRTT := rtt; }
        if current != UDP && lastRTT > 0 && lastRTT < 250 * MILLISECOND && now - lastSwitchAt > 8 * SECOND {
          current := UDP;
          lastSwitchAt := stamp;
        }
      } else {
        consecutiveFailures := consecutiveFailures + 1;
        failuresUDP := failuresUDP + 1;
        if current == UDP && (consecutiveFailures >= 2 || failuresUDP >= 3) && now - lastSwitchAt > 2 * SECOND {
          current := TCP;
          lastSwitchAt := stamp;
        }
      }
      UpdateProfile();
    }

    method UpdateProfile()
      modifies `profile
      ensures View() == old(View()).(profile := ProfileOf(old(View())))
    {
      if consecutiveFailures >= 2 {
        profile := "recovery";
        return;
      }
      if lastRTT > 0 && lastRTT < 120 * MILLISECOND && current == UDP {
        profile := "aggressive";
        return;
      }
      profile := "stealth";
    }
  }

  function Initial(mode: Mode, now: int): State {
    State(mode, 0, 0, now, 0, "stealth")
  }

  // ---------- runs ----------

  datatype Call =
    | Fault(now: int, stamp: int)
    | Healthy(now: int, stamp: int)
    | Observe(ok: bool, rtt: int, now: int, stamp: int)

  function Apply(s: State, call: Call): State {
    match call
    case Fault(now, stamp) => AfterFault(s, now, stamp)
    case Healthy(now, stamp) => AfterHealthy(s, now, stamp)
    case Observe(ok, rtt, now, stamp) => AfterObserve(s, ok, rtt, now, stamp)
  }

  function Run(s: State, calls: seq<Call>): State
    decreases |calls|
  {
    if |calls| == 0 then s else Run(Apply(s, calls[0]), calls[1..])
  }

  /** The clock never goes back within a call. */
  predicate Clocked(calls: seq<Call>) {
    |calls| > 0 ==> calls[0].now <= calls[0].stamp && Clocked(calls[1..])
  }

  // ---------- the counters and the profile ----------

  /** The two counters are one; the profile is recovery exactly from two failures on, and aggressive
      only on UDP with a short round trip. */
  ghost predicate Inv(s: State) {
    && s.failuresUDP == s.consecutiveFailures
    && (s.profile == "recovery" <==> s.consecutiveFailures >= 2)
    && (s.profile == "aggressive" ==> s.current == UDP && 0 < s.lastRTT < 120 * MILLISECOND)
    && (s.profile == "recovery" || s.profile == "aggressive" || s.profile == "stealth")
  }

  lemma StepKeepsInv(s: State, call: Call)
    requires Inv(s)
    ensures Inv(Apply(s, call))
  {
  }

  lemma {:induction false} RunKeepsInv(s: State, calls: seq<Call>)
    requires Inv(s)
    ensures Inv(Run(s, calls))
    decreases |calls|
  {
    if |calls| > 0 {
      StepKeepsInv(s, calls[0]);
      RunKeepsInv(Apply(s, calls[0]), calls[1..]);
    }
  }

  lemma ReachableKeepsInv(mode: Mode, now: int, calls: seq<Call>)
    ensures Inv(Run(Initial(mode, now), calls))
  {
    RunKeepsInv(Initial(mode, now), calls);
  }

  /** After a call the profile is the function of the other fields, except exactly when a health report
      has just moved the engine back to UDP with a short round trip on record: it then still reads
      stealth, because the profile was computed before the switch. */
  lemma ProfileIsCurrentIff(s: State, call: Call)
    requires Inv(s)
    ensures var s' := Apply(s, call);
      s'.profile == ProfileOf(s') <==>
        !(call.Healthy? && s.current == TCP && call.now - s.lastSwitchAt > 10 * SECOND && 0 < s.lastRTT < 120 * MILLISECOND)
  {
  }

  /** A failed observation leaves UDP exactly when it is not the first failure in a row and the last
      switch is more than two seconds old; the test on the second counter decides nothing. */
  lemma FailureSwitchesIff(s: State, rtt: int, now: int, stamp: int)
    requires Inv(s) && s.current == UDP
    ensures var s' := AfterObserve(s, false, rtt, now, stamp);
      var moves := s.consecutiveFailures >= 1 && now - s.lastSwitchAt > 2 * SECOND;
      (s'.current == TCP <==> moves) && s'.lastSwitchAt == (if moves then stamp else s.lastSwitchAt)
  {
  }

  /** An answered observation on TCP returns to UDP exactly when the round trip then on record is positive
      and under 250 milliseconds and the last switch is more than eight seconds old; only then it stamps. */
  lemma AnswerReturnsIff(s: State, rtt: int, now: int, stamp: int)
    requires s.current == TCP
    ensures var s' := AfterObserve(s, true, rtt, now, stamp);
      var back := 0 < (if rtt > 0 then rtt else s.lastRTT) < 250 * MILLISECOND && now - s.lastSwitchAt > 8 * SECOND;
      (s'.current == UDP <==> back) && s'.lastSwitchAt == (if back then stamp else s.lastSwitchAt)
  {
  }

  /** An observation that confirms the mode keeps it: an answer on UDP, a failure on TCP. */
  lemma ConfirmedModeStays(s: State, ok: bool, rtt: int, now: int, stamp: int)
    requires ok <==> s.current == UDP
    ensures AfterObserve(s, ok, rtt, now, stamp).current == s.current && AfterObserve(s, ok, rtt, now, stamp).lastSwitchAt == s.lastSwitchAt
  {
  }

  /** What an observation records: an answer clears both counters and keeps a measured round trip, a failure
      counts once in each; and the profile is told from the counters, the mode and the round trip it ends with. */
  lemma ObserveRecords(s: State, ok: bool, rtt: int, now: int, stamp: int)
    ensures var s' := AfterObserve(s, ok, rtt, now, stamp);
      && s'.consecutiveFailures == (if ok then 0 else s.consecutiveFailures + 1)
      && s'.failuresUDP == (if ok then 0 else s.failuresUDP + 1)
      && s'.lastRTT == (if ok && rtt > 0 then rtt else s.lastRTT)
      && (s'.profile == "recovery" <==> s'.consecutiveFailures >= 2)
      && (s'.profile == "aggressive" <==> s'.consecutiveFailures < 2 && s'.current == UDP && 0 < s'.lastRTT < 120 * MILLISECOND)
      && (s'.profile in {"recovery", "aggressive", "stealth"})
  {
  }

  /** A reported fault moves to TCP, and stamps, exactly from the third on and more than two seconds after
      the last stamp; it counts once in each counter. */
  lemma FaultSwitchesIff(s: State, now: int, stamp: int)
    ensures var s' := AfterFault(s, now, stamp);
      var moves := s.failuresUDP >= 2 && now - s.lastSwitchAt > 2 * SECOND;
      && s'.current == (if moves then TCP else s.current) && s'.lastSwitchAt == (if moves then stamp else s.lastSwitchAt)
      && s'.failuresUDP == s.failuresUDP + 1 && s'.consecutiveFailures == s.consecutiveFailures + 1 && s'.lastRTT == s.lastRTT
      && (s'.profile == "recovery" <==> s.consecutiveFailures >= 1)
  {
  }

  /** A health report returns to UDP, and stamps, exactly on TCP and more than ten seconds after the last
      stamp; it clears both counters. */
  lemma HealthSwitchesIff(s: State, now: int, stamp: int)
    ensures var s' := AfterHealthy(s, now, stamp);
      var moves := s.current == TCP && now - s.lastSwitchAt > 10 * SECOND;
      && (s'.current == UDP <==> s.current == UDP || moves) && s'.lastSwitchAt == (if moves then stamp else s.lastSwitchAt)
      && s'.failuresUDP == 0 && s'.consecutiveFailures == 0 && s'.lastRTT == s.lastRTT
      && (s'.profile == "aggressive" <==> s.current == UDP && 0 < s.lastRTT < 120 * MILLISECOND) && s'.profile != "recovery"
  {
  }

  // ---------- no flapping ----------

  function Flip(m: Mode): Mode {
    if m == UDP then TCP else UDP
  }

  predicate OnlyObserves(calls: seq<Call>) {
    |calls| > 0 ==> calls[0].Observe? && OnlyObserves(calls[1..])
  }

  /** How often the mode changes over the run. */
  function Switches(s: State, calls: seq<Call>): nat
    decreases |calls|
  {
    if |calls| == 0 then 0
    else (if Apply(s, calls[0]).current != s.current then 1 else 0) + Switches(Apply(s, calls[0]), calls[1..])
  }

  /** The least time k alternating switches take from mode m: more than two seconds to leave UDP and
      more than eight to leave TCP. */
  function LeastTime(m: Mode, k: nat): int
    decreases k
  {
    if k == 0 then 0 else (if m == UDP then 2 else 8) * SECOND + 1 + LeastTime(Flip(m), k - 1)
  }

  lemma {:induction false} LeastTimeClosed(k: nat)
    ensures LeastTime(UDP, k) == (2 * ((k + 1) / 2) + 8 * (k / 2)) * SECOND + k
  {
    if k >= 2 {
      LeastTimeClosed(k - 2);
      TwoSwitches(k - 2);
      assert (k + 1) / 2 == (k - 2 + 1) / 2 + 1 && k / 2 == (k - 2) / 2 + 1;
    }
  }

  lemma TwoSwitches(k: nat)
    ensures LeastTime(UDP, k + 2) == 10 * SECOND + 2 + LeastTime(UDP, k)
  {
    assert LeastTime(UDP, k + 2) == 2 * SECOND + 1 + LeastTime(TCP, k + 1);
  }

  lemma {:induction false} ObserveRunsDoNotFlap(s: State, calls: seq<Call>)
    requires OnlyObserves(calls) && Clocked(calls)
    ensures var s' := Run(s, calls);
      var k := Switches(s, calls);
      && s'.lastSwitchAt - s.lastSwitchAt >= LeastTime(s.current, k)
      && s'.current == (if k % 2 == 0 then s.current else Flip(s.current))
      && (k == 0 ==> s'.lastSwitchAt == s.lastSwitchAt)
    decreases |calls|
  {
    if |calls| > 0 {
      var s1 := Apply(s, calls[0]);
      ObserveRunsDoNotFlap(s1, calls[1..]);
      ObserveStep(s, calls[0]);
    }
  }

  lemma ObserveStep(s: State, call: Call)
    requires call.Observe? && call.now <= call.stamp
    ensures var s' := Apply(s, call);
      if s'.current == s.current then s'.lastSwitchAt == s.lastSwitchAt
      else s'.current == Flip(s.current) && s'.lastSwitchAt - s.lastSwitchAt >= (if s.current == UDP then 2 else 8) * SECOND + 1
  {
  }

  /** Anti-flapping: in a run of observations that starts on UDP, the switches alternate and k of them,
      k at least 1, take more than 2*ceil(k/2) + 8*floor(k/2) seconds. */
  lemma SwitchesTakeTime(s: State, calls: seq<Call>)
    requires s.current == UDP && OnlyObserves(calls) && Clocked(calls) && Switches(s, calls) >= 1
    ensures var k := Switches(s, calls);
      && Run(s, calls).lastSwitchAt - s.lastSwitchAt > (2 * ((k + 1) / 2) + 8 * (k / 2)) * SECOND
      && (Run(s, calls).current == UDP <==> k % 2 == 0)
  {
    ObserveRunsDoNotFlap(s, calls);
    LeastTimeClosed(Switches(s, calls));
  }

  /** How often the run stamps a new switch time. A fault reported on TCP stamps without switching. */
  function Stamps(s: State, calls: seq<Call>): nat
    decreases |calls|
  {
    if |calls| == 0 then 0
    else (if Apply(s, calls[0]).lastSwitchAt != s.lastSwitchAt then 1 else 0) + Stamps(Apply(s, calls[0]), calls[1..])
  }

  /** In any mix of calls, successive stamps are more than two seconds apart, and every switch stamps. */
  lemma {:induction false} StampsAreApart(s: State, calls: seq<Call>)
    requires Clocked(calls)
    ensures Run(s, calls).lastSwitchAt - s.lastSwitchAt >= Stamps(s, calls) * (2 * SECOND + 1)
    ensures Switches(s, calls) <= Stamps(s, calls)
    decreases |calls|
  {
    if |calls| > 0 {
      StampsAreApart(Apply(s, calls[0]), calls[1..]);
      StampStep(s, calls[0]);
    }
  }

  lemma StampStep(s: State, call: Call)
    requires call.now <= call.stamp
    ensures var s' := Apply(s, call);
      && (s'.lastSwitchAt == s.lastSwitchAt || s'.lastSwitchAt - s.lastSwitchAt >= 2 * SECOND + 1)
      && (s'.current != s.current ==> s'.lastSwitchAt != s.lastSwitchAt)
  {
  }
}
