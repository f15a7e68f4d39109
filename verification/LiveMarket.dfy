/** The market trading over the live order path instead of the replay gateway. */
module LiveMarket {
  import opened Common
  import opened MaskArithmetic
  import opened Itch
  import opened Market
  import opened Strategy
  import opened ProcessorLaws
  import opened MarketLaws
  import opened CreditLaws
  import opened LivePath
  import opened LivePathLaws

  lemma {:induction false} RunPrefix(s: Live, steps: seq<Step>, n: nat)
    requires LiveRun(s, steps) && n <= |steps|
    ensures LiveRun(s, steps[..n])
    decreases n
  {
    if n == 0 {
    } else {
      RunPrefix(Do(s, steps[0]), steps[1..], n - 1);
      assert steps[..n][1..] == steps[1..][..n - 1];
    }
  }

  /** The live path after the first n steps of a run. */
  function LiveAt(s: Live, steps: seq<Step>, n: nat): Live
    requires LiveRun(s, steps) && n <= |steps|
  {
    RunPrefix(s, steps, n);
    LivePath.After(s, steps[..n])
  }

  lemma LiveAtOk(outCapacity: nat, inbCapacity: nat, steps: seq<Step>, n: nat)
    requires IsPow2(outCapacity) && IsPow2(inbCapacity)
    requires LiveRun(StartLive(outCapacity, inbCapacity), steps) && n <= |steps|
    ensures LiveInv(LiveAt(StartLive(outCapacity, inbCapacity), steps, n))
  {
    StartLiveOk(outCapacity, inbCapacity);
    RunPrefix(StartLive(outCapacity, inbCapacity), steps, n);
    LiveRunOk(StartLive(outCapacity, inbCapacity), steps[..n]);
  }

  // Order ids count up, so the report confirming an order names its place among those sent.
  lemma ConfirmedIsEcho(s: Live, m: State, k: nat)
    requires LiveInv(s) && MarketSound(m) && s.sent <= m.sent && k < |s.confirmed|
    ensures IsEcho(m, s.confirmed[k])
  {
    assert s.confirmed[k] == Echo(s.sent[k]) && m.sent[k] == s.sent[k] && m.sent[k].orderId == k;
  }

  /** The market sent every order the path was handed, and takes reports the path confirmed. */
  predicate Polled(m: State, s: Live, reports: seq<ExecutionReport>) {
    s.sent <= m.sent && forall r | r in reports :: r in s.confirmed
  }

  lemma PolledAreEchoes(m: State, s: Live, reports: seq<ExecutionReport>)
    requires LiveInv(s) && MarketSound(m) && Polled(m, s, reports)
    ensures forall r | r in reports :: IsEcho(m, r)
  {
    forall r | r in reports ensures IsEcho(m, r) {
      var k: nat :| k < |s.confirmed| && s.confirmed[k] == r;
      ConfirmedIsEcho(s, m, k);
    }
  }

  /** The market trades over the live path: it polls for the k-th action's reports when the
      path has made its first at[k] steps. */
  predicate OverLivePath(m: State, acts: seq<Action>, live: Live, steps: seq<Step>, at: seq<nat>)
    requires LiveRun(live, steps)
  {
    && |at| == |acts|
    && forall k | 0 <= k < |acts| && acts[k].Reports? ::
         at[k] <= |steps| && Polled(Behave(m, acts[..k]), LiveAt(live, steps, at[k]), acts[k].reports)
  }

  /** To the market the live path is an echoing gateway, on every run in which neither ring is
      written beyond its capacity. */
  lemma LivePathIsEchoing(
    symbols: seq<Symbol>, midnight: nat, acts: seq<Action>,
    outCapacity: nat, inbCapacity: nat, steps: seq<Step>, at: seq<nat>)
    requires IsPow2(outCapacity) && IsPow2(inbCapacity) && OnTheWire(acts)
    requires LiveRun(StartLive(outCapacity, inbCapacity), steps)
    requires OverLivePath(NewMarket(symbols, midnight), acts, StartLive(outCapacity, inbCapacity), steps, at)
    ensures Echoing(NewMarket(symbols, midnight), acts)
  {
    var m0, live := NewMarket(symbols, midnight), StartLive(outCapacity, inbCapacity);
    forall k | 0 <= k < |acts| && acts[k].Reports?
      ensures forall r | r in acts[k].reports :: IsEcho(Behave(m0, acts[..k]), r)
    {
      LiveAtOk(outCapacity, inbCapacity, steps, at[k]);
      AlwaysSound(symbols, midnight, acts[..k]);
      PolledAreEchoes(Behave(m0, acts[..k]), LiveAt(live, steps, at[k]), acts[k].reports);
    }
  }

  /** So over the live path, too, filled and awaited shares together are all the shares each
      symbol sent, and no order is credited twice. */
  lemma LivePositions(
    symbols: seq<Symbol>, midnight: nat, acts: seq<Action>,
    outCapacity: nat, inbCapacity: nat, steps: seq<Step>, at: seq<nat>, i: nat)
    requires IsPow2(outCapacity) && IsPow2(inbCapacity) && OnTheWire(acts) && i < |symbols|
    requires LiveRun(StartLive(outCapacity, inbCapacity), steps)
    requires OverLivePath(NewMarket(symbols, midnight), acts, StartLive(outCapacity, inbCapacity), steps, at)
    ensures var m := Behave(NewMarket(symbols, midnight), acts);
            && |m.procs| == |symbols|
            && m.procs[i].strat.position == WrapI32(100 * |m.procs[i].log.fills|)
            && |m.procs[i].log.sent| == |m.procs[i].log.fills| + |m.procs[i].tracker|
            && forall j, k | 0 <= j < k < |m.procs[i].log.fills| :: m.procs[i].log.fills[j] != m.procs[i].log.fills[k]
  {
    LivePathIsEchoing(symbols, midnight, acts, outCapacity, inbCapacity, steps, at);
    PositionPlusAwaitedIsSent(symbols, midnight, acts, i);
    AlwaysSound(symbols, midnight, acts);
    assert Sound(Behave(NewMarket(symbols, midnight), acts).procs[i], Behave(NewMarket(symbols, midnight), acts).counter);
  }

  /** Without shared locates an order sent over the live path is credited to its sender if and
      only if a poll has returned its report, and awaited if and only if none has; and once the
      polls have returned all reports, nobody awaits a fill and each position is 100 per order. */
  lemma LiveCredits(
    symbols: seq<Symbol>, midnight: nat, acts: seq<Action>,
    outCapacity: nat, inbCapacity: nat, steps: seq<Step>, at: seq<nat>, i: nat)
    requires IsPow2(outCapacity) && IsPow2(inbCapacity) && OnTheWire(acts) && i < |symbols|
    requires LiveRun(StartLive(outCapacity, inbCapacity), steps)
    requires OverLivePath(NewMarket(symbols, midnight), acts, StartLive(outCapacity, inbCapacity), steps, at)
    requires UnsharedActs(NewMarket(symbols, midnight), acts)
    ensures var m := Behave(NewMarket(symbols, midnight), acts);
            && |m.procs| == |symbols|
            && var p := m.procs[i];
            && (forall c | c in p.log.sent :: c.orderId in p.log.fills <==> c.orderId in Reported(acts))
            && (forall c | c in p.log.sent :: c.orderId in p.tracker <==> c.orderId !in Reported(acts))
            && ((forall id: nat | id < m.counter :: id in Reported(acts)) ==>
                  p.tracker == {} && p.strat.position == WrapI32(100 * |p.log.sent|))
  {
    var m0 := NewMarket(symbols, midnight);
    LivePathIsEchoing(symbols, midnight, acts, outCapacity, inbCapacity, steps, at);
    CountsAlways(symbols, midnight, acts);
    forall c | c in Behave(m0, acts).procs[i].log.sent
      ensures var p := Behave(m0, acts).procs[i];
              && (c.orderId in p.log.fills <==> c.orderId in Reported(acts))
              && (c.orderId in p.tracker <==> c.orderId !in Reported(acts))
    {
      CreditedExactlyWhenReported(symbols, midnight, acts, i, c);
    }
    if forall id: nat | id < Behave(m0, acts).counter :: id in Reported(acts) {
      AllReportedAllCredited(symbols, midnight, acts, i);
    }
  }
}
