/**
 The agent's own end. Main's last wait is for the producer, the dispatcher, the sanitiser and, if there
 is one, the hardener; a dispatcher that has finished is not enough.
 */
module FinalWait {
  import opened Wrappers
  import opened Dispatch
  import N = Network

  /** `ends`: after a drained queue the sanitiser's request to terminate returns and the helper process exits. */
  datatype Setup = Setup(
    solutions: seq<Solution>, enableHardening: bool, onWindows: bool, sanitiser: N.Sanitiser, ends: bool)

  function Net(u: Setup): N.Config {
    N.Wiring(u.solutions, u.enableHardening, u.onWindows, u.sanitiser)
  }

  /** The network, which of the two consumers have returned, and whether main has passed its wait. */
  datatype Agent = Agent(net: N.Net, sanitiserBack: bool, hardenerBack: bool, over: bool)

  function Start(u: Setup, results: seq<ScanResult>): Agent {
    Agent(N.Start(results), false, !(u.enableHardening && u.onWindows), false)
  }

  datatype Step = Inner(st: N.Step) | SanitiserReturns | HardenerReturns | MainReturns

  predicate ReturnsAtOnce(u: Setup) {
    !u.onWindows || u.sanitiser.ReturnsEarly?
  }

  /** The sanitiser's loop is over: its queue is closed and empty, and it is not stuck on a request. */
  predicate LoopOver(u: Setup, n: N.Net) {
    n.sclosed && n.squeue == [] && (u.sanitiser.BlocksAfter? ==> |n.staken| < u.sanitiser.taken)
  }

  predicate Can(u: Setup, a: Agent, st: Step) {
    !a.over &&
    match st
    case Inner(st) => N.Can(Net(u), a.net, st)
    case SanitiserReturns => !a.sanitiserBack && (ReturnsAtOnce(u) || (u.ends && LoopOver(u, a.net)))
    case HardenerReturns => !a.hardenerBack && a.net.hclosed && a.net.hqueue == []
    case MainReturns => a.net.producerClosed && a.net.disp.Gone? && a.sanitiserBack && a.hardenerBack
  }

  function Do(u: Setup, a: Agent, st: Step): Agent
    requires Can(u, a, st)
  {
    match st
    case Inner(st) => a.(net := N.Do(Net(u), a.net, st))
    case SanitiserReturns => a.(sanitiserBack := true)
    case HardenerReturns => a.(hardenerBack := true)
    case MainReturns => a.(over := true)
  }

  function Run(u: Setup, results: seq<ScanResult>, steps: seq<Step>): Option<Agent> {
    if steps == [] then Some(Start(u, results))
    else
      match Run(u, results, steps[..|steps| - 1])
      case None => None
      case Some(a) => if Can(u, a, steps[|steps| - 1]) then Some(Do(u, a, steps[|steps| - 1])) else None
  }

  ghost predicate Reached(u: Setup, results: seq<ScanResult>, steps: seq<Step>, a: Agent) {
    Run(u, results, steps) == Some(a)
  }

  /** Nothing in the agent can step. */
  ghost predicate Halted(u: Setup, a: Agent) {
    forall st :: !Can(u, a, st)
  }

  // ---------------------------------------------------------------- invariant

  /** The sanitiser returns at once, or from a loop that no request blocks. */
  predicate SanitiserEnds(u: Setup, total: nat) {
    ReturnsAtOnce(u) || (u.ends && (u.sanitiser.BlocksAfter? ==> total < u.sanitiser.taken))
  }

  ghost predicate Inv(u: Setup, results: seq<ScanResult>, a: Agent) {
    && N.Ordered(Net(u), results, a.net) && N.Bounded(Net(u), a.net)
    && (a.sanitiserBack ==> SanitiserEnds(u, |Wanted(results, u.solutions)|))
    && (!(u.enableHardening && u.onWindows) ==> a.hardenerBack)
    && (a.over ==> a.sanitiserBack && a.net.disp.Gone?)
  }

  /** With its queue closed and empty the sanitiser has taken everything that was wanted. */
  lemma AllTaken(u: Setup, results: seq<ScanResult>, n: N.Net)
    requires N.Ordered(Net(u), results, n) && N.Bounded(Net(u), n) && n.disp.Gone? && n.squeue == []
    ensures |n.staken| == |Wanted(results, u.solutions)|
  {
    assert n.sent == Wanted(results, u.solutions);
    assert |n.staken + n.squeue| == |n.sent|;
  }

  lemma {:induction false} InvAlways(u: Setup, results: seq<ScanResult>, steps: seq<Step>, a: Agent)
    requires Reached(u, results, steps, a)
    ensures Inv(u, results, a)
  {
    if steps != [] {
      var before, st := Run(u, results, steps[..|steps| - 1]).value, steps[|steps| - 1];
      InvAlways(u, results, steps[..|steps| - 1], before);
      match st
      case Inner(t) =>
        N.OrderedStep(Net(u), results, before.net, t);
        N.BoundedStep(Net(u), before.net, t);
      case SanitiserReturns =>
        if !ReturnsAtOnce(u) {
          AllTaken(u, results, before.net);
        }
      case _ =>
    } else {
      N.AlwaysOrdered(Net(u), results, [], N.Start(results));
    }
  }

  // ---------------------------------------------------------------- every schedule ends

  function Remaining(u: Setup, a: Agent): nat {
    N.Work(Net(u), a.net) + (if a.sanitiserBack then 0 else 1) + (if a.hardenerBack then 0 else 1)
    + if a.over then 0 else 1
  }

  lemma StepsLeaveLess(u: Setup, a: Agent, st: Step)
    requires Can(u, a, st)
    ensures Remaining(u, Do(u, a, st)) < Remaining(u, a)
  {
    if st.Inner? {
      N.StepsDecreaseWork(Net(u), a.net, st.st);
    }
  }

  lemma {:induction false} RunsToTheEnd(u: Setup, results: seq<ScanResult>, steps: seq<Step>, a: Agent)
    returns (steps': seq<Step>, a': Agent)
    requires Reached(u, results, steps, a)
    ensures Reached(u, results, steps', a') && Halted(u, a')
    decreases Remaining(u, a)
  {
    if st :| Can(u, a, st) {
      assert (steps + [st])[..|steps|] == steps;
      StepsLeaveLess(u, a, st);
      steps', a' := RunsToTheEnd(u, results, steps + [st], Do(u, a, st));
    } else {
      steps', a' := steps, a;
    }
  }

  // ---------------------------------------------------------------- main results

  /** A halted agent whose requests fit and whose sanitiser is not blocked has passed the wait. */
  lemma HaltedIsOver(u: Setup, results: seq<ScanResult>, a: Agent)
    requires Inv(u, results, a) && Halted(u, a)
    requires SanitiserEnds(u, |Wanted(results, u.solutions)|) && N.Fits(Net(u), |Wanted(results, u.solutions)|)
    ensures a.over
  {
    if !a.over {
      if !a.net.disp.Gone? {
        var st := N.RoomMeansProgress(Net(u), results, a.net);
        assert Can(u, a, Inner(st));
      }
      assert !Can(u, a, Inner(N.SanitiserTakes)) && !Can(u, a, Inner(N.HardenerTakes));
      assert !Can(u, a, SanitiserReturns) && !Can(u, a, HardenerReturns) && !Can(u, a, MainReturns);
      ConsumersAreBack(u, results, a);
    }
  }

  lemma ConsumersAreBack(u: Setup, results: seq<ScanResult>, a: Agent)
    requires Inv(u, results, a) && !a.over && a.net.disp.Gone?
    requires SanitiserEnds(u, |Wanted(results, u.solutions)|)
    requires !Can(u, a, Inner(N.SanitiserTakes)) && !Can(u, a, Inner(N.HardenerTakes))
    requires !Can(u, a, SanitiserReturns) && !Can(u, a, HardenerReturns)
    ensures a.sanitiserBack && a.hardenerBack
  {
    assert a.net.sent == Wanted(results, u.solutions);
    assert |a.net.staken + a.net.squeue| == |a.net.sent|;
  }

  /**
   Main's last wait ends in every schedule that runs to its end if and only if the sanitiser returns
   and the requests fit; otherwise it ends in none.
   */
  lemma FinalWaitExactly(u: Setup, results: seq<ScanResult>)
    ensures var total := |Wanted(results, u.solutions)|;
            var fine := SanitiserEnds(u, total) && N.Fits(Net(u), total);
            && ((forall steps, a :: Reached(u, results, steps, a) && Halted(u, a) ==> a.over) <==> fine)
            && (!fine ==> forall steps, a :: Reached(u, results, steps, a) ==> !a.over)
  {
    var total := |Wanted(results, u.solutions)|;
    if SanitiserEnds(u, total) && N.Fits(Net(u), total) {
      forall steps, a | Reached(u, results, steps, a) && Halted(u, a) ensures a.over {
        InvAlways(u, results, steps, a);
        HaltedIsOver(u, results, a);
      }
    } else {
      forall steps, a | Reached(u, results, steps, a) ensures !a.over {
        InvAlways(u, results, steps, a);
        if a.over {
          N.FinishedMeansRoom(Net(u), results, a.net);
        }
      }
      var steps, a := RunsToTheEnd(u, results, [], Start(u, results));
    }
  }

  /**
   The agent as wired ends: off Windows or with a sanitiser that returned before its loop exactly when
   at most 100 requests are wanted; otherwise exactly when the sanitiser blocks on none of them and its
   termination goes well.
   */
  lemma AgentEndsExactly(u: Setup, results: seq<ScanResult>)
    ensures var total := |Wanted(results, u.solutions)|;
            (forall steps, a :: Reached(u, results, steps, a) && Halted(u, a) ==> a.over) <==>
              if ReturnsAtOnce(u) then total <= 100
              else u.ends && (u.sanitiser.BlocksAfter? ==> total < u.sanitiser.taken)
  {
    FinalWaitExactly(u, results);
  }
}
