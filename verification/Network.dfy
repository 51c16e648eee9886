/**
 The agent's pipeline as a network: a producer and the dispatcher meet on an unbuffered channel,
 and the dispatcher feeds the sanitiser and the hardener through two queues of capacity 100.

 A run is any list of enabled steps. A consumer takes items without end, or only a given number of
 them: none when it never starts its loop, one when its first request never returns.
 */
module Network {
  import opened Sequences
  import opened Wrappers
  import opened Dispatch

  const CAPACITY: nat := 100

  datatype Limit = Unlimited | AtMost(n: nat)

  datatype Config = Config(solutions: seq<Solution>, enableHardening: bool, sanitiser: Limit, hardener: Limit)

  datatype Dispatcher =
    | Receiving
    | Trying(f: ScanResult, rest: seq<Solution>)      // solutions not looked at yet
    | SendingHarden(f: ScanResult, rest: seq<Solution>)
    | ClosingHarden
    | ClosingSanitize
    | Gone

  /** `sent` is history: the pairs whose sanitise request has been sent. */
  datatype Net = Net(
    pending: seq<ScanResult>, producerClosed: bool,
    disp: Dispatcher,
    squeue: seq<SanitizeReq>, sclosed: bool, staken: seq<SanitizeReq>,
    hqueue: seq<HardenReq>, hclosed: bool, htaken: seq<HardenReq>,
    sent: seq<(ScanResult, Solution)>)

  function Start(results: seq<ScanResult>): Net {
    Net(results, false, Receiving, [], false, [], [], false, [], [])
  }

  datatype Step =
    | Hands            // producer and dispatcher meet
    | ProducerCloses
    | SeesClosed
    | Skips            // no solution left, or the next one has another name
    | SendsSanitize
    | SendsHarden
    | ClosesHarden
    | ClosesSanitize
    | SanitiserTakes
    | HardenerTakes

  predicate May(l: Limit, taken: nat) {
    l.Unlimited? || taken < l.n
  }

  predicate Can(c: Config, n: Net, st: Step) {
    match st
    case Hands => n.disp.Receiving? && n.pending != []
    case ProducerCloses => n.pending == [] && !n.producerClosed
    case SeesClosed => n.disp.Receiving? && n.producerClosed
    case Skips => n.disp.Trying? && (n.disp.rest == [] || n.disp.rest[0].name != n.disp.f.rule)
    case SendsSanitize =>
      n.disp.Trying? && n.disp.rest != [] && n.disp.rest[0].name == n.disp.f.rule && |n.squeue| < CAPACITY
    case SendsHarden => n.disp.SendingHarden? && n.disp.rest != [] && |n.hqueue| < CAPACITY
    case ClosesHarden => n.disp.ClosingHarden?
    case ClosesSanitize => n.disp.ClosingSanitize?
    case SanitiserTakes => n.squeue != [] && May(c.sanitiser, |n.staken|)
    case HardenerTakes => n.hqueue != [] && May(c.hardener, |n.htaken|)
  }

  function Do(c: Config, n: Net, st: Step): Net
    requires Can(c, n, st)
  {
    match st
    case Hands => n.(pending := n.pending[1..], disp := Trying(n.pending[0], c.solutions))
    case ProducerCloses => n.(producerClosed := true)
    case SeesClosed => n.(disp := ClosingHarden)
    case Skips => n.(disp := if n.disp.rest == [] then Receiving else Trying(n.disp.f, n.disp.rest[1..]))
    case SendsSanitize =>
      n.(squeue := n.squeue + [SanitizeFor(n.disp.f, n.disp.rest[0])],
         sent := n.sent + [(n.disp.f, n.disp.rest[0])],
         disp := if c.enableHardening then SendingHarden(n.disp.f, n.disp.rest) else Trying(n.disp.f, n.disp.rest[1..]))
    case SendsHarden =>
      n.(hqueue := n.hqueue + [HardenFor(n.disp.f, n.disp.rest[0])], disp := Trying(n.disp.f, n.disp.rest[1..]))
    case ClosesHarden => n.(hclosed := true, disp := ClosingSanitize)
    case ClosesSanitize => n.(sclosed := true, disp := Gone)
    case SanitiserTakes => n.(squeue := n.squeue[1..], staken := n.staken + [n.squeue[0]])
    case HardenerTakes => n.(hqueue := n.hqueue[1..], htaken := n.htaken + [n.hqueue[0]])
  }

  function Run(c: Config, n: Net, steps: seq<Step>): Option<Net> {
    if steps == [] then Some(n)
    else
      match Run(c, n, steps[..|steps| - 1])
      case None => None
      case Some(n') => if Can(c, n', steps[|steps| - 1]) then Some(Do(c, n', steps[|steps| - 1])) else None
  }

  ghost predicate Reached(c: Config, results: seq<ScanResult>, steps: seq<Step>, n: Net) {
    Run(c, Start(results), steps) == Some(n)
  }

  // ---------------------------------------------------------------- order

  /** What the dispatcher still wants of the result it holds. */
  function Left(d: Dispatcher): seq<(ScanResult, Solution)> {
    match d
    case Trying(f, rest) => Matches(f, rest)
    case SendingHarden(f, rest) => if rest == [] then [] else Matches(f, rest[1..])
    case _ => []
  }

  /** The pairs whose hardening request has been sent: at most the last one is missing. */
  function HardenSent(c: Config, n: Net): seq<(ScanResult, Solution)> {
    if !c.enableHardening then []
    else if n.disp.SendingHarden? && n.sent != [] then n.sent[..|n.sent| - 1]
    else n.sent
  }

  predicate Closing(d: Dispatcher) {
    d.ClosingHarden? || d.ClosingSanitize? || d.Gone?
  }

  /** What has been sent, what the dispatcher still wants of its result, and what is to come. */
  ghost predicate InOrder(c: Config, results: seq<ScanResult>, n: Net) {
    Wanted(results, c.solutions) == n.sent + Left(n.disp) + Wanted(n.pending, c.solutions)
  }

  ghost predicate HardenOrder(c: Config, n: Net) {
    && n.htaken + n.hqueue == HardenAll(HardenSent(c, n))
    && (n.disp.SendingHarden? ==>
          c.enableHardening && n.disp.rest != [] && n.sent != [] && n.sent[|n.sent| - 1] == (n.disp.f, n.disp.rest[0]))
  }

  ghost predicate Ordered(c: Config, results: seq<ScanResult>, n: Net) {
    InOrder(c, results, n) && n.staken + n.squeue == SanitizeAll(n.sent) && HardenOrder(c, n)
  }

  ghost predicate Bounded(c: Config, n: Net) {
    && |n.squeue| <= CAPACITY && |n.hqueue| <= CAPACITY
    && (c.sanitiser.AtMost? ==> |n.staken| <= c.sanitiser.n)
    && (c.hardener.AtMost? ==> |n.htaken| <= c.hardener.n)
    && (n.hclosed <==> n.disp.ClosingSanitize? || n.disp.Gone?)
    && (n.sclosed <==> n.disp.Gone?)
    && (Closing(n.disp) ==> n.producerClosed) && (n.producerClosed ==> n.pending == [])
  }

  /** One request more for one pair more. */
  lemma RequestsSnoc(ps: seq<(ScanResult, Solution)>, p: (ScanResult, Solution))
    ensures SanitizeAll(ps + [p]) == SanitizeAll(ps) + [SanitizeFor(p.0, p.1)]
    ensures HardenAll(ps + [p]) == HardenAll(ps) + [HardenFor(p.0, p.1)]
  {
  }

  /** The pair the dispatcher sends is the first of those it still wants. */
  lemma SendsFirst(c: Config, n: Net)
    requires Can(c, n, SendsSanitize)
    ensures var p := (n.disp.f, n.disp.rest[0]);
            && Left(n.disp) == [p] + Left(Do(c, n, SendsSanitize).disp)
            && Do(c, n, SendsSanitize).sent == n.sent + [p]
  {
  }

  lemma SanitizeInOrder(c: Config, results: seq<ScanResult>, n: Net)
    requires InOrder(c, results, n) && Can(c, n, SendsSanitize)
    ensures InOrder(c, results, Do(c, n, SendsSanitize))
  {
    SendsFirst(c, n);
    MoveFirst(n.sent, (n.disp.f, n.disp.rest[0]), Left(Do(c, n, SendsSanitize).disp), Wanted(n.pending, c.solutions));
  }

  lemma SanitizeKeepsHardenOrder(c: Config, n: Net)
    requires HardenOrder(c, n) && Can(c, n, SendsSanitize)
    ensures HardenOrder(c, Do(c, n, SendsSanitize))
  {
    var n' := Do(c, n, SendsSanitize);
    SendsFirst(c, n);
    assert n'.sent[..|n.sent|] == n.sent;
    assert HardenSent(c, n') == HardenSent(c, n);
  }

  lemma OrderedSanitize(c: Config, results: seq<ScanResult>, n: Net)
    requires Ordered(c, results, n) && Can(c, n, SendsSanitize)
    ensures Ordered(c, results, Do(c, n, SendsSanitize))
  {
    var p := (n.disp.f, n.disp.rest[0]);
    SanitizeInOrder(c, results, n);
    SanitizeKeepsHardenOrder(c, n);
    RequestsSnoc(n.sent, p);
    AppendLast(n.staken, n.squeue, SanitizeFor(p.0, p.1));
  }

  lemma HardenInOrder(c: Config, results: seq<ScanResult>, n: Net)
    requires InOrder(c, results, n) && Can(c, n, SendsHarden)
    ensures InOrder(c, results, Do(c, n, SendsHarden))
  {
    assert Left(Do(c, n, SendsHarden).disp) == Left(n.disp);
  }

  /** The last pair sent is the one whose hardening request was missing. */
  lemma HardenCatchesUp(c: Config, n: Net)
    requires HardenOrder(c, n) && Can(c, n, SendsHarden)
    ensures HardenOrder(c, Do(c, n, SendsHarden))
  {
    var front, last := n.sent[..|n.sent| - 1], n.sent[|n.sent| - 1];
    assert n.sent == front + [last];
    RequestsSnoc(front, last);
    AppendLast(n.htaken, n.hqueue, HardenFor(last.0, last.1));
    assert HardenSent(c, Do(c, n, SendsHarden)) == n.sent;
  }

  lemma OrderedHarden(c: Config, results: seq<ScanResult>, n: Net)
    requires Ordered(c, results, n) && Can(c, n, SendsHarden)
    ensures Ordered(c, results, Do(c, n, SendsHarden))
  {
    HardenInOrder(c, results, n);
    HardenCatchesUp(c, n);
  }

  lemma OrderedHands(c: Config, results: seq<ScanResult>, n: Net)
    requires Ordered(c, results, n) && Can(c, n, Hands)
    ensures Ordered(c, results, Do(c, n, Hands))
  {
    var n' := Do(c, n, Hands);
    assert Left(n.disp) == [];
    assert n.sent + Left(n.disp) == n.sent;
    assert Wanted(n.pending, c.solutions) == Left(n'.disp) + Wanted(n'.pending, c.solutions);
  }

  lemma OrderedSkips(c: Config, results: seq<ScanResult>, n: Net)
    requires Ordered(c, results, n) && Can(c, n, Skips)
    ensures Ordered(c, results, Do(c, n, Skips))
  {
    assert Left(Do(c, n, Skips).disp) == Left(n.disp);
  }

  /** Order depends only on what is to come and on each queue together with what was taken from it. */
  lemma SameOrder(c: Config, results: seq<ScanResult>, n: Net, n': Net)
    requires Ordered(c, results, n)
    requires n'.pending == n.pending && n'.disp == n.disp && n'.sent == n.sent
    requires n'.staken + n'.squeue == n.staken + n.squeue && n'.htaken + n'.hqueue == n.htaken + n.hqueue
    ensures Ordered(c, results, n')
  {
  }

  lemma OrderedSanitiserTakes(c: Config, results: seq<ScanResult>, n: Net)
    requires Ordered(c, results, n) && Can(c, n, SanitiserTakes)
    ensures Ordered(c, results, Do(c, n, SanitiserTakes))
  {
    TakeFirst(n.staken, n.squeue);
    SameOrder(c, results, n, Do(c, n, SanitiserTakes));
  }

  lemma OrderedHardenerTakes(c: Config, results: seq<ScanResult>, n: Net)
    requires Ordered(c, results, n) && Can(c, n, HardenerTakes)
    ensures Ordered(c, results, Do(c, n, HardenerTakes))
  {
    TakeFirst(n.htaken, n.hqueue);
    SameOrder(c, results, n, Do(c, n, HardenerTakes));
  }

  lemma OrderedStep(c: Config, results: seq<ScanResult>, n: Net, st: Step)
    requires Ordered(c, results, n) && Bounded(c, n) && Can(c, n, st)
    ensures Ordered(c, results, Do(c, n, st))
  {
    match st
    case SendsSanitize => OrderedSanitize(c, results, n);
    case SendsHarden => OrderedHarden(c, results, n);
    case SanitiserTakes => OrderedSanitiserTakes(c, results, n);
    case HardenerTakes => OrderedHardenerTakes(c, results, n);
    case Hands => OrderedHands(c, results, n);
    case Skips => OrderedSkips(c, results, n);
    case _ =>
  }

  lemma BoundedStep(c: Config, n: Net, st: Step)
    requires Bounded(c, n) && Can(c, n, st)
    ensures Bounded(c, Do(c, n, st))
  {
  }

  lemma {:induction false} AlwaysOrdered(c: Config, results: seq<ScanResult>, steps: seq<Step>, n: Net)
    requires Reached(c, results, steps, n)
    ensures Ordered(c, results, n) && Bounded(c, n)
  {
    if steps != [] {
      var before := Run(c, Start(results), steps[..|steps| - 1]).value;
      AlwaysOrdered(c, results, steps[..|steps| - 1], before);
      OrderedStep(c, results, before, steps[|steps| - 1]);
      BoundedStep(c, before, steps[|steps| - 1]);
    }
  }

  /**
   Every schedule: what has reached the sanitiser and its queue is a prefix of one sequence that
   depends only on the results and the table; the hardening side carries the same pairs, at most
   one behind; no queue exceeds its capacity; and nothing is sent on a closed channel.
   */
  lemma OutputIsDeterministic(c: Config, results: seq<ScanResult>, steps: seq<Step>, n: Net)
    requires Reached(c, results, steps, n)
    ensures var all := Wanted(results, c.solutions);
            && n.staken + n.squeue == SanitizeAll(n.sent) && n.sent <= all
            && (c.enableHardening ==>
                  exists k :: |n.sent| - 1 <= k <= |n.sent| && 0 <= k && n.htaken + n.hqueue == HardenAll(all[..k]))
            && (!c.enableHardening ==> n.htaken + n.hqueue == [])
    ensures |n.squeue| <= CAPACITY && |n.hqueue| <= CAPACITY
    ensures Can(c, n, SendsSanitize) ==> !n.sclosed
    ensures Can(c, n, SendsHarden) ==> !n.hclosed
    ensures n.disp.Gone? ==> n.sent == Wanted(results, c.solutions)
  {
    AlwaysOrdered(c, results, steps, n);
    var all := Wanted(results, c.solutions);
    assert n.sent == all[..|n.sent|];
    if c.enableHardening {
      var k := |HardenSent(c, n)|;
      assert HardenSent(c, n) == all[..k];
    }
  }

  // ---------------------------------------------------------------- progress

  function DispatcherWork(d: Dispatcher, table: nat): nat {
    match d
    case Receiving => 3
    case Trying(_, rest) => 6 * |rest| + 4
    case SendingHarden(_, rest) => 6 * |rest| + 2
    case ClosingHarden => 2
    case ClosingSanitize => 1
    case Gone => 0
  }

  /** The number of steps still possible, at most. */
  function Work(c: Config, n: Net): nat {
    |n.pending| * (6 * |c.solutions| + 5)
    + (if n.producerClosed then 0 else 1)
    + DispatcherWork(n.disp, |c.solutions|)
    + |n.squeue| + |n.hqueue|
  }

  /** Each step leaves less to do, so no schedule runs for ever. */
  lemma StepsDecreaseWork(c: Config, n: Net, st: Step)
    requires Can(c, n, st)
    ensures Work(c, Do(c, n, st)) < Work(c, n)
  {
    if st.Hands? {
      var k := 6 * |c.solutions| + 5;
      assert |n.pending| * k == (|n.pending| - 1) * k + k;
    }
  }

  /** No goroutine of the network can step, and the dispatcher has not finished. */
  ghost predicate Stuck(c: Config, n: Net) {
    !n.disp.Gone? && forall st :: !Can(c, n, st)
  }

  /** The consumers and the queues between them have room for every wanted request. */
  predicate Fits(c: Config, total: nat) {
    && (c.sanitiser.Unlimited? || total <= CAPACITY + c.sanitiser.n)
    && (c.enableHardening ==> c.hardener.Unlimited? || total <= CAPACITY + c.hardener.n)
  }

  /** While the dispatcher has not finished and there is room, some goroutine can step. */
  lemma RoomMeansProgress(c: Config, results: seq<ScanResult>, n: Net) returns (st: Step)
    requires Ordered(c, results, n) && Bounded(c, n) && !n.disp.Gone?
    requires Fits(c, |Wanted(results, c.solutions)|)
    ensures Can(c, n, st)
  {
    match n.disp
    case Receiving => st := if n.pending != [] then Hands else if n.producerClosed then SeesClosed else ProducerCloses;
    case Trying(f, rest) =>
      if rest == [] || rest[0].name != f.rule {
        st := Skips;
      } else if |n.squeue| < CAPACITY {
        st := SendsSanitize;
      } else {
        assert Left(n.disp) == [(f, rest[0])] + Matches(f, rest[1..]);
        assert |n.staken| + |n.squeue| == |n.sent|;
        st := SanitiserTakes;
      }
    case SendingHarden(f, rest) =>
      if |n.hqueue| < CAPACITY {
        st := SendsHarden;
      } else {
        assert |n.htaken| + |n.hqueue| == |n.sent| - 1;
        st := HardenerTakes;
      }
    case ClosingHarden => st := ClosesHarden;
    case ClosingSanitize => st := ClosesSanitize;
  }

  /** A dispatcher that has finished found room for every request. */
  lemma FinishedMeansRoom(c: Config, results: seq<ScanResult>, n: Net)
    requires Ordered(c, results, n) && Bounded(c, n) && n.disp.Gone?
    ensures Fits(c, |Wanted(results, c.solutions)|)
  {
    var all := Wanted(results, c.solutions);
    assert n.sent == all;
    assert |n.staken + n.squeue| == |all|;
    assert |n.htaken + n.hqueue| == |HardenSent(c, n)|;
  }

  /** Any run can be continued until nothing can step. */
  lemma {:induction false} RunsToTheEnd(c: Config, results: seq<ScanResult>, steps: seq<Step>, n: Net)
    returns (steps': seq<Step>, n': Net)
    requires Reached(c, results, steps, n)
    ensures Reached(c, results, steps', n') && forall st :: !Can(c, n', st)
    decreases Work(c, n)
  {
    if st :| Can(c, n, st) {
      assert (steps + [st])[..|steps|] == steps;
      StepsDecreaseWork(c, n, st);
      steps', n' := RunsToTheEnd(c, results, steps + [st], Do(c, n, st));
    } else {
      steps', n' := steps, n;
    }
  }

  /**
   The exact deadlock bound: some schedule gets stuck if and only if the wanted requests do not fit,
   and then every schedule that runs to its end is stuck.
   */
  lemma DeadlockExactlyWhenRequestsDoNotFit(c: Config, results: seq<ScanResult>)
    ensures (exists steps, n :: Reached(c, results, steps, n) && Stuck(c, n))
            <==> !Fits(c, |Wanted(results, c.solutions)|)
    ensures !Fits(c, |Wanted(results, c.solutions)|) ==>
              forall steps, n :: Reached(c, results, steps, n) ==> !n.disp.Gone?
  {
    if Fits(c, |Wanted(results, c.solutions)|) {
      forall steps, n | Reached(c, results, steps, n) && !n.disp.Gone? ensures !Stuck(c, n) {
        AlwaysOrdered(c, results, steps, n);
        var st := RoomMeansProgress(c, results, n);
      }
    } else {
      forall steps, n | Reached(c, results, steps, n) ensures !n.disp.Gone? {
        AlwaysOrdered(c, results, steps, n);
        if n.disp.Gone? {
          FinishedMeansRoom(c, results, n);
        }
      }
      var steps, n := RunsToTheEnd(c, results, [], Start(results));
      assert Stuck(c, n);
    }
  }

  /** The number of steps of a run is bounded before it starts. */
  lemma {:induction false} RunsAreFinite(c: Config, results: seq<ScanResult>, steps: seq<Step>, n: Net)
    requires Reached(c, results, steps, n)
    ensures |steps| + Work(c, n) <= Work(c, Start(results))
  {
    if steps != [] {
      var before := Run(c, Start(results), steps[..|steps| - 1]).value;
      RunsAreFinite(c, results, steps[..|steps| - 1], before);
      StepsDecreaseWork(c, before, steps[|steps| - 1]);
    }
  }

  /** With draining consumers every schedule that runs to its end has delivered everything, in order. */
  lemma DrainingConsumersGetEverything(c: Config, results: seq<ScanResult>, steps: seq<Step>, n: Net)
    requires c.sanitiser.Unlimited? && (c.enableHardening ==> c.hardener.Unlimited?)
    requires Reached(c, results, steps, n) && forall st :: !Can(c, n, st)
    ensures n.disp.Gone? && n.sclosed && n.hclosed
    ensures n.staken == SanitizeAll(Wanted(results, c.solutions))
    ensures n.htaken == if c.enableHardening then HardenAll(Wanted(results, c.solutions)) else []
  {
    AlwaysOrdered(c, results, steps, n);
    if !n.disp.Gone? {
      var st := RoomMeansProgress(c, results, n);
    }
    assert !Can(c, n, SanitiserTakes) && !Can(c, n, HardenerTakes);
    assert n.staken + [] == n.staken && n.htaken + [] == n.htaken;
  }

  // ---------------------------------------------------------------- the wiring in main

  /** How `StartSanitizer` ends up serving its queue. */
  datatype Sanitiser = ReturnsEarly | BlocksAfter(taken: nat) | Drains

  /** Off Windows the sanitiser returns at once and no hardener is started. */
  function Wiring(solutions: seq<Solution>, enableHardening: bool, onWindows: bool, sanitiser: Sanitiser): Config {
    Config(solutions, enableHardening,
           if !onWindows || sanitiser.ReturnsEarly? then AtMost(0)
           else if sanitiser.BlocksAfter? then AtMost(sanitiser.taken)
           else Unlimited,
           if enableHardening && onWindows then Unlimited else AtMost(0))
  }

  /**
   The dispatcher as wired: on Windows with a draining sanitiser it never gets stuck; off Windows, or
   when the sanitiser returned before its loop, it does exactly when more than 100 requests are
   wanted; and when the sanitiser blocks on its n-th request, when more than 100 + n are. What the
   agent as a whole waits for is in `FinalWait`.
   */
  lemma AgentDeadlockBound(solutions: seq<Solution>, enableHardening: bool, onWindows: bool, sanitiser: Sanitiser,
                           results: seq<ScanResult>)
    ensures var c := Wiring(solutions, enableHardening, onWindows, sanitiser);
            var total := |Wanted(results, solutions)|;
            (exists steps, n :: Reached(c, results, steps, n) && Stuck(c, n)) <==>
              if !onWindows || sanitiser.ReturnsEarly? then total > 100
              else sanitiser.BlocksAfter? && total > 100 + sanitiser.taken
  {
    DeadlockExactlyWhenRequestsDoNotFit(Wiring(solutions, enableHardening, onWindows, sanitiser), results);
  }
}
